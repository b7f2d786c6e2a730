/** The tables as the handlers update them in place. */
module ServiceDatabase {
  import opened PosTypes
  import opened Money
  import opened Store
  import opened TillSessions
  import opened Settlement
  import opened OutboxWorker

  class Database {
    const fabric: OutboxTable
    var config: Config
    ghost var rates: set<Rate>
    var rows: Rows
    var sessions: Sessions
    var wire: set<Request>
    var orders: Orders
    var calls: Calls
    var nextCall: nat

    ghost function View(): State
      reads this, fabric
    {
      State(config, rates, rows, sessions, fabric.View(), wire, orders, calls, nextCall)
    }

    constructor (config: Config, fabric: OutboxTable)
      ensures this.config == config && this.fabric == fabric
      ensures View() == Initial(config, 0).(box := fabric.View())
    {
      this.config, this.fabric, rates := config, fabric, {config.rate};
      rows, sessions, wire, orders, calls, nextCall := map[], map[], {}, map[], map[], 0;
    }

    /** The row's request, as the row now stands, has gone out, and a continuation waits for the answer. */
    twostate predicate Sends(id: TxnId, call: Call)
      reads this
    {
      && CanRequest(rows, id) && wire == old(wire) + {RequestFor(rows, id)}
      && calls == old(calls)[old(nextCall) := call] && nextCall == old(nextCall) + 1
    }

    twostate predicate SendsNothing()
      reads this
    {
      wire == old(wire) && calls == old(calls) && nextCall == old(nextCall)
    }

    /** Register a continuation that waits on Sentry. */
    method Await(call: Call)
      modifies this`calls, this`nextCall
      ensures View() == AddCall(old(View()), call)
    {
      calls := calls[nextCall := call];
      nextCall := nextCall + 1;
    }

    /** Build the row's request from its committed values and send it. */
    method Send(id: TxnId, call: Call)
      modifies this`wire, this`calls, this`nextCall
      ensures View() == SendTo(old(View()), id, call)
    {
      if id in rows {
        var row := rows[id];
        if row.kind.Sale? {
          wire := wire + {SaleRequestOf(id, row)};
          Await(call);
        } else if row.parent.Some? && row.parent.value in rows {
          wire := wire + {RefundRequestOf(id, row, rows[row.parent.value])};
          Await(call);
        }
      }
    }

    /** Insert the outbox entry that commits with the row's new status. */
    method EnqueueOrder(id: TxnId)
      requires id in rows
      modifies fabric`entries
      ensures View() == Enqueued(old(View()), id)
    {
      fabric.Enqueue(id, BuildPayload(id, rows[id]));
    }

    method FindOpenSession(cashier: string) returns (found: Option<SessionId>)
      requires OneOpenPerCashier(sessions)
      ensures found == OpenSession(sessions, cashier)
    {
      if sid :| sid in sessions && IsOpenFor(sessions, sid, cashier) {
        found := Some(sid);
      } else {
        found := None;
      }
    }

    /** Not the service: Sentry takes a request off the wire, recording the first it sees with each key. */
    method SentryHandles(request: Request, soId: SoId)
      modifies this`orders
      ensures View() == SentryRecords(old(View()), request, soId)
    {
      if request !in wire || request.key in orders { return; }
      if exists k :: k in orders && orders[k].soId == soId { return; }
      orders := orders[request.key := Order(soId, request)];
    }

    /** Restart with other settings. */
    method Restart(settings: Config)
      modifies this`config, this`rates
      ensures View() == Reconfigure(old(View()), settings)
    {
      if !ValidRate(settings.rate) { return; }
      config, rates := settings, rates + {settings.rate};
    }

    /** Not the service: a call whose continuation never runs. */
    method Crash(c: nat)
      modifies this`calls
      ensures View() == DropCall(old(View()), c)
    {
      calls := calls - {c};
    }
  }
}
