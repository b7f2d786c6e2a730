/** The card poller's loop, which the sale and refund pollers share. */
module PollLoop {
  import opened PosTypes
  import Money

  predicate IsDone(reply: WindcaveReply) { reply.Answered? && reply.answer.complete }

  /** The number of status calls that fit before the deadline. */
  function MaxCalls(interval: int, deadline: int): nat
    requires 0 < interval
  {
    if deadline <= 0 then 0 else (deadline + interval - 1) / interval
  }

  /** Ask until the terminal is done or the deadline passes.  An error or an incomplete answer waits one interval.
      Times are in milliseconds. */
  method PollUntilComplete(interval: int, deadline: int, status: nat -> WindcaveReply)
    returns (final: Option<WindcaveAnswer>, calls: nat)
    requires 0 < interval
    ensures calls <= MaxCalls(interval, deadline)
    ensures 0 < calls ==> interval * (calls - 1) < deadline
    ensures final.None? ==> deadline <= interval * calls
    ensures final.Some? <==> exists k :: 0 <= k < MaxCalls(interval, deadline) && IsDone(status(k))
    ensures final.Some? ==>
              0 < calls && status(calls - 1) == Answered(final.value) && final.value.complete
              && forall k :: 0 <= k < calls - 1 ==> !IsDone(status(k))
    ensures final.None? ==> calls == MaxCalls(interval, deadline)
  {
    var elapsed := 0;
    final, calls := None, 0;
    while elapsed < deadline
      invariant elapsed == interval * calls && calls <= MaxCalls(interval, deadline)
      invariant 0 < calls ==> interval * (calls - 1) < deadline
      invariant forall k :: 0 <= k < calls ==> !IsDone(status(k))
      invariant final.None?
      decreases deadline - elapsed
    {
      RoomForCall(interval, deadline, calls);
      var current := status(calls);
      calls := calls + 1;
      match current {
        case Unavailable =>
        case Answered(answer) =>
          if answer.complete {
            assert IsDone(status(calls - 1));
            return Some(answer), calls;
          }
      }
      elapsed := elapsed + interval;
    }
    NoRoomForCall(interval, deadline, calls);
  }

  lemma RoomForCall(interval: int, deadline: int, calls: nat)
    requires 0 < interval && interval * calls < deadline
    ensures calls + 1 <= MaxCalls(interval, deadline)
    ensures interval * (calls + 1) == interval * calls + interval
  {
    Money.DivMod(deadline + interval - 1, interval);
    Money.Scale((deadline + interval - 1) / interval, calls + 1, interval);
  }

  lemma NoRoomForCall(interval: int, deadline: int, calls: nat)
    requires 0 < interval && deadline <= interval * calls
    ensures MaxCalls(interval, deadline) <= calls
  {
    Money.DivMod(deadline + interval - 1, interval);
    Money.Scale(calls, (deadline + interval - 1) / interval, interval);
  }
}
