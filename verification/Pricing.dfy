/** The price table and its two writers, the CSV import and the Fabric sync.  A file is the list of records the CSV
    reader yields; the text of a price is read by a parameter, an exact fraction when it is a finite decimal. */
module Pricing {
  import opened PosTypes
  import opened Money

  const REJECTED_LINES_CAP: nat := 100
  const UPSERT_BATCH_SIZE: nat := 1000

  type Row = seq<string>
  type Prices = map<string, int>
  /** A finite decimal, as an exact fraction. */
  type Decimal = price: Rate | ValidRate(price) witness Rate(0, 1)
  type Reader = string -> Option<Decimal>

  datatype Reason = MissingColumns | EmptySku | PriceNotNumeric | PriceNegative
  datatype Verdict = Import(sku: string, cents: int) | Reject(reason: Reason)
  datatype RejectedLine = RejectedLine(row: nat, raw: string, reason: Reason)
  datatype Write = Write(sku: string, cents: int)
  datatype Numbered = Numbered(number: nat, row: Row)

  // ---- reading a file ----

  /** What Python's `str.strip` removes. */
  predicate IsSpace(c: char) {
    var n := c as int;
    || 0x9 <= n <= 0xD || 0x1C <= n <= 0x20 || n in {0x85, 0xA0, 0x1680, 0x2028, 0x2029, 0x202F, 0x205F, 0x3000}
    || 0x2000 <= n <= 0x200A
  }

  function StripLeft(s: string): string {
    if s != "" && IsSpace(s[0]) then StripLeft(s[1..]) else s
  }

  function StripRight(s: string): string {
    if s != "" && IsSpace(s[|s| - 1]) then StripRight(s[..|s| - 1]) else s
  }

  function Strip(s: string): string { StripRight(StripLeft(s)) }

  /** Stripping keeps the middle: only white space goes, and none is left at either end. */
  lemma {:induction false} StripKeepsTheMiddle(s: string) returns (i: nat, j: nat)
    ensures i <= j <= |s| && Strip(s) == s[i..j]
    ensures forall k :: 0 <= k < i || j <= k < |s| ==> IsSpace(s[k])
    ensures Strip(s) != "" ==> !IsSpace(s[i]) && !IsSpace(s[j - 1])
    ensures Strip(s) == "" <==> forall k :: 0 <= k < |s| ==> IsSpace(s[k])
  {
    hide IsSpace;
    i := StripLeftDrops(s);
    var n := StripRightDrops(s[i..]);
    j := i + n;
    assert s[i..][..n] == s[i..j];
  }

  lemma {:induction false} StripLeftDrops(s: string) returns (i: nat)
    ensures i <= |s| && StripLeft(s) == s[i..] && (i < |s| ==> !IsSpace(s[i]))
    ensures forall k :: 0 <= k < i ==> IsSpace(s[k])
  {
    hide IsSpace;
    if s != "" && IsSpace(s[0]) {
      var n := StripLeftDrops(s[1..]);
      i := n + 1;
      assert s[1..][n..] == s[i..];
      forall k | 0 <= k < i ensures IsSpace(s[k]) {
        if k > 0 { assert s[k] == s[1..][k - 1]; }
      }
    } else {
      i := 0;
    }
  }

  lemma {:induction false} StripRightDrops(s: string) returns (n: nat)
    ensures n <= |s| && StripRight(s) == s[..n] && (n > 0 ==> !IsSpace(s[n - 1]))
    ensures forall k :: n <= k < |s| ==> IsSpace(s[k])
  {
    hide IsSpace;
    if s != "" && IsSpace(s[|s| - 1]) {
      var front := s[..|s| - 1];
      n := StripRightDrops(front);
      assert front[..n] == s[..n];
      forall k | n <= k < |s| ensures IsSpace(s[k]) {
        if k < |s| - 1 { assert s[k] == front[k]; }
      }
    } else {
      n := |s|;
      assert s[..n] == s;
    }
  }

  /** `str.lower` as far as the header check can tell: only A-Z and the Kelvin sign lower to a letter of `sku,price`. */
  function Lower(s: string): string {
    seq(|s|, i requires 0 <= i < |s| =>
      if 'A' <= s[i] <= 'Z' then s[i] + 32 as char else if s[i] == '\U{212A}' then 'k' else s[i])
  }

  predicate HeaderOk(header: Row) {
    |header| == 2 && Lower(Strip(header[0])) == "sku" && Lower(Strip(header[1])) == "price"
  }

  /** A cell that reads `word` in lower case, whatever the case it is written in. */
  predicate Reads(cell: string, word: string) {
    && |cell| == |word|
    && forall i :: 0 <= i < |word| ==>
         || cell[i] == word[i]
         || (word[i] == 'k' && cell[i] == '\U{212A}')
         || ('A' <= cell[i] <= 'Z' && word[i] as int == cell[i] as int + 32)
  }

  /** The header is accepted exactly when it has the two cells `sku` and `price`, in any case and spacing. */
  lemma HeaderAccepted(header: Row)
    ensures HeaderOk(header)
       <==> |header| == 2 && Reads(Strip(header[0]), "sku") && Reads(Strip(header[1]), "price")
  {
    hide Strip;
    if |header| == 2 {
      LowerReads(Strip(header[0]), "sku");
      LowerReads(Strip(header[1]), "price");
    }
  }

  lemma LowerReads(cell: string, word: string)
    requires forall i :: 0 <= i < |word| ==> 'a' <= word[i] <= 'z'
    ensures Lower(cell) == word <==> Reads(cell, word)
  {
    if Lower(cell) == word {
      forall i | 0 <= i < |word|
        ensures cell[i] == word[i] || (word[i] == 'k' && cell[i] == '\U{212A}')
                || ('A' <= cell[i] <= 'Z' && word[i] as int == cell[i] as int + 32)
      {
        assert Lower(cell)[i] == word[i];
      }
    }
    if Reads(cell, word) {
      forall i | 0 <= i < |word| ensures Lower(cell)[i] == word[i] {
      }
    }
  }

  predicate BlankRow(row: Row) {
    forall i :: 0 <= i < |row| ==> Strip(row[i]) == ""
  }

  /** The non-blank records after the header, numbered from 2. */
  function DataRows(rows: seq<Row>, first: nat): seq<Numbered> {
    if rows == [] then []
    else (if BlankRow(rows[0]) then [] else [Numbered(first, rows[0])]) + DataRows(rows[1..], first + 1)
  }

  function Classify(row: Row, read: Reader): Verdict {
    if |row| < 2 then Reject(MissingColumns)
    else if Strip(row[0]) == "" then Reject(EmptySku)
    else
      match read(Strip(row[1]))
      case None => Reject(PriceNotNumeric)
      case Some(price) =>
        if price.num < 0 then Reject(PriceNegative)
        else Import(Strip(row[0]), RoundHalfUp(100 * price.num, price.den))
  }

  function Join(row: Row): string {
    if row == [] then "" else if |row| == 1 then row[0] else row[0] + "," + Join(row[1..])
  }

  /** Joining another cell on puts a comma before it. */
  lemma {:induction false} JoinAnother(row: Row, cell: string)
    ensures Join([cell]) == cell
    ensures row != [] ==> Join(row + [cell]) == Join(row) + "," + cell
  {
    if |row| > 1 {
      assert (row + [cell])[1..] == row[1..] + [cell];
      JoinAnother(row[1..], cell);
      assert Join(row + [cell]) == row[0] + "," + Join(row[1..] + [cell]);
    } else if |row| == 1 {
      assert (row + [cell])[1..] == [cell];
    }
  }

  /** The row can be imported: a SKU, and a readable price that is not negative. */
  predicate Importable(row: Row, read: Reader) {
    && 2 <= |row| && (exists i :: 0 <= i < |row[0]| && !IsSpace(row[0][i]))
    && read(Strip(row[1])).Some? && 0 <= read(Strip(row[1])).value.num
  }

  /** The write it makes: the first cell without the space around it, at the whole number of cents nearest the price,
      an exact half going up. */
  predicate WritesRow(write: Write, row: Row, read: Reader)
    requires Importable(row, read)
  {
    var price := read(Strip(row[1])).value;
    && write.sku == Strip(row[0]) && Near(100 * price.num, price.den, write.cents)
    && 2 * (write.cents * price.den - 100 * price.num) != -price.den && 0 <= write.cents
  }

  /** Why a row is rejected: the first of the four objections that applies. */
  predicate RejectedFor(row: Row, read: Reader, reason: Reason) {
    match reason
    case MissingColumns => |row| < 2
    case EmptySku => 2 <= |row| && forall i :: 0 <= i < |row[0]| ==> IsSpace(row[0][i])
    case PriceNotNumeric => 2 <= |row| && !(forall i :: 0 <= i < |row[0]| ==> IsSpace(row[0][i]))
                            && read(Strip(row[1])).None?
    case PriceNegative => 2 <= |row| && !(forall i :: 0 <= i < |row[0]| ==> IsSpace(row[0][i]))
                          && read(Strip(row[1])).Some? && read(Strip(row[1])).value.num < 0
  }

  /** A row is imported exactly when it can be, with the write it makes; else it is rejected for the reason that
      applies, of which there is exactly one. */
  lemma ClassifiedExactly(row: Row, read: Reader)
    ensures Classify(row, read).Import? <==> Importable(row, read)
    ensures Importable(row, read) ==>
              WritesRow(Write(Classify(row, read).sku, Classify(row, read).cents), row, read)
    ensures forall reason :: Classify(row, read) == Reject(reason) <==> RejectedFor(row, read, reason)
  {
    hide IsSpace, Strip, Near, RoundHalfUp;
    if 2 <= |row| {
      var _, _ := StripKeepsTheMiddle(row[0]);
    }
    if Classify(row, read).Import? {
      ImportedCents(row, read);
    }
  }

  function Writes(rows: seq<Numbered>, read: Reader): seq<Write> {
    if rows == [] then []
    else
      var before := Writes(rows[..|rows| - 1], read);
      match Classify(rows[|rows| - 1].row, read)
      case Import(sku, cents) => before + [Write(sku, cents)]
      case Reject(_) => before
  }

  function Rejections(rows: seq<Numbered>, read: Reader): seq<RejectedLine> {
    if rows == [] then []
    else
      var before := Rejections(rows[..|rows| - 1], read);
      var last := rows[|rows| - 1];
      match Classify(last.row, read)
      case Import(_, _) => before
      case Reject(reason) => before + [RejectedLine(last.number, Join(last.row), reason)]
  }

  /** Every data row appears exactly once, in file order, in one of the two lists: with w rows before row k imported, an
      importable row is write w, for its SKU at its price, and any other is rejection k - w, under its own number and
      text and for its own reason. */
  lemma {:induction false} RowsPartitioned(rows: seq<Numbered>, read: Reader, k: nat)
    requires k < |rows|
    ensures |Writes(rows, read)| + |Rejections(rows, read)| == |rows|
    ensures var w, row := |Writes(rows[..k], read)|, rows[k].row;
            if Importable(row, read) then
              w < |Writes(rows, read)| && WritesRow(Writes(rows, read)[w], row, read)
            else
              && w <= k && k - w < |Rejections(rows, read)|
              && var line := Rejections(rows, read)[k - w];
                 line.row == rows[k].number && line.raw == Join(row) && RejectedFor(row, read, line.reason)
  {
    hide Classify, Join, Importable, RejectedFor, WritesRow;
    var last := |rows| - 1;
    Counted(rows[..last], read);
    ClassifiedExactly(rows[k].row, read);
    if k < last {
      RowsPartitioned(rows[..last], read, k);
      assert rows[..last][..k] == rows[..k];
    }
  }

  lemma {:induction false} Counted(rows: seq<Numbered>, read: Reader)
    ensures |Writes(rows, read)| + |Rejections(rows, read)| == |rows|
  {
    if rows != [] {
      Counted(rows[..|rows| - 1], read);
    }
  }

  /** Some cell holds something other than white space. */
  predicate HasText(row: Row) {
    exists i, j :: 0 <= i < |row| && 0 <= j < |row[i]| && !IsSpace(row[i][j])
  }

  lemma BlankRowsHaveNoText(row: Row)
    ensures BlankRow(row) <==> !HasText(row)
  {
    hide Strip, IsSpace;
    forall i | 0 <= i < |row|
      ensures Strip(row[i]) == "" <==> forall j :: 0 <= j < |row[i]| ==> IsSpace(row[i][j])
    {
      var _, _ := StripKeepsTheMiddle(row[i]);
    }
  }

  /** The data rows are exactly the records with some text, each under its own record number. */
  lemma {:induction false} DataRowsAreTheNonBlank(rows: seq<Row>, first: nat, n: nat, row: Row)
    ensures Numbered(n, row) in DataRows(rows, first)
       <==> first <= n < first + |rows| && rows[n - first] == row && HasText(row)
  {
    hide BlankRow, HasText;
    BlankRowsHaveNoText(row);
    if rows != [] {
      var rest := DataRows(rows[1..], first + 1);
      DataRowsAreTheNonBlank(rows[1..], first + 1, n, row);
      if n == first {
        assert Numbered(n, row) !in rest;
      } else {
        assert Numbered(n, row) in DataRows(rows, first) <==> Numbered(n, row) in rest;
        if first < n < first + |rows| {
          assert rows[1..][n - first - 1] == rows[n - first];
        }
      }
    }
  }

  lemma {:induction false} DataRowsInOrder(rows: seq<Row>, first: nat, i: nat, j: nat)
    requires i < j < |DataRows(rows, first)|
    ensures DataRows(rows, first)[i].number < DataRows(rows, first)[j].number
  {
    var rest := DataRows(rows[1..], first + 1);
    if BlankRow(rows[0]) {
      DataRowsInOrder(rows[1..], first + 1, i, j);
    } else if i == 0 {
      var next := rest[j - 1];
      DataRowsAreTheNonBlank(rows[1..], first + 1, next.number, next.row);
    } else {
      DataRowsInOrder(rows[1..], first + 1, i - 1, j - 1);
    }
  }

  /** An imported price is never negative and is the whole number of cents nearest the price read, an exact half
      going up. */
  lemma ImportedCents(row: Row, read: Reader)
    requires Classify(row, read).Import?
    ensures var price := read(Strip(row[1])).value;
            var cents := Classify(row, read).cents;
            && 0 <= cents && Near(100 * price.num, price.den, cents)
            && 2 * (cents * price.den - 100 * price.num) != -price.den
  {
    var price := read(Strip(row[1])).value;
    HalfUpCharacterised(100 * price.num, price.den, Classify(row, read).cents);
  }

  // ---- writing the table ----

  /** One row at a time, in order: the simple form both writers refine. */
  function Put(prices: Prices, writes: seq<Write>): Prices
    decreases |writes|
  {
    if writes == [] then prices else Put(prices[writes[0].sku := writes[0].cents], writes[1..])
  }

  lemma {:induction false} PutConcat(prices: Prices, ws: seq<Write>, vs: seq<Write>)
    ensures Put(prices, ws + vs) == Put(Put(prices, ws), vs)
    decreases |ws|
  {
    if ws == [] {
      assert ws + vs == vs;
    } else {
      assert (ws + vs)[1..] == ws[1..] + vs;
      PutConcat(prices[ws[0].sku := ws[0].cents], ws[1..], vs);
    }
  }

  /** `k` is the last write to a SKU. */
  predicate LastWrite(writes: seq<Write>, sku: string, k: nat) {
    k < |writes| && writes[k].sku == sku && forall j :: k < j < |writes| ==> writes[j].sku != sku
  }

  predicate Touched(writes: seq<Write>, sku: string) {
    exists k :: 0 <= k < |writes| && writes[k].sku == sku
  }

  /** Last write wins: a SKU holds what the last write to it said, or what it held before if there was none. */
  lemma {:induction false} LastWriteWins(prices: Prices, writes: seq<Write>, sku: string)
    ensures Touched(writes, sku) ==>
              exists k: nat :: LastWrite(writes, sku, k) && sku in Put(prices, writes)
                          && Put(prices, writes)[sku] == writes[k].cents
    ensures !Touched(writes, sku) ==>
              (sku in Put(prices, writes) <==> sku in prices)
              && (sku in prices ==> Put(prices, writes)[sku] == prices[sku])
  {
    if writes != [] {
      var last := |writes| - 1;
      var front := writes[..last];
      assert writes == front + [writes[last]];
      PutConcat(prices, front, [writes[last]]);
      assert [writes[last]][1..] == [];
      assert Put(prices, writes) == Put(prices, front)[writes[last].sku := writes[last].cents];
      if writes[last].sku == sku {
        assert LastWrite(writes, sku, last);
      } else {
        LastWriteWins(prices, front, sku);
        if Touched(front, sku) {
          var k: nat :| LastWrite(front, sku, k) && Put(prices, front)[sku] == front[k].cents;
          assert LastWrite(writes, sku, k);
        }
        assert Touched(writes, sku) ==> Touched(front, sku);
        assert Touched(front, sku) ==> Touched(writes, sku);
      }
    }
  }

  /** Row `k` sets the price of a SKU, and no later row does. */
  ghost predicate SetsLast(data: seq<Numbered>, read: Reader, sku: string, k: nat) {
    && k < |data| && Importable(data[k].row, read) && Strip(data[k].row[0]) == sku
    && forall j :: k < j < |data| && Importable(data[j].row, read) ==> Strip(data[j].row[0]) != sku
  }

  ghost predicate NoRowSets(data: seq<Numbered>, read: Reader, sku: string) {
    forall j :: 0 <= j < |data| && Importable(data[j].row, read) ==> Strip(data[j].row[0]) != sku
  }

  /** What a file does to the table: a SKU gets the price of the last row that can be imported for it, and one with no
      such row keeps what it had. */
  lemma {:induction false} FileSetsPrices(before: Prices, data: seq<Numbered>, read: Reader, sku: string)
    ensures NoRowSets(data, read, sku) ==>
              (sku in Put(before, Writes(data, read)) <==> sku in before)
              && (sku in before ==> Put(before, Writes(data, read))[sku] == before[sku])
    ensures forall k: nat :: SetsLast(data, read, sku, k) ==>
              sku in Put(before, Writes(data, read))
              && WritesRow(Write(sku, Put(before, Writes(data, read))[sku]), data[k].row, read)
  {
    hide Put, Writes, WritesRow, Importable, Strip, SetsLast, NoRowSets;
    if data == [] {
      NothingWritten(before, read, sku);
    } else {
      var front := data[..|data| - 1];
      FileSetsPrices(before, front, read, sku);
      var touched, cents := LastRowPut(before, data, read);
      if touched == Some(sku) {
        OnlyTheLastSets(data, read, sku);
      } else {
        SetsLastInFront(data, read, sku);
      }
    }
  }

  lemma NothingWritten(before: Prices, read: Reader, sku: string)
    ensures Put(before, Writes([], read)) == before
    ensures forall k: nat :: !SetsLast([], read, sku, k)
  {
  }

  /** The SKU a row can be imported for, if it can be. */
  function SkuOf(row: Row, read: Reader): Option<string> {
    if Importable(row, read) then Some(Strip(row[0])) else None
  }

  lemma OnlyTheLastSets(data: seq<Numbered>, read: Reader, sku: string)
    requires data != [] && SkuOf(data[|data| - 1].row, read) == Some(sku)
    ensures !NoRowSets(data, read, sku)
    ensures forall k: nat :: SetsLast(data, read, sku, k) ==> k == |data| - 1
  {
    hide Strip, IsSpace;
  }

  lemma SetsLastInFront(data: seq<Numbered>, read: Reader, sku: string)
    requires data != [] && SkuOf(data[|data| - 1].row, read) != Some(sku)
    ensures var front := data[..|data| - 1];
            && (NoRowSets(data, read, sku) ==> NoRowSets(front, read, sku))
            && forall k: nat :: SetsLast(data, read, sku, k) ==>
                 k < |front| && SetsLast(front, read, sku, k) && data[k] == front[k]
  {
    hide Strip, IsSpace;
  }

  lemma LastRowPut(before: Prices, data: seq<Numbered>, read: Reader) returns (touched: Option<string>, cents: int)
    requires data != []
    ensures touched == SkuOf(data[|data| - 1].row, read)
    ensures var table := Put(before, Writes(data[..|data| - 1], read));
            Put(before, Writes(data, read)) == if touched.Some? then table[touched.value := cents] else table
    ensures touched.Some? ==>
              Importable(data[|data| - 1].row, read)
              && WritesRow(Write(touched.value, cents), data[|data| - 1].row, read)
  {
    hide Classify, Strip, IsSpace, Near;
    var row := data[|data| - 1].row;
    ClassifiedExactly(row, read);
    touched, cents := SkuOf(row, read), 0;
    match Classify(row, read) {
      case Reject(_) =>
      case Import(sku, price) =>
        cents := price;
        var writes := Writes(data[..|data| - 1], read);
        PutConcat(before, writes, [Write(sku, cents)]);
        assert [Write(sku, cents)][1..] == [];
    }
  }

  function Flat(batches: seq<seq<Write>>): seq<Write> {
    if batches == [] then [] else batches[0] + Flat(batches[1..])
  }

  function PutBatches(prices: Prices, batches: seq<seq<Write>>): Prices
    decreases |batches|
  {
    if batches == [] then prices else PutBatches(Put(prices, batches[0]), batches[1..])
  }

  /** Where the batch boundaries fall does not matter. */
  lemma {:induction false} BatchBoundariesDoNotMatter(prices: Prices, batches: seq<seq<Write>>)
    ensures PutBatches(prices, batches) == Put(prices, Flat(batches))
    decreases |batches|
  {
    if batches != [] {
      BatchBoundariesDoNotMatter(Put(prices, batches[0]), batches[1..]);
      PutConcat(prices, batches[0], Flat(batches[1..]));
    }
  }

  // ---- any sequence of imports and syncs ----

  datatype Source =
    | CsvFile(file: seq<Row>, filename: string, importedBy: string, maxRows: int)
    | FabricAnswer(answer: Option<seq<Write>>)

  datatype ImportError = BadHeader | TooManyRows(count: nat)

  function Refusal(file: seq<Row>, maxRows: int): Option<ImportError> {
    if file == [] || !HeaderOk(file[0]) then Some(BadHeader)
    else if |DataRows(file[1..], 2)| > maxRows then Some(TooManyRows(|DataRows(file[1..], 2)|))
    else None
  }

  /** The valid writes a source carries, in order. */
  function WritesOf(source: Source, read: Reader): seq<Write> {
    match source
    case CsvFile(file, _, _, maxRows) =>
      if Refusal(file, maxRows).Some? then [] else Writes(DataRows(file[1..], 2), read)
    case FabricAnswer(answer) => if answer.None? then [] else answer.value
  }

  function AllWrites(sources: seq<Source>, read: Reader): seq<Write> {
    if sources == [] then [] else AllWrites(sources[..|sources| - 1], read) + WritesOf(sources[|sources| - 1], read)
  }

  function Run(prices: Prices, sources: seq<Source>, read: Reader): Prices {
    if sources == [] then prices
    else Put(Run(prices, sources[..|sources| - 1], read), WritesOf(sources[|sources| - 1], read))
  }

  lemma {:induction false} RunIsOneFold(prices: Prices, sources: seq<Source>, read: Reader)
    ensures Run(prices, sources, read) == Put(prices, AllWrites(sources, read))
  {
    if sources != [] {
      var front := sources[..|sources| - 1];
      RunIsOneFold(prices, front, read);
      PutConcat(prices, AllWrites(front, read), WritesOf(sources[|sources| - 1], read));
    }
  }

  /** After any sequence of imports and syncs, every SKU holds what the most recent valid write to it said, whichever
      writer made it. */
  lemma MostRecentWriterWins(prices: Prices, sources: seq<Source>, read: Reader, sku: string)
    ensures var table, writes := Run(prices, sources, read), AllWrites(sources, read);
            if Touched(writes, sku)
            then exists k: nat :: LastWrite(writes, sku, k) && sku in table && table[sku] == writes[k].cents
            else (sku in table <==> sku in prices) && (sku in prices ==> table[sku] == prices[sku])
  {
    RunIsOneFold(prices, sources, read);
    LastWriteWins(prices, AllWrites(sources, read), sku);
  }
}

/** The two writers as they run: loops over records, rows and batches against one table. */
module PriceService {
  import opened PosTypes
  import opened Pricing

  datatype ImportAudit = ImportAudit(filename: string, rowsImported: nat, rowsRejected: nat,
                                     rejectedLines: seq<RejectedLine>, importedBy: string)
  datatype ImportResult = Refused(error: ImportError) | Done(audit: ImportAudit, importId: nat)
  datatype SyncResult = SyncResult(rowsFetched: nat, rowsUpserted: nat, failed: bool)

  method CollectRows(rows: seq<Row>) returns (data: seq<Numbered>)
    ensures data == DataRows(rows, 2)
  {
    data := [];
    var i := 0;
    while i < |rows|
      invariant 0 <= i <= |rows|
      invariant data + DataRows(rows[i..], 2 + i) == DataRows(rows, 2)
    {
      assert rows[i..][1..] == rows[i + 1..];
      if !BlankRow(rows[i]) {
        data := data + [Numbered(2 + i, rows[i])];
      }
      i := i + 1;
    }
  }

  method ClassifyRows(data: seq<Numbered>, read: Reader) returns (upserts: seq<Write>, rejected: seq<RejectedLine>)
    ensures upserts == Writes(data, read) && rejected == Rejections(data, read)
  {
    upserts, rejected := [], [];
    var i := 0;
    while i < |data|
      invariant 0 <= i <= |data|
      invariant upserts == Writes(data[..i], read) && rejected == Rejections(data[..i], read)
    {
      assert data[..i + 1][..i] == data[..i];
      match Classify(data[i].row, read) {
        case Import(sku, cents) => upserts := upserts + [Write(sku, cents)];
        case Reject(reason) => rejected := rejected + [RejectedLine(data[i].number, Join(data[i].row), reason)];
      }
      i := i + 1;
    }
    assert data[..i] == data;
  }

  class PriceTable {
    var prices: Prices
    var imports: seq<ImportAudit>

    constructor ()
      ensures prices == map[] && imports == []
    {
      prices, imports := map[], [];
    }

    /** One multi-row upsert statement: rows take effect in order, a repeated SKU overwriting itself. */
    method Upsert(batch: seq<Write>)
      modifies this`prices
      ensures prices == Put(old(prices), batch)
    {
      var i := 0;
      while i < |batch|
        invariant 0 <= i <= |batch|
        invariant Put(prices, batch[i..]) == Put(old(prices), batch)
      {
        assert batch[i..][1..] == batch[i + 1..];
        prices := prices[batch[i].sku := batch[i].cents];
        i := i + 1;
      }
    }

    /** A refused file changes nothing.  An accepted one writes its valid rows and records an audit whose counts add
        up to its data rows. */
    method ImportCsv(file: seq<Row>, filename: string, importedBy: string, maxRows: int, read: Reader)
      returns (r: ImportResult)
      modifies this
      ensures prices == Put(old(prices), WritesOf(CsvFile(file, filename, importedBy, maxRows), read))
      ensures r.Refused? <==> Refusal(file, maxRows).Some?
      ensures r.Refused? ==> prices == old(prices) && imports == old(imports)
      ensures r == Refused(BadHeader) <==>
                !(file != [] && |file[0]| == 2 && Reads(Strip(file[0][0]), "sku") && Reads(Strip(file[0][1]), "price"))
      ensures forall n: nat :: r == Refused(TooManyRows(n)) <==>
                r != Refused(BadHeader) && n == |DataRows(file[1..], 2)| && n > maxRows
      ensures r.Done? ==> imports == old(imports) + [r.audit] && r.importId == |imports|
                          && r.audit.filename == filename && r.audit.importedBy == importedBy
                          && r.audit.rowsImported + r.audit.rowsRejected == |DataRows(file[1..], 2)| <= maxRows
                          && r.audit.rowsImported == |Writes(DataRows(file[1..], 2), read)|
                          && r.audit.rejectedLines <= Rejections(DataRows(file[1..], 2), read)
                          && |r.audit.rejectedLines| == if r.audit.rowsRejected < 100 then r.audit.rowsRejected else 100
      ensures r.Done? ==>
                && (forall sku :: NoRowSets(DataRows(file[1..], 2), read, sku) ==>
                      (sku in prices <==> sku in old(prices)) && (sku in prices ==> prices[sku] == old(prices)[sku]))
                && (forall sku, k: nat :: SetsLast(DataRows(file[1..], 2), read, sku, k) ==>
                      sku in prices && WritesRow(Write(sku, prices[sku]), DataRows(file[1..], 2)[k].row, read))
    {
      if file != [] { HeaderAccepted(file[0]); }
      hide Reads, HeaderOk, Strip, Importable, WritesRow, Put, NoRowSets;
      if file == [] || !HeaderOk(file[0]) { return Refused(BadHeader); }
      var data := CollectRows(file[1..]);
      if |data| > maxRows { return Refused(TooManyRows(|data|)); }
      var upserts, rejected := ClassifyRows(data, read);
      if upserts != [] {
        Upsert(upserts);
      }
      Counted(data, read);
      var capped := if |rejected| <= REJECTED_LINES_CAP then rejected else rejected[..REJECTED_LINES_CAP];
      var audit := ImportAudit(filename, |upserts|, |rejected|, capped, importedBy);
      imports := imports + [audit];
      r := Done(audit, |imports|);
      forall sku {
        FileSetsPrices(old(prices), data, read, sku);
      }
    }

    /** A failed or empty fetch changes nothing; otherwise the whole catalogue is written, a batch at a time. */
    method SyncOnce(answer: Option<seq<Write>>) returns (r: SyncResult)
      modifies this`prices
      ensures prices == if answer.None? then old(prices) else Put(old(prices), answer.value)
      ensures answer.None? ==> r == SyncResult(0, 0, true)
      ensures answer.Some? ==> r == SyncResult(|answer.value|, |answer.value|, false)
    {
      if answer.None? { return SyncResult(0, 0, true); }
      if answer.value == [] { return SyncResult(0, 0, false); }
      var rows := answer.value;
      var i := 0;
      while i < |rows|
        invariant 0 <= i <= |rows|
        invariant prices == Put(old(prices), rows[..i])
      {
        var end := if i + UPSERT_BATCH_SIZE <= |rows| then i + UPSERT_BATCH_SIZE else |rows|;
        Upsert(rows[i..end]);
        PutConcat(old(prices), rows[..i], rows[i..end]);
        assert rows[..end] == rows[..i] + rows[i..end];
        i := end;
      }
      assert rows[..i] == rows;
      r := SyncResult(|rows|, |rows|, false);
    }
  }

  /** Feeding a table any sequence of imports and syncs leaves exactly what the one-row-at-a-time fold leaves. */
  method Feed(table: PriceTable, sources: seq<Source>, read: Reader)
    modifies table
    ensures table.prices == Put(old(table.prices), AllWrites(sources, read))
  {
    var i := 0;
    while i < |sources|
      invariant 0 <= i <= |sources|
      invariant table.prices == Run(old(table.prices), sources[..i], read)
    {
      assert sources[..i + 1][..i] == sources[..i];
      match sources[i] {
        case CsvFile(file, filename, importedBy, maxRows) =>
          var _ := table.ImportCsv(file, filename, importedBy, maxRows, read);
        case FabricAnswer(answer) =>
          var _ := table.SyncOnce(answer);
      }
      i := i + 1;
    }
    assert sources[..i] == sources;
    RunIsOneFold(old(table.prices), sources, read);
  }
}
