/** From CSV records to a fresh payout database. */
module Import {
  import opened Wrappers
  import opened Money
  import opened Tables
  import opened Protocol
  import opened Audit
  import opened Database
  import Ledger

  datatype Row = Row(line: int, address: Address, usd: Decimal)

  datatype ParseError =
    | WrongNumberOfFields(line: nat)
    | InvalidHeader(line: nat)
    | InvalidAddress(line: nat)
    | InvalidAmount(line: nat)

  /** How the text of a field is read; None is a field that cannot be read. */
  datatype Readers = Readers(address: string -> Option<Address>, amount: string -> Option<Decimal>)

  /** The CSV reader never returns a record without fields. */
  predicate AllNonEmpty(records: seq<seq<string>>) {
    forall i :: 0 <= i < |records| ==> |records[i]| > 0
  }

  predicate IsSkipped(record: seq<string>)
    requires |record| > 0
  {
    record[0] == "" || record[0][0] == '#'
  }

  /** The header is accepted if either of its two fields is right. */
  predicate IsHeader(record: seq<string>)
    requires |record| == 2
  {
    record[0] == "addr" || record[1] == "usdAmnt" || record[1] == "amnt"
  }

  predicate IsData(record: seq<string>, readers: Readers)
    requires |record| == 2
  {
    && readers.address(record[0]).Some?
    && readers.amount(record[1]).Some? && readers.amount(record[1]).value.coef > 0
  }

  /** The first record that is neither empty nor a comment. */
  predicate IsFirst(records: seq<seq<string>>, i: nat)
    requires i < |records| && AllNonEmpty(records)
  {
    !IsSkipped(records[i]) && forall j :: 0 <= j < i ==> IsSkipped(records[j])
  }

  /** A record the parser stops at. */
  predicate IsBad(records: seq<seq<string>>, readers: Readers, i: nat)
    requires i < |records| && AllNonEmpty(records)
  {
    && !IsSkipped(records[i])
    && (|records[i]| != 2 || if IsFirst(records, i) then !IsHeader(records[i]) else !IsData(records[i], readers))
  }

  predicate IsRowOf(row: Row, records: seq<seq<string>>, readers: Readers, i: nat)
    requires i < |records|
  {
    && row.line == i + 1 && |records[i]| == 2
    && readers.address(records[i][0]) == Some(row.address)
    && readers.amount(records[i][1]) == Some(row.usd)
  }

  /** Row k comes from a data record, and rows come in record order. */
  predicate RowsAreData(rows: seq<Row>, records: seq<seq<string>>, readers: Readers)
  {
    && (forall k :: 0 <= k < |rows| ==>
          && 0 < rows[k].line <= |records| && rows[k].usd.coef > 0
          && IsRowOf(rows[k], records, readers, rows[k].line - 1))
    && (forall j, k :: 0 <= j < k < |rows| ==> rows[j].line < rows[k].line)
  }

  predicate HasLine(rows: seq<Row>, line: int) {
    exists k :: 0 <= k < |rows| && rows[k].line == line
  }

  /**
    The record loop.  It fails iff some record is bad, at the first one; otherwise the rows are
    exactly the data records after the header, numbered by record.
    */
  method Parse(records: seq<seq<string>>, readers: Readers) returns (r: Result<seq<Row>, ParseError>)
    requires AllNonEmpty(records)
    ensures r.Err? ==> && 0 < r.error.line <= |records| && IsBad(records, readers, r.error.line - 1)
                       && forall j :: 0 <= j < r.error.line - 1 ==> !IsBad(records, readers, j)
    ensures r.Ok? ==> && RowsAreData(r.value, records, readers)
                      && forall i :: 0 <= i < |records| ==>
                           && !IsBad(records, readers, i)
                           && (HasLine(r.value, i + 1) <==> !IsSkipped(records[i]) && !IsFirst(records, i))
  {
    hide ParsedSoFar, RowsAreData, IsData, HasLine, IsHeader, IsBad, IsFirst;
    var inHeader := true;
    var rows: seq<Row> := [];
    NothingParsed(records, readers);
    for i := 0 to |records|
      invariant ParsedSoFar(rows, records, readers, i, inHeader)
    {
      var record, line := records[i], i + 1;
      RecordKinds(rows, records, readers, i, inHeader);
      if record[0] == "" || record[0][0] == '#' {
        SkipRecord(rows, records, readers, i, inHeader);
        continue;
      }
      if |record| != 2 { return Err(WrongNumberOfFields(line)); }
      if inHeader {
        if record[0] != "addr" && !(record[1] == "usdAmnt" || record[1] == "amnt") {
          NotHeader(record);
          return Err(InvalidHeader(line));
        }
        Header(record);
        SkipRecord(rows, records, readers, i, inHeader);
        inHeader := false;
        continue;
      }
      var address, usd := readers.address(record[0]), readers.amount(record[1]);
      if address.None? || usd.None? || usd.value.coef <= 0 { NotData(record, readers); }
      if address.None? { return Err(InvalidAddress(line)); }
      if usd.None? { return Err(InvalidAmount(line)); }
      if usd.value.coef <= 0 { return Err(InvalidAmount(line)); }
      Data(record, readers);
      AddRecord(rows, records, readers, i, Row(line, address.value, usd.value));
      rows := rows + [Row(line, address.value, usd.value)];
    }
    AllParsed(rows, records, readers, inHeader);
    return Ok(rows);
  }

  /** The first i records were good, and rows holds their data. */
  predicate ParsedSoFar(rows: seq<Row>, records: seq<seq<string>>, readers: Readers, i: nat, inHeader: bool) {
    && i <= |records| && AllNonEmpty(records)
    && (inHeader <==> forall j :: 0 <= j < i ==> IsSkipped(records[j]))
    && RowsAreData(rows, records, readers) && (forall k :: 0 <= k < |rows| ==> rows[k].line <= i)
    && (forall j :: 0 <= j < i ==>
          !IsBad(records, readers, j) && (HasLine(rows, j + 1) <==> !IsSkipped(records[j]) && !IsFirst(records, j)))
  }

  lemma NothingParsed(records: seq<seq<string>>, readers: Readers)
    requires AllNonEmpty(records)
    ensures ParsedSoFar([], records, readers, 0, true)
  {}

  lemma AllParsed(rows: seq<Row>, records: seq<seq<string>>, readers: Readers, inHeader: bool)
    requires ParsedSoFar(rows, records, readers, |records|, inHeader)
    ensures RowsAreData(rows, records, readers)
    ensures forall j :: 0 <= j < |records| ==>
              !IsBad(records, readers, j) && (HasLine(rows, j + 1) <==> !IsSkipped(records[j]) && !IsFirst(records, j))
  {
    hide RowsAreData, IsBad, HasLine, IsSkipped, IsFirst;
  }

  /** When the next record is bad, and that none before it was. */
  lemma RecordKinds(rows: seq<Row>, records: seq<seq<string>>, readers: Readers, i: nat, inHeader: bool)
    requires ParsedSoFar(rows, records, readers, i, inHeader) && i < |records|
    ensures !IsSkipped(records[i]) ==> (IsFirst(records, i) <==> inHeader)
    ensures IsSkipped(records[i]) ==> !IsBad(records, readers, i)
    ensures !IsSkipped(records[i]) && |records[i]| != 2 ==> IsBad(records, readers, i)
    ensures !IsSkipped(records[i]) && |records[i]| == 2 ==>
              (IsBad(records, readers, i) <==> if inHeader then !IsHeader(records[i]) else !IsData(records[i], readers))
    ensures forall j :: 0 <= j < i ==> !IsBad(records, readers, j)
  {
    hide RowsAreData, HasLine, IsHeader, IsData, IsSkipped;
  }

  /** An empty record, a comment or the header adds no row. */
  lemma SkipRecord(rows: seq<Row>, records: seq<seq<string>>, readers: Readers, i: nat, inHeader: bool)
    requires ParsedSoFar(rows, records, readers, i, inHeader) && i < |records| && !IsBad(records, readers, i)
    requires IsSkipped(records[i]) || inHeader
    ensures ParsedSoFar(rows, records, readers, i + 1, inHeader && IsSkipped(records[i]))
  {
    hide RowsAreData, IsBad, IsSkipped;
    NoLineYet(rows, i);
    hide HasLine;
  }

  lemma AddRecord(rows: seq<Row>, records: seq<seq<string>>, readers: Readers, i: nat, row: Row)
    requires ParsedSoFar(rows, records, readers, i, false) && i < |records| && !IsBad(records, readers, i)
    requires !IsSkipped(records[i]) && row.line == i + 1 && row.usd.coef > 0 && IsRowOf(row, records, readers, i)
    ensures ParsedSoFar(rows + [row], records, readers, i + 1, false)
  {
    hide RowsAreData, IsBad, IsSkipped, HasLine;
    AppendRow(rows, records, readers, row);
  }

  lemma NotHeader(record: seq<string>)
    requires |record| == 2 && record[0] != "addr" && record[1] != "usdAmnt" && record[1] != "amnt"
    ensures !IsHeader(record)
  {}

  lemma Header(record: seq<string>)
    requires |record| == 2 && (record[0] == "addr" || record[1] == "usdAmnt" || record[1] == "amnt")
    ensures IsHeader(record)
  {}

  lemma NotData(record: seq<string>, readers: Readers)
    requires |record| == 2
    requires readers.address(record[0]).None? || readers.amount(record[1]).None?
               || readers.amount(record[1]).value.coef <= 0
    ensures !IsData(record, readers)
  {}

  lemma Data(record: seq<string>, readers: Readers)
    requires |record| == 2
    requires readers.address(record[0]).Some? && readers.amount(record[1]).Some?
               && readers.amount(record[1]).value.coef > 0
    ensures IsData(record, readers)
  {}

  lemma NoLineYet(rows: seq<Row>, i: nat)
    requires forall k :: 0 <= k < |rows| ==> rows[k].line <= i
    ensures !HasLine(rows, i + 1)
  {}

  lemma AppendRow(rows: seq<Row>, records: seq<seq<string>>, readers: Readers, row: Row)
    requires RowsAreData(rows, records, readers) && 0 < row.line <= |records| && row.usd.coef > 0
    requires IsRowOf(row, records, readers, row.line - 1)
    requires forall k :: 0 <= k < |rows| ==> rows[k].line < row.line
    ensures RowsAreData(rows + [row], records, readers)
    ensures forall line :: HasLine(rows + [row], line) <==> HasLine(rows, line) || line == row.line
  {
    var rows' := rows + [row];
    assert rows'[|rows|].line == row.line;
    forall line | HasLine(rows, line) ensures HasLine(rows', line) {
      var k :| 0 <= k < |rows| && rows[k].line == line;
      assert rows'[k].line == line;
    }
  }

  method FromCSV(rows: seq<Row>) returns (payouts: seq<Payout>)
    ensures payouts == PayoutsFrom(rows)
  {
    payouts := [];
    for i := 0 to |rows|
      invariant payouts == PayoutsFrom(rows)[..i]
    {
      payouts := payouts + [Payout(rows[i].line, rows[i].address, rows[i].usd, 0)];
    }
  }

  function PayoutsFrom(rows: seq<Row>): (r: seq<Payout>)
    ensures |r| == |rows| && forall i :: 0 <= i < |r| ==> r[i] == Payout(rows[i].line, rows[i].address, rows[i].usd, 0)
  {
    seq(|rows|, i requires 0 <= i < |rows| => Payout(rows[i].line, rows[i].address, rows[i].usd, 0))
  }

  /** The i-th payout becomes the only payout of group i + 1. */
  function OneGroupEach(payouts: seq<Payout>): (r: Tables)
    ensures |r.payouts| == |payouts| && r.txs == []
    ensures forall i :: 0 <= i < |payouts| ==> r.payouts[i] == payouts[i].(group := i + 1)
    ensures forall g :: g in r.finals <==> 1 <= g <= |payouts|
    ensures forall g <- r.finals :: r.finals[g] == None
  {
    Tables(seq(|payouts|, i requires 0 <= i < |payouts| => payouts[i].(group := i + 1)),
           NewGroups(|payouts|), [])
  }

  function NewGroups(n: nat): (m: map<int, Option<Hash>>)
    ensures forall g :: g in m <==> 1 <= g <= n
    ensures forall g <- m :: m[g] == None
  {
    if n == 0 then map[] else NewGroups(n - 1)[n := None]
  }

  method CreatePayoutGroups(db: DB, payouts: seq<Payout>) returns (ok: bool)
    requires db.State() == Tables([], map[], [])
    modifies db, db.faults
    ensures ok ==> db.State() == OneGroupEach(payouts)
    ensures db.faults.count == if ok then old(db.faults.count) else old(db.faults.count) + 1
  {
    for i := 0 to |payouts|
      invariant db.State() == OneGroupEach(payouts[..i]) && db.faults.count == old(db.faults.count)
    {
      ok := db.CreatePayoutGroup(i + 1, payouts[i..i + 1]);
      if !ok { return; }
      assert InGroup(payouts[i..i + 1], i + 1) == [payouts[i].(group := i + 1)];
    }
    assert payouts[..|payouts|] == payouts;
    ok := true;
  }

  // ---------------------------------------------------------------- right after the import

  lemma ParsedLinesDistinct(rows: seq<Row>, records: seq<seq<string>>, readers: Readers)
    requires RowsAreData(rows, records, readers)
    ensures DistinctLines(PayoutsFrom(rows)) && DistinctLines(OneGroupEach(PayoutsFrom(rows)).payouts)
  {}

  /** An imported database is where the protocol starts. */
  lemma ImportIsGenesis(rows: seq<Row>, records: seq<seq<string>>, readers: Readers, chain: Chain, now: nat)
    requires RowsAreData(rows, records, readers)
    requires chain.sent == {} && chain.mined == map[] && Ledger.Conserved(chain.ledger)
    ensures IsGenesis(Protocol.State(OneGroupEach(PayoutsFrom(rows)), chain, now))
  {}

  lemma {:induction false} SamePayoutsAgree(payouts: seq<Payout>, other: map<int, Payout>)
    requires forall i :: 0 <= i < |payouts| ==> AgreesWith(payouts[i], other)
    ensures Disputed(payouts, other) == {}
  {
    hide AgreesWith;
    if payouts != [] { SamePayoutsAgree(payouts[..|payouts| - 1], other); }
  }

  lemma SameLinesAgree(a: seq<Payout>, b: seq<Payout>)
    requires |a| == |b| && DistinctLines(b)
    requires forall i :: 0 <= i < |a| ==> a[i].line == b[i].line && a[i].payee == b[i].payee && a[i].usd == b[i].usd
    ensures Disputed(a, ByLine(b)) == {}
  {
    hide ByLine, Disputed, Value;
    forall i | 0 <= i < |a| ensures AgreesWith(a[i], ByLine(b)) { ByLineHas(b, i); }
    SamePayoutsAgree(a, ByLine(b));
  }

  lemma {:induction false} AllUnstarted(payouts: seq<Payout>, db: Tables, receipts: Hash -> NodeAnswer)
    requires db.txs == []
    ensures CountBucket(payouts, db, receipts, Unstarted) == |payouts|
  {
    if payouts != [] { AllUnstarted(payouts[..|payouts| - 1], db, receipts); }
  }

  /** Right after the import an audit finds no mismatch, and every payout unstarted. */
  lemma FreshImportAudits(rows: seq<Row>, records: seq<seq<string>>, readers: Readers, receipts: Hash -> NodeAnswer)
    requires RowsAreData(rows, records, readers)
    ensures var csvPayouts, db := PayoutsFrom(rows), OneGroupEach(PayoutsFrom(rows));
            && Disputed(csvPayouts, ByLine(db.payouts)) + Disputed(db.payouts, ByLine(csvPayouts)) == {}
            && CountBucket(db.payouts, db, receipts, Unstarted) == |db.payouts| == |rows|
  {
    hide ByLine, Disputed, CountBucket, RowsAreData;
    var csvPayouts, db := PayoutsFrom(rows), OneGroupEach(PayoutsFrom(rows));
    ParsedLinesDistinct(rows, records, readers);
    SameLinesAgree(csvPayouts, db.payouts);
    SameLinesAgree(db.payouts, csvPayouts);
    AllUnstarted(db.payouts, db, receipts);
  }
}
