/** The audit: reconciles the CSV with the database and classifies every payout against the chain. */
module Audit {
  import opened Wrappers
  import opened Money
  import opened Tables
  import opened Protocol
  import opened Safety
  import Database

  type NodeAnswer = Result<TxState, Database.Error>

  datatype Bucket = AllConfirmed | FalseConfirmed | Overpaid | Unstarted | StillPending | OnlyFailed | OnlyDropped
      | Unknown

  datatype Stats = Stats(
    total: nat, confirmed: nat, falseConfirmed: nat, overpaid: nat, unstarted: nat, pending: nat,
    failed: nat, dropped: nat, unknown: nat, mismatched: nat, doublePays: nat, doublePayStorj: int)
  {
    function Count(b: Bucket): nat {
      match b
      case AllConfirmed => confirmed
      case FalseConfirmed => falseConfirmed
      case Overpaid => overpaid
      case Unstarted => unstarted
      case StillPending => pending
      case OnlyFailed => failed
      case OnlyDropped => dropped
      case Unknown => unknown
    }

    function Add(b: Bucket, n: nat): Stats {
      match b
      case AllConfirmed => this.(confirmed := confirmed + n)
      case FalseConfirmed => this.(falseConfirmed := falseConfirmed + n)
      case Overpaid => this.(overpaid := overpaid + n)
      case Unstarted => this.(unstarted := unstarted + n)
      case StillPending => this.(pending := pending + n)
      case OnlyFailed => this.(failed := failed + n)
      case OnlyDropped => this.(dropped := dropped + n)
      case Unknown => this.(unknown := unknown + n)
    }
  }

  datatype ReceiptLine = ReceiptLine(payee: Address, usd: Decimal, hash: Hash)

  // ---------------------------------------------------------------- reconciliation

  /** The map a loop over payouts builds; of two payouts with one line the later one stays. */
  function ByLine(payouts: seq<Payout>): map<int, Payout> {
    if payouts == [] then map[]
    else
      var last := payouts[|payouts| - 1];
      ByLine(payouts[..|payouts| - 1])[last.line := last]
  }

  predicate SamePayout(a: Payout, b: Payout) {
    a.payee == b.payee && Equal(a.usd, b.usd)
  }

  predicate AgreesWith(p: Payout, other: map<int, Payout>) {
    p.line in other && SamePayout(p, other[p.line])
  }

  /** Lines of the payouts that the other side does not confirm. */
  function Disputed(payouts: seq<Payout>, other: map<int, Payout>): set<int> {
    if payouts == [] then {}
    else
      var last := payouts[|payouts| - 1];
      Disputed(payouts[..|payouts| - 1], other) + (if AgreesWith(last, other) then {} else {last.line})
  }

  method IndexByLine(payouts: seq<Payout>) returns (m: map<int, Payout>)
    ensures m == ByLine(payouts)
  {
    m := map[];
    for i := 0 to |payouts|
      invariant m == ByLine(payouts[..i])
    {
      assert payouts[..i + 1][..i] == payouts[..i];
      m := m[payouts[i].line := payouts[i]];
    }
    assert payouts[..|payouts|] == payouts;
  }

  method Reconcile(csvPayouts: seq<Payout>, dbPayouts: seq<Payout>) returns (mismatched: set<int>)
    ensures mismatched == Disputed(csvPayouts, ByLine(dbPayouts)) + Disputed(dbPayouts, ByLine(csvPayouts))
    ensures DistinctLines(csvPayouts) && DistinctLines(dbPayouts) ==> forall line :: line in mismatched <==>
              || (exists p <- csvPayouts :: p.line == line && forall q <- dbPayouts :: q.line != line)
              || (exists q <- dbPayouts :: q.line == line && forall p <- csvPayouts :: p.line != line)
              || (exists p <- csvPayouts, q <- dbPayouts :: p.line == q.line == line
                   && (p.payee != q.payee || Value(p.usd) != Value(q.usd)))
  {
    hide Equal, Value;
    var csvPayoutsByLine := IndexByLine(csvPayouts);
    var dbPayoutsByLine := IndexByLine(dbPayouts);
    mismatched := {};
    for i := 0 to |csvPayouts|
      invariant mismatched == Disputed(csvPayouts[..i], dbPayoutsByLine)
    {
      assert csvPayouts[..i + 1][..i] == csvPayouts[..i];
      var csvPayout := csvPayouts[i];
      if csvPayout.line !in dbPayoutsByLine {
        mismatched := mismatched + {csvPayout.line};
      } else if dbPayoutsByLine[csvPayout.line].payee != csvPayout.payee {
        mismatched := mismatched + {csvPayout.line};
      } else if !Equal(csvPayout.usd, dbPayoutsByLine[csvPayout.line].usd) {
        mismatched := mismatched + {csvPayout.line};
      }
    }
    assert csvPayouts[..|csvPayouts|] == csvPayouts;
    for i := 0 to |dbPayouts|
      invariant mismatched == Disputed(csvPayouts, dbPayoutsByLine) + Disputed(dbPayouts[..i], csvPayoutsByLine)
    {
      assert dbPayouts[..i + 1][..i] == dbPayouts[..i];
      var dbPayout := dbPayouts[i];
      if dbPayout.line !in csvPayoutsByLine {
        mismatched := mismatched + {dbPayout.line};
      } else if dbPayout.payee != csvPayoutsByLine[dbPayout.line].payee {
        mismatched := mismatched + {dbPayout.line};
      } else if !Equal(dbPayout.usd, csvPayoutsByLine[dbPayout.line].usd) {
        mismatched := mismatched + {dbPayout.line};
      }
    }
    assert dbPayouts[..|dbPayouts|] == dbPayouts;
    if DistinctLines(csvPayouts) && DistinctLines(dbPayouts) {
      forall line { MismatchedIsDifference(csvPayouts, dbPayouts, line); }
    }
  }

  predicate DistinctLines(payouts: seq<Payout>) {
    forall i, j :: 0 <= i < j < |payouts| ==> payouts[i].line != payouts[j].line
  }

  lemma {:induction false} ByLineHas(payouts: seq<Payout>, i: nat)
    requires DistinctLines(payouts) && i < |payouts|
    ensures payouts[i].line in ByLine(payouts) && ByLine(payouts)[payouts[i].line] == payouts[i]
  {
    if i < |payouts| - 1 { ByLineHas(payouts[..|payouts| - 1], i); }
  }

  lemma {:induction false} ByLineKeys(payouts: seq<Payout>, line: int) returns (i: nat)
    requires line in ByLine(payouts)
    ensures i < |payouts| && payouts[i].line == line && ByLine(payouts)[line] == payouts[i]
  {
    i := |payouts| - 1;
    if payouts[i].line != line { i := ByLineKeys(payouts[..|payouts| - 1], line); }
  }

  lemma {:induction false} DisputedIff(payouts: seq<Payout>, other: map<int, Payout>, line: int)
    requires DistinctLines(payouts)
    ensures line in Disputed(payouts, other) <==> line in ByLine(payouts) && !AgreesWith(ByLine(payouts)[line], other)
  {
    if payouts != [] {
      hide AgreesWith;
      DisputedIff(payouts[..|payouts| - 1], other, line);
      var last := payouts[|payouts| - 1];
      if line == last.line && line in ByLine(payouts[..|payouts| - 1]) {
        var i := ByLineKeys(payouts[..|payouts| - 1], line);
      }
    }
  }

  lemma OnLine(payouts: seq<Payout>, line: int)
    requires DistinctLines(payouts)
    ensures line !in ByLine(payouts) <==> forall i :: 0 <= i < |payouts| ==> payouts[i].line != line
    ensures line in ByLine(payouts) ==>
              && ByLine(payouts)[line] in payouts && ByLine(payouts)[line].line == line
              && forall p <- payouts :: p.line == line ==> p == ByLine(payouts)[line]
  {
    if line in ByLine(payouts) { var i := ByLineKeys(payouts, line); }
    forall i | 0 <= i < |payouts| && payouts[i].line == line
      ensures line in ByLine(payouts) && payouts[i] == ByLine(payouts)[line]
    {
      ByLineHas(payouts, i);
    }
  }

  /**
    With distinct line numbers a line is mismatched exactly if one side has it and the other does not, or
    both have it with different payees or with amounts of different value.
    */
  lemma MismatchedIsDifference(csvPayouts: seq<Payout>, dbPayouts: seq<Payout>, line: int)
    requires DistinctLines(csvPayouts) && DistinctLines(dbPayouts)
    ensures line in Disputed(csvPayouts, ByLine(dbPayouts)) + Disputed(dbPayouts, ByLine(csvPayouts))
            <==> || (exists p <- csvPayouts :: p.line == line && forall q <- dbPayouts :: q.line != line)
                 || (exists q <- dbPayouts :: q.line == line && forall p <- csvPayouts :: p.line != line)
                 || (exists p <- csvPayouts, q <- dbPayouts :: p.line == q.line == line
                      && (p.payee != q.payee || Value(p.usd) != Value(q.usd)))
  {
    hide ByLine, Disputed, Value;
    DisputedIff(csvPayouts, ByLine(dbPayouts), line);
    DisputedIff(dbPayouts, ByLine(csvPayouts), line);
    OnLine(csvPayouts, line);
    OnLine(dbPayouts, line);
  }

  // ---------------------------------------------------------------- double pays

  predicate IsDoublePay(row: TxRow, node: Hash -> NodeAnswer) {
    row.state.Dropped? && node(row.hash) == Ok(Confirmed)
  }

  function DoublePays(txs: seq<TxRow>, node: Hash -> NodeAnswer): nat {
    if txs == [] then 0
    else DoublePays(txs[..|txs| - 1], node) + (if IsDoublePay(txs[|txs| - 1], node) then 1 else 0)
  }

  function DoublePayTokens(txs: seq<TxRow>, node: Hash -> NodeAnswer): int {
    if txs == [] then 0
    else
      DoublePayTokens(txs[..|txs| - 1], node) +
      (if IsDoublePay(txs[|txs| - 1], node) then txs[|txs| - 1].tokens else 0)
  }

  /** The tokens of double pays add up over the rows. */
  lemma {:induction false} DoublePayTokensAddUp(a: seq<TxRow>, b: seq<TxRow>, node: Hash -> NodeAnswer)
    ensures DoublePayTokens(a + b, node) == DoublePayTokens(a, node) + DoublePayTokens(b, node)
    ensures |b| == 1 ==>
              DoublePayTokens(b, node) == if b[0].state.Dropped? && node(b[0].hash) == Ok(Confirmed)
                  then b[0].tokens else 0
  {
    if b == [] {
      assert a + b == a;
    } else {
      DoublePayTokensAddUp(a, b[..|b| - 1], node);
      assert (a + b)[..|a + b| - 1] == a + b[..|b| - 1];
      assert |b| == 1 ==> b[..0] == [];
    }
  }

  lemma {:induction false} DoublePaysUpTo(txs: seq<TxRow>, node: Hash -> NodeAnswer, k: nat, p: nat -> bool)
    requires k <= |txs|
    requires forall i: nat :: i < |txs| ==>
               (p(i) <==> txs[i].state.Dropped? && node(txs[i].hash) == Ok(Confirmed))
    ensures DoublePays(txs[..k], node) == |set i: nat | i < k && p(i)|
  {
    if k > 0 {
      DoublePaysUpTo(txs, node, k - 1, p);
      OneMore(k - 1, p);
      assert txs[..k][..k - 1] == txs[..k - 1];
    }
  }

  lemma DoublePaysSize(txs: seq<TxRow>, node: Hash -> NodeAnswer)
    ensures DoublePays(txs, node)
              == |set i: nat | i < |txs| && txs[i].state.Dropped? && node(txs[i].hash) == Ok(Confirmed)|
  {
    var p := (i: nat) => i < |txs| && txs[i].state.Dropped? && node(txs[i].hash) == Ok(Confirmed);
    DoublePaysUpTo(txs, node, |txs|, p);
    assert txs[..|txs|] == txs;
    assert (set i: nat | i < |txs| && txs[i].state.Dropped? && node(txs[i].hash) == Ok(Confirmed))
        == set i: nat | i < |txs| && p(i);
  }

  method CountDoublePays(txs: seq<TxRow>, node: Hash -> NodeAnswer) returns (r: Result<(nat, int), Database.Error>)
    ensures r.Ok? ==> r.value == (DoublePays(txs, node), DoublePayTokens(txs, node))
    ensures r.Ok? ==>
              r.value.0 == |set i: nat | i < |txs| && txs[i].state.Dropped? && node(txs[i].hash) == Ok(Confirmed)|
    ensures r.Err? <==> exists i :: 0 <= i < |txs| && node(txs[i].hash).Err?
  {
    var n: nat, tokens := 0, 0;
    for i := 0 to |txs|
      invariant n == DoublePays(txs[..i], node) && tokens == DoublePayTokens(txs[..i], node)
      invariant forall j :: 0 <= j < i ==> node(txs[j].hash).Ok?
    {
      assert txs[..i + 1][..i] == txs[..i];
      var tx := txs[i];
      var state := node(tx.hash);
      if state.Err? { return Err(state.error); }
      if tx.state == state.value { continue; }
      if tx.state.Dropped? && state.value.Confirmed? {
        n, tokens := n + 1, tokens + tx.tokens;
      }
    }
    assert txs[..|txs|] == txs;
    DoublePaysSize(txs, node);
    return Ok((n, tokens));
  }

  // ---------------------------------------------------------------- one payout group

  function RowsOf(txs: seq<TxRow>, group: int): seq<TxRow> {
    if txs == [] then []
    else
      var rest := RowsOf(txs[..|txs| - 1], group);
      if txs[|txs| - 1].group == group then rest + [txs[|txs| - 1]] else rest
  }

  function InState(rows: seq<TxRow>, state: TxState): seq<TxRow> {
    if rows == [] then []
    else
      var rest := InState(rows[..|rows| - 1], state);
      if rows[|rows| - 1].state == state then rest + [rows[|rows| - 1]] else rest
  }

  /** How many rows the node's receipts call confirmed. */
  function Backed(rows: seq<TxRow>, receipts: Hash -> NodeAnswer): nat {
    if rows == [] then 0
    else Backed(rows[..|rows| - 1], receipts) + (if receipts(rows[|rows| - 1].hash) == Ok(Confirmed) then 1 else 0)
  }

  function BucketOf(rows: seq<TxRow>, receipts: Hash -> NodeAnswer): Bucket {
    var backed := Backed(InState(rows, Confirmed), receipts);
    if rows == [] then Unstarted
    else if InState(rows, Confirmed) == [] then
      if InState(rows, Pending) != [] then StillPending
      else if InState(rows, Failed) != [] then OnlyFailed
      else if InState(rows, Dropped) != [] then OnlyDropped
      else Unknown
    else if backed > 1 then Overpaid else if backed == 0 then FalseConfirmed else AllConfirmed
  }

  /** The hash on the receipts of a group, if it gets any. */
  function ReceiptHash(rows: seq<TxRow>, receipts: Hash -> NodeAnswer): Option<Hash> {
    var confirmed := InState(rows, Confirmed);
    if confirmed != [] && Backed(confirmed, receipts) > 0 then Some(confirmed[0].hash) else None
  }

  lemma {:induction false} InStateNone(rows: seq<TxRow>, state: TxState)
    ensures InState(rows, state) == [] <==> forall i :: 0 <= i < |rows| ==> rows[i].state != state
  {
    if rows != [] {
      var init := rows[..|rows| - 1];
      InStateNone(init, state);
      assert forall i :: 0 <= i < |init| ==> init[i] == rows[i];
    }
  }

  lemma {:induction false} InStateFirst(rows: seq<TxRow>, state: TxState) returns (i: nat)
    requires InState(rows, state) != []
    ensures i < |rows| && rows[i] == InState(rows, state)[0] && rows[i].state == state
    ensures forall j :: 0 <= j < i ==> rows[j].state != state
  {
    var init := rows[..|rows| - 1];
    if InState(init, state) != [] {
      i := InStateFirst(init, state);
    } else {
      InStateNone(init, state);
      i := |init|;
    }
    assert forall j :: 0 <= j < |init| ==> init[j] == rows[j];
  }

  lemma {:induction false} BackedUpTo(rows: seq<TxRow>, receipts: Hash -> NodeAnswer, k: nat, p: nat -> bool)
    requires k <= |rows|
    requires forall i: nat :: i < |rows| ==>
               (p(i) <==> rows[i].state.Confirmed? && receipts(rows[i].hash) == Ok(Confirmed))
    ensures Backed(InState(rows[..k], Confirmed), receipts) == |set i: nat | i < k && p(i)|
  {
    if k > 0 {
      BackedUpTo(rows, receipts, k - 1, p);
      OneMore(k - 1, p);
      assert rows[..k][..k - 1] == rows[..k - 1];
      var before := InState(rows[..k - 1], Confirmed);
      assert (before + [rows[k - 1]])[..|before|] == before;
    }
  }

  lemma BackedSize(rows: seq<TxRow>, receipts: Hash -> NodeAnswer)
    ensures Backed(InState(rows, Confirmed), receipts)
              == |set i: nat | i < |rows| && rows[i].state.Confirmed? && receipts(rows[i].hash) == Ok(Confirmed)|
  {
    var p := (i: nat) => i < |rows| && rows[i].state.Confirmed? && receipts(rows[i].hash) == Ok(Confirmed);
    BackedUpTo(rows, receipts, |rows|, p);
    assert rows[..|rows|] == rows;
    assert (set i: nat | i < |rows| && rows[i].state.Confirmed? && receipts(rows[i].hash) == Ok(Confirmed))
        == set i: nat | i < |rows| && p(i);
  }

  /**
    What each bucket says of the rows of a group: without confirmed rows pending ones count before failed
    ones and those before dropped ones; otherwise it matters how many confirmed rows the receipts back.
    */
  lemma BucketMeaning(rows: seq<TxRow>, receipts: Hash -> NodeAnswer)
    ensures var bucket := BucketOf(rows, receipts);
            var backed := set i: nat | i < |rows| && rows[i].state.Confirmed?
                && receipts(rows[i].hash) == Ok(Confirmed);
            && (bucket.Unstarted? <==> rows == [])
            && (bucket.StillPending? <==>
                  (forall i :: 0 <= i < |rows| ==> !rows[i].state.Confirmed?)
                  && exists i :: 0 <= i < |rows| && rows[i].state.Pending?)
            && (bucket.OnlyFailed? <==>
                  (forall i :: 0 <= i < |rows| ==> !rows[i].state.Confirmed? && !rows[i].state.Pending?)
                  && exists i :: 0 <= i < |rows| && rows[i].state.Failed?)
            && (bucket.OnlyDropped? <==> rows != [] && forall i :: 0 <= i < |rows| ==> rows[i].state.Dropped?)
            && (bucket.FalseConfirmed? <==>
                  backed == {} && exists i :: 0 <= i < |rows| && rows[i].state.Confirmed?)
            && (bucket.AllConfirmed? <==> |backed| == 1) && (bucket.Overpaid? <==> |backed| > 1)
  {
    hide InState, Backed;
    BackedSize(rows, receipts);
    forall state { InStateNone(rows, state); }
    if InState(rows, Confirmed) == [] { NoneBacked(rows, receipts); }
    if rows != [] { assert InState(rows, rows[0].state) != []; }
    var backed := set i: nat | i < |rows| && rows[i].state.Confirmed? && receipts(rows[i].hash) == Ok(Confirmed);
    assert backed == {} <==> |backed| == 0;
  }

  lemma NoneBacked(rows: seq<TxRow>, receipts: Hash -> NodeAnswer)
    requires forall i :: 0 <= i < |rows| ==> rows[i].state != Confirmed
    ensures (set i: nat | i < |rows| && rows[i].state.Confirmed? && receipts(rows[i].hash) == Ok(Confirmed)) == {}
  {}

  /** A group gets receipts if a confirmed row is backed, and they show the hash of the first confirmed row. */
  lemma ReceiptMeaning(rows: seq<TxRow>, receipts: Hash -> NodeAnswer)
    ensures var hash := ReceiptHash(rows, receipts);
            && (hash.Some? <==>
                  exists i :: 0 <= i < |rows| && rows[i].state.Confirmed? && receipts(rows[i].hash) == Ok(Confirmed))
            && (hash.Some? ==>
                  exists i :: 0 <= i < |rows| && rows[i].state.Confirmed? && rows[i].hash == hash.value
                              && forall j :: 0 <= j < i ==> !rows[j].state.Confirmed?)
  {
    hide Backed, InState;
    BackedSize(rows, receipts);
    InStateNone(rows, Confirmed);
    var backed := set i: nat | i < |rows| && rows[i].state.Confirmed? && receipts(rows[i].hash) == Ok(Confirmed);
    if i :| 0 <= i < |rows| && rows[i].state.Confirmed? && receipts(rows[i].hash) == Ok(Confirmed) {
      assert i in backed;
    }
    if |backed| > 0 {
      var i :| i in backed;
      assert rows[i].state.Confirmed? && receipts(rows[i].hash) == Ok(Confirmed);
    }
    if InState(rows, Confirmed) != [] {
      var k := InStateFirst(rows, Confirmed);
    }
  }

  lemma ReceiptIffPaid(rows: seq<TxRow>, receipts: Hash -> NodeAnswer)
    ensures ReceiptHash(rows, receipts).Some? <==>
              BucketOf(rows, receipts).AllConfirmed? || BucketOf(rows, receipts).Overpaid?
  {
    if rows == [] { assert InState(rows, Confirmed) == []; }
  }

  method ClassifyGroup(txs: seq<TxRow>, receipts: Hash -> NodeAnswer) returns (bucket: Bucket, hash: Option<Hash>)
    ensures bucket == BucketOf(txs, receipts) && hash == ReceiptHash(txs, receipts)
  {
    hash := None;
    if |txs| == 0 { return Unstarted, None; }
    var pending: seq<TxRow>, dropped: seq<TxRow>, failed: seq<TxRow>, confirmed: seq<TxRow> := [], [], [], [];
    for i := 0 to |txs|
      invariant pending == InState(txs[..i], Pending) && dropped == InState(txs[..i], Dropped)
      invariant failed == InState(txs[..i], Failed) && confirmed == InState(txs[..i], Confirmed)
    {
      assert txs[..i + 1][..i] == txs[..i];
      match txs[i].state
      case Pending => pending := pending + [txs[i]];
      case Dropped => dropped := dropped + [txs[i]];
      case Failed => failed := failed + [txs[i]];
      case Confirmed => confirmed := confirmed + [txs[i]];
    }
    assert txs[..|txs|] == txs;
    if |confirmed| == 0 {
      if |pending| > 0 { return StillPending, None; }
      if |failed| > 0 { return OnlyFailed, None; }
      if |dropped| > 0 { return OnlyDropped, None; }
      return Unknown, None;
    }
    var confirmedCount: nat := 0;
    for i := 0 to |confirmed|
      invariant confirmedCount == Backed(confirmed[..i], receipts)
    {
      assert confirmed[..i + 1][..i] == confirmed[..i];
      var state := receipts(confirmed[i].hash);
      if state.Ok? && state.value.Confirmed? { confirmedCount := confirmedCount + 1; }
    }
    assert confirmed[..|confirmed|] == confirmed;
    if confirmedCount > 0 { hash := Some(confirmed[0].hash); }
    bucket := if confirmedCount > 1 then Overpaid else if confirmedCount == 0 then FalseConfirmed else AllConfirmed;
  }

  // ---------------------------------------------------------------- all payouts

  predicate InBucket(p: Payout, db: Tables, receipts: Hash -> NodeAnswer, b: Bucket) {
    BucketOf(RowsOf(db.txs, p.group), receipts) == b
  }

  /** Payouts of the groups seen so far that belong to a bucket. */
  function CountSeen(payouts: seq<Payout>, seen: set<int>, db: Tables, receipts: Hash -> NodeAnswer, b: Bucket): nat {
    if payouts == [] then 0
    else
      var last := payouts[|payouts| - 1];
      CountSeen(payouts[..|payouts| - 1], seen, db, receipts, b)
        + (if last.group in seen && InBucket(last, db, receipts, b) then 1 else 0)
  }

  /** Payouts that belong to a bucket. */
  function CountBucket(payouts: seq<Payout>, db: Tables, receipts: Hash -> NodeAnswer, b: Bucket): nat {
    if payouts == [] then 0
    else
      CountBucket(payouts[..|payouts| - 1], db, receipts, b)
        + (if InBucket(payouts[|payouts| - 1], db, receipts, b) then 1 else 0)
  }

  /** The receipts, in payout order. */
  function ReceiptLines(payouts: seq<Payout>, db: Tables, receipts: Hash -> NodeAnswer): seq<ReceiptLine> {
    if payouts == [] then []
    else
      var last := payouts[|payouts| - 1];
      var rest := ReceiptLines(payouts[..|payouts| - 1], db, receipts);
      match ReceiptHash(RowsOf(db.txs, last.group), receipts)
      case Some(hash) => rest + [ReceiptLine(last.payee, last.usd, hash)]
      case None => rest
  }

  lemma {:induction false} SeeGroup(payouts: seq<Payout>, seen: set<int>, group: int, db: Tables,
      receipts: Hash -> NodeAnswer, b: Bucket)
    requires group !in seen
    ensures CountSeen(payouts, seen + {group}, db, receipts, b) ==
            CountSeen(payouts, seen, db, receipts, b)
              + (if BucketOf(RowsOf(db.txs, group), receipts) == b then |PayoutsOf(payouts, group)| else 0)
  {
    if payouts != [] {
      hide BucketOf, RowsOf;
      SeeGroup(payouts[..|payouts| - 1], seen, group, db, receipts, b);
    }
  }

  lemma {:induction false} SeenNone(payouts: seq<Payout>, db: Tables, receipts: Hash -> NodeAnswer, b: Bucket)
    ensures CountSeen(payouts, {}, db, receipts, b) == 0
  {
    if payouts != [] { SeenNone(payouts[..|payouts| - 1], db, receipts, b); }
  }

  lemma {:induction false} SeenAll(payouts: seq<Payout>, seen: set<int>, db: Tables, receipts: Hash -> NodeAnswer,
      b: Bucket)
    requires forall i :: 0 <= i < |payouts| ==> payouts[i].group in seen
    ensures CountSeen(payouts, seen, db, receipts, b) == CountBucket(payouts, db, receipts, b)
  {
    if payouts != [] {
      hide BucketOf, RowsOf;
      SeenAll(payouts[..|payouts| - 1], seen, db, receipts, b);
    }
  }

  /** Every payout lies in exactly one bucket, for any database and any node. */
  lemma {:induction false} BucketsPartition(payouts: seq<Payout>, db: Tables, receipts: Hash -> NodeAnswer)
    ensures CountBucket(payouts, db, receipts, AllConfirmed) + CountBucket(payouts, db, receipts, FalseConfirmed)
            + CountBucket(payouts, db, receipts, Overpaid) + CountBucket(payouts, db, receipts, Unstarted)
            + CountBucket(payouts, db, receipts, StillPending) + CountBucket(payouts, db, receipts, OnlyFailed)
            + CountBucket(payouts, db, receipts, OnlyDropped) + CountBucket(payouts, db, receipts, Unknown) == |payouts|
  {
    if payouts != [] {
      hide BucketOf, RowsOf;
      BucketsPartition(payouts[..|payouts| - 1], db, receipts);
    }
  }

  /** The receipts are one per payout of the Confirmed and Overpaid groups. */
  lemma {:induction false} OneReceiptEach(payouts: seq<Payout>, db: Tables, receipts: Hash -> NodeAnswer)
    ensures |ReceiptLines(payouts, db, receipts)| ==
            CountBucket(payouts, db, receipts, AllConfirmed) + CountBucket(payouts, db, receipts, Overpaid)
  {
    if payouts != [] {
      hide BucketOf, RowsOf, ReceiptHash;
      OneReceiptEach(payouts[..|payouts| - 1], db, receipts);
      ReceiptIffPaid(RowsOf(db.txs, payouts[|payouts| - 1].group), receipts);
    }
  }

  /** With as many receipts as payouts, the i-th receipt is the i-th payout's. */
  lemma {:induction false} ReceiptsCoverAll(payouts: seq<Payout>, db: Tables, receipts: Hash -> NodeAnswer, i: nat)
    requires |ReceiptLines(payouts, db, receipts)| == |payouts| && i < |payouts|
    ensures ReceiptLines(payouts, db, receipts)[i].payee == payouts[i].payee
    ensures ReceiptLines(payouts, db, receipts)[i].usd == payouts[i].usd
  {
    hide BucketOf, RowsOf, ReceiptHash;
    ReceiptsAtMost(payouts[..|payouts| - 1], db, receipts);
    if i < |payouts| - 1 { ReceiptsCoverAll(payouts[..|payouts| - 1], db, receipts, i); }
  }

  lemma {:induction false} ReceiptsAtMost(payouts: seq<Payout>, db: Tables, receipts: Hash -> NodeAnswer)
    ensures |ReceiptLines(payouts, db, receipts)| <= |payouts|
  {
    hide BucketOf, RowsOf, ReceiptHash;
    if payouts != [] { ReceiptsAtMost(payouts[..|payouts| - 1], db, receipts); }
  }

  /** The loop over the payouts: each group is classified once, at its first payout. */
  method CheckPayouts(db: Tables, receipts: Hash -> NodeAnswer, stats0: Stats)
    returns (stats: Stats, lines: seq<ReceiptLine>, payoutsConfirmed: nat)
    requires forall b :: stats0.Count(b) == 0
    ensures forall b :: stats.Count(b) == CountBucket(db.payouts, db, receipts, b)
    ensures SameHead(stats, stats0)
    ensures lines == ReceiptLines(db.payouts, db, receipts) && payoutsConfirmed == |lines|
  {
    hide BucketOf, RowsOf, ReceiptHash, CountBucket, CountSeen;
    var payouts := db.payouts;
    var payoutGroupStatus: map<int, Option<Hash>> := map[];
    stats, lines, payoutsConfirmed := stats0, [], 0;
    forall b { SeenNone(payouts, db, receipts, b); }
    assert payoutGroupStatus.Keys == {} && stats0.Count(AllConfirmed) == 0 && stats0.Count(Overpaid) == 0;
    for i := 0 to |payouts|
      invariant SameHead(stats, stats0)
      invariant forall g <- payoutGroupStatus :: payoutGroupStatus[g] == ReceiptHash(RowsOf(db.txs, g), receipts)
      invariant forall j :: 0 <= j < i ==> payouts[j].group in payoutGroupStatus
      invariant forall b :: stats.Count(b) == CountSeen(payouts, payoutGroupStatus.Keys, db, receipts, b)
      invariant payoutsConfirmed == stats.confirmed + stats.overpaid
      invariant lines == ReceiptLines(payouts[..i], db, receipts)
    {
      assert payouts[..i + 1][..i] == payouts[..i];
      var p := payouts[i];
      if p.group in payoutGroupStatus {
        if payoutGroupStatus[p.group].Some? {
          lines := lines + [ReceiptLine(p.payee, p.usd, payoutGroupStatus[p.group].value)];
        }
        continue;
      }
      var numPayouts := |PayoutsOf(payouts, p.group)|;
      var bucket, hash := ClassifyGroup(RowsOf(db.txs, p.group), receipts);
      ReceiptIffPaid(RowsOf(db.txs, p.group), receipts);
      forall b { SeeGroup(payouts, payoutGroupStatus.Keys, p.group, db, receipts, b); }
      AddCounts(stats, bucket, numPayouts);
      assert payoutGroupStatus[p.group := hash].Keys == payoutGroupStatus.Keys + {p.group};
      payoutGroupStatus := payoutGroupStatus[p.group := hash];
      if hash.Some? {
        lines := lines + [ReceiptLine(p.payee, p.usd, hash.value)];
        payoutsConfirmed := payoutsConfirmed + numPayouts;
      }
      stats := stats.Add(bucket, numPayouts);
    }
    assert payouts[..|payouts|] == payouts;
    forall b { SeenAll(payouts, payoutGroupStatus.Keys, db, receipts, b); }
    OneReceiptEach(payouts, db, receipts);
    assert stats.Count(AllConfirmed) + stats.Count(Overpaid) == |lines|;
  }

  lemma CountsByName(stats: Stats)
    ensures stats.Count(AllConfirmed) == stats.confirmed && stats.Count(FalseConfirmed) == stats.falseConfirmed
    ensures stats.Count(Overpaid) == stats.overpaid && stats.Count(Unstarted) == stats.unstarted
    ensures stats.Count(StillPending) == stats.pending && stats.Count(OnlyFailed) == stats.failed
    ensures stats.Count(OnlyDropped) == stats.dropped && stats.Count(Unknown) == stats.unknown
  {}

  /** Rows are in one of four states, so a group with rows is never unknown. */
  lemma {:induction false} NothingUnknown(payouts: seq<Payout>, db: Tables, receipts: Hash -> NodeAnswer)
    ensures CountBucket(payouts, db, receipts, Unknown) == 0
  {
    if payouts != [] {
      hide RowsOf, ReceiptHash;
      NothingUnknown(payouts[..|payouts| - 1], db, receipts);
      KnownBucket(RowsOf(db.txs, payouts[|payouts| - 1].group), receipts);
    }
  }

  lemma KnownBucket(rows: seq<TxRow>, receipts: Hash -> NodeAnswer)
    ensures BucketOf(rows, receipts) != Unknown
  {
    if rows != [] {
      var last := rows[|rows| - 1];
      assert InState(rows, last.state) != [];
    }
  }

  /** The fields that the payout loop leaves alone. */
  predicate SameHead(a: Stats, b: Stats) {
    a.total == b.total && a.mismatched == b.mismatched && a.doublePays == b.doublePays
        && a.doublePayStorj == b.doublePayStorj
  }

  lemma AddCounts(stats: Stats, bucket: Bucket, n: nat)
    ensures forall b :: stats.Add(bucket, n).Count(b) == stats.Count(b) + (if b == bucket then n else 0)
    ensures SameHead(stats.Add(bucket, n), stats)
  {}

  datatype Report = Report(stats: Stats, lines: seq<ReceiptLine>, written: bool)

  /** The audit after everything is loaded; `out` says whether receipts were asked for. */
  method Audit(csvPayouts: seq<Payout>, db: Tables, node: Hash -> NodeAnswer, receipts: Hash -> NodeAnswer,
      out: bool, force: bool)
    returns (r: Result<Report, Database.Error>)
    ensures r.Err? <==> exists i :: 0 <= i < |db.txs| && node(db.txs[i].hash).Err?
    ensures r.Ok? ==>
              var stats, lines := r.value.stats, r.value.lines;
              && stats.total == |db.payouts|
              && stats.mismatched
                   == |Disputed(csvPayouts, ByLine(db.payouts)) + Disputed(db.payouts, ByLine(csvPayouts))|
              && stats.doublePays == DoublePays(db.txs, node) && stats.doublePayStorj == DoublePayTokens(db.txs, node)
              && (forall b :: stats.Count(b) == CountBucket(db.payouts, db, receipts, b))
              && stats.confirmed + stats.falseConfirmed + stats.overpaid + stats.unstarted + stats.pending
                   + stats.failed + stats.dropped + stats.unknown == stats.total
              && stats.unknown == 0
              && lines == ReceiptLines(db.payouts, db, receipts)
              && (r.value.written <==> out && (force || |lines| == |db.payouts|))
  {
    hide BucketOf, RowsOf, ReceiptHash, CountBucket, Disputed, ByLine, DoublePays, DoublePayTokens, ReceiptLines;
    var mismatched := Reconcile(csvPayouts, db.payouts);
    var doubles := CountDoublePays(db.txs, node);
    if doubles.Err? { return Err(doubles.error); }
    var stats := Stats(|db.payouts|, 0, 0, 0, 0, 0, 0, 0, 0, |mismatched|, doubles.value.0, doubles.value.1);
    var stats', lines, payoutsConfirmed := CheckPayouts(db, receipts, stats);
    BucketsPartition(db.payouts, db, receipts);
    NothingUnknown(db.payouts, db, receipts);
    CountsByName(stats');
    return Ok(Report(stats', lines, out && (payoutsConfirmed == stats'.total || force)));
  }

  // ---------------------------------------------------------------- what the pipeline leaves behind

  /** "Confirmed" is only said of transactions that were mined successfully. */
  ghost predicate NodeIsTruthful(node: Hash -> NodeAnswer, mined: map<nat, Receipt>) {
    forall h :: node(h) == Ok(Confirmed) ==> Paid(mined, h)
  }

  /** The node has the receipt of every successfully mined transaction. */
  ghost predicate ReceiptsAreComplete(receipts: Hash -> NodeAnswer, mined: map<nat, Receipt>) {
    forall h :: Paid(mined, h) ==> receipts(h) == Ok(Confirmed)
  }

  lemma {:induction false} NoDoublePays(txs: seq<TxRow>, node: Hash -> NodeAnswer, mined: map<nat, Receipt>)
    requires TruthInv(txs, mined) && NodeIsTruthful(node, mined)
    requires forall i :: 0 <= i < |txs| ==> txs[i].nonce == txs[i].hash.body.nonce
    ensures DoublePays(txs, node) == 0
  {
    if txs != [] {
      assert RowTruth(txs[|txs| - 1], mined);
      NoDoublePays(txs[..|txs| - 1], node, mined);
    }
  }

  lemma {:induction false} RowsOfAreRows(txs: seq<TxRow>, group: int, row: TxRow)
    ensures row in RowsOf(txs, group) <==> row in txs && row.group == group
  {
    if txs != [] {
      RowsOfAreRows(txs[..|txs| - 1], group, row);
      assert txs == txs[..|txs| - 1] + [txs[|txs| - 1]];
    }
  }

  lemma {:induction false} InStateAreRows(rows: seq<TxRow>, state: TxState, row: TxRow)
    ensures row in InState(rows, state) <==> row in rows && row.state == state
  {
    if rows != [] {
      InStateAreRows(rows[..|rows| - 1], state, row);
      assert rows == rows[..|rows| - 1] + [rows[|rows| - 1]];
    }
  }

  /** The confirmed rows of a group, as the audit collects them. */
  function ConfirmedOf(txs: seq<TxRow>, group: int): seq<TxRow> {
    InState(RowsOf(txs, group), Confirmed)
  }

  lemma {:induction false} NoneConfirmed(txs: seq<TxRow>, group: int)
    requires forall i :: 0 <= i < |txs| ==> !(txs[i].state.Confirmed? && txs[i].group == group)
    ensures ConfirmedOf(txs, group) == []
  {
    if txs != [] { NoneConfirmed(txs[..|txs| - 1], group); }
  }

  lemma {:induction false} OneConfirmed(txs: seq<TxRow>, group: int, w: nat)
    requires w < |txs| && txs[w].state.Confirmed? && txs[w].group == group
    requires forall i :: 0 <= i < |txs| && i != w ==> !(txs[i].state.Confirmed? && txs[i].group == group)
    ensures ConfirmedOf(txs, group) == [txs[w]]
  {
    var init := txs[..|txs| - 1];
    if w == |txs| - 1 { NoneConfirmed(init, group); } else { OneConfirmed(init, group, w); }
  }

  lemma FinishedBucket(s: State, group: int, receipts: Hash -> NodeAnswer)
    requires Inv(s) && ReceiptsAreComplete(receipts, s.chain.mined)
    requires group in s.db.finals && s.db.finals[group].Some?
    ensures BucketOf(RowsOf(s.db.txs, group), receipts) == AllConfirmed
    ensures ReceiptHash(RowsOf(s.db.txs, group), receipts) == s.db.finals[group]
  {
    hide Paid, InState, RowsOf, Inv;
    FinalIffConfirmed(s, group);
    var w := FinalRow(s, group);
    OneConfirmed(s.db.txs, group, w);
    var confirmed := ConfirmedOf(s.db.txs, group);
    OneBacked(confirmed[0], receipts);
    assert confirmed[0] in confirmed;
    InStateAreRows(RowsOf(s.db.txs, group), Confirmed, confirmed[0]);
  }

  lemma OneBacked(row: TxRow, receipts: Hash -> NodeAnswer)
    requires receipts(row.hash) == Ok(Confirmed)
    ensures Backed([row], receipts) == 1
  {
    assert [row][..0] == [];
  }

  lemma UnfinishedBucket(s: State, group: int, receipts: Hash -> NodeAnswer)
    requires Inv(s) && Unfinished(s.db, group)
    ensures var b := BucketOf(RowsOf(s.db.txs, group), receipts); b.Unstarted? || b.StillPending? || b.OnlyFailed?
    ensures ReceiptHash(RowsOf(s.db.txs, group), receipts).None?
  {
    hide InState, RowsOf, Inv, Backed;
    FinalIffConfirmed(s, group);
    NoneConfirmed(s.db.txs, group);
    var rows := RowsOf(s.db.txs, group);
    if rows != [] {
      RowsOfAreRows(s.db.txs, group, rows[0]);
      assert rows[0] in rows;
      var i :| 0 <= i < |s.db.txs| && s.db.txs[i] == rows[0];
      if s.db.txs[i].state.Pending? {
        InStateAreRows(rows, Pending, rows[0]);
      } else {
        var w := OneVerdictPerNonce(s, i);
        RowsOfAreRows(s.db.txs, group, s.db.txs[w]);
        InStateAreRows(rows, Failed, s.db.txs[w]);
      }
    }
  }

  lemma GroupsExist(genesis: State, log: seq<Event>)
    requires IsGenesis(genesis)
    ensures var db := Replay(genesis, log).db;
            forall i :: 0 <= i < |db.payouts| ==> db.payouts[i].group in db.finals
  {
    ImportedDataStays(genesis, log);
  }

  predicate NeverAfterPipeline(b: Bucket) {
    b.Overpaid? || b.FalseConfirmed? || b.OnlyDropped? || b.Unknown?
  }

  lemma {:induction false} EmptyBucket(payouts: seq<Payout>, db: Tables, receipts: Hash -> NodeAnswer, b: Bucket)
    requires forall i :: 0 <= i < |payouts| ==> !InBucket(payouts[i], db, receipts, b)
    ensures CountBucket(payouts, db, receipts, b) == 0
  {
    hide InBucket;
    if payouts != [] { EmptyBucket(payouts[..|payouts| - 1], db, receipts, b); }
  }

  /**
    On any database the pipeline can leave behind, at any moment, the audit against a truthful node finds
    no double pay, nothing overpaid, falsely confirmed, dropped or unknown.
    */
  lemma AuditAgrees(genesis: State, log: seq<Event>, node: Hash -> NodeAnswer, receipts: Hash -> NodeAnswer, b: Bucket)
    requires IsGenesis(genesis) && Legal(genesis, log)
    requires NodeIsTruthful(node, Replay(genesis, log).chain.mined)
    requires ReceiptsAreComplete(receipts, Replay(genesis, log).chain.mined)
    requires NeverAfterPipeline(b)
    ensures var db := Replay(genesis, log).db;
            DoublePays(db.txs, node) == 0 && CountBucket(db.payouts, db, receipts, b) == 0
  {
    hide IsGenesis, Legal, Replay, NodeIsTruthful, ReceiptsAreComplete, DoublePays, CountBucket, BucketOf, RowsOf,
      PendingInv, ContiguousInv, SpacedInv, DroppedInv, FinalsInv, ChainInv, TruthInv;
    var s := Replay(genesis, log);
    LegalInv(genesis, log);
    GroupsExist(genesis, log);
    NoDoublePays(s.db.txs, node, s.chain.mined);
    forall i | 0 <= i < |s.db.payouts| ensures !InBucket(s.db.payouts[i], s.db, receipts, b) {
      var group := s.db.payouts[i].group;
      if s.db.finals[group].Some? { FinishedBucket(s, group, receipts); } else { UnfinishedBucket(s, group, receipts); }
    }
    EmptyBucket(s.db.payouts, s.db, receipts, b);
  }

  lemma GroupBucket(s: State, group: int, receipts: Hash -> NodeAnswer)
    requires Inv(s) && ReceiptsAreComplete(receipts, s.chain.mined) && group in s.db.finals
    ensures var bucket := BucketOf(RowsOf(s.db.txs, group), receipts);
            && (bucket.AllConfirmed? <==> s.db.finals[group].Some?)
            && (bucket.StillPending? <==> Attached(s.db.txs, group))
            && (bucket.OnlyFailed? <==> Unattached(s.db, group) && HasRows(s.db.txs, group))
            && (bucket.Unstarted? <==> !HasRows(s.db.txs, group))
  {
    hide Inv, BucketOf, RowsOf, ReceiptsAreComplete;
    var rows := RowsOf(s.db.txs, group);
    forall row { RowsOfAreRows(s.db.txs, group, row); }
    BucketMeaning(rows, receipts);
    if Attached(s.db.txs, group) { AttachedIsUnfinished(s, group); }
    AttachedHasRow(s.db.txs, group, rows);
    if s.db.finals[group].Some? {
      FinishedBucket(s, group, receipts);
    } else {
      UnfinishedBucket(s, group, receipts);
    }
    assert rows == [] <==> !HasRows(s.db.txs, group) by {
      if rows != [] { assert rows[0] in rows; }
    }
  }

  lemma AttachedIsUnfinished(s: State, group: int)
    requires Inv(s) && Attached(s.db.txs, group)
    ensures Unfinished(s.db, group)
  {}

  lemma AttachedHasRow(txs: seq<TxRow>, group: int, rows: seq<TxRow>)
    requires forall row :: row in rows <==> row in txs && row.group == group
    ensures Attached(txs, group) <==> exists i :: 0 <= i < |rows| && rows[i].state.Pending?
  {
    if i :| 0 <= i < |txs| && txs[i].state.Pending? && txs[i].group == group {
      assert txs[i] in rows;
    }
    if i :| 0 <= i < |rows| && rows[i].state.Pending? {
      assert rows[i] in txs;
    }
  }

  lemma {:induction false} CountIf(payouts: seq<Payout>, db: Tables, receipts: Hash -> NodeAnswer, b: Bucket,
      p: int -> bool)
    requires forall i :: 0 <= i < |payouts| ==> (InBucket(payouts[i], db, receipts, b) <==> p(payouts[i].group))
    ensures CountBucket(payouts, db, receipts, b) == |set i: nat | i < |payouts| && p(payouts[i].group)|
  {
    if payouts != [] {
      hide InBucket;
      var init := payouts[..|payouts| - 1];
      var q := (i: nat) => i < |payouts| && p(payouts[i].group);
      assert InBucket(payouts[|init|], db, receipts, b) <==> p(payouts[|init|].group);
      assert forall i :: 0 <= i < |init| ==> init[i] == payouts[i];
      CountIf(init, db, receipts, b, p);
      OneMore(|init|, q);
      assert (set i: nat | i < |init| && p(init[i].group)) == set i: nat | i < |init| && q(i);
      assert (set i: nat | i < |payouts| && p(payouts[i].group)) == set i: nat | i < |init| + 1 && q(i);
    }
  }

  predicate HasRows(txs: seq<TxRow>, group: int) {
    exists row <- txs :: row.group == group
  }

  lemma CountGroups(payouts: seq<Payout>, db: Tables, receipts: Hash -> NodeAnswer)
    requires forall i :: 0 <= i < |payouts| ==>
               var p := payouts[i];
               && (InBucket(p, db, receipts, AllConfirmed) <==> !Unfinished(db, p.group))
               && (InBucket(p, db, receipts, StillPending) <==> Attached(db.txs, p.group))
               && (InBucket(p, db, receipts, OnlyFailed) <==> Unattached(db, p.group) && HasRows(db.txs, p.group))
               && (InBucket(p, db, receipts, Unstarted) <==> !HasRows(db.txs, p.group))
    ensures CountBucket(payouts, db, receipts, AllConfirmed)
              == |set i: nat | i < |payouts| && !Unfinished(db, payouts[i].group)|
    ensures CountBucket(payouts, db, receipts, StillPending)
              == |set i: nat | i < |payouts| && Attached(db.txs, payouts[i].group)|
    ensures CountBucket(payouts, db, receipts, OnlyFailed)
              == |set i: nat | i < |payouts| && Unattached(db, payouts[i].group) && HasRows(db.txs, payouts[i].group)|
    ensures CountBucket(payouts, db, receipts, Unstarted)
              == |set i: nat | i < |payouts| && !HasRows(db.txs, payouts[i].group)|
  {
    hide InBucket, Unfinished, Attached, Unattached, HasRows, CountBucket;
    var finished, attached := g => !Unfinished(db, g), g => Attached(db.txs, g);
    var left, untouched := g => Unattached(db, g) && HasRows(db.txs, g), g => !HasRows(db.txs, g);
    CountIf(payouts, db, receipts, AllConfirmed, finished);
    CountIf(payouts, db, receipts, StillPending, attached);
    CountIf(payouts, db, receipts, OnlyFailed, left);
    CountIf(payouts, db, receipts, Unstarted, untouched);
    assert (set i: nat | i < |payouts| && finished(payouts[i].group))
        == set i: nat | i < |payouts| && !Unfinished(db, payouts[i].group);
    assert (set i: nat | i < |payouts| && attached(payouts[i].group))
        == set i: nat | i < |payouts| && Attached(db.txs, payouts[i].group);
    assert (set i: nat | i < |payouts| && left(payouts[i].group))
        == set i: nat | i < |payouts| && Unattached(db, payouts[i].group) && HasRows(db.txs, payouts[i].group);
    assert (set i: nat | i < |payouts| && untouched(payouts[i].group))
        == set i: nat | i < |payouts| && !HasRows(db.txs, payouts[i].group);
  }

  /**
    In every reachable state the audit counts as confirmed, pending, failed and unstarted the payouts of
    the finished groups, of those with a pending row, of the unattached ones with rows, and of those without.
    */
  lemma AuditCounts(genesis: State, log: seq<Event>, receipts: Hash -> NodeAnswer)
    requires IsGenesis(genesis) && Legal(genesis, log)
    requires ReceiptsAreComplete(receipts, Replay(genesis, log).chain.mined)
    ensures var db := Replay(genesis, log).db; var payouts := db.payouts;
            && CountBucket(payouts, db, receipts, AllConfirmed)
                 == |set i: nat | i < |payouts| && !Unfinished(db, payouts[i].group)|
            && CountBucket(payouts, db, receipts, StillPending)
                 == |set i: nat | i < |payouts| && Attached(db.txs, payouts[i].group)|
            && CountBucket(payouts, db, receipts, OnlyFailed)
                 == |set i: nat | i < |payouts| && Unattached(db, payouts[i].group)
                     && HasRows(db.txs, payouts[i].group)|
            && CountBucket(payouts, db, receipts, Unstarted)
                 == |set i: nat | i < |payouts| && !HasRows(db.txs, payouts[i].group)|
  {
    hide IsGenesis, Legal, Replay, ReceiptsAreComplete, BucketOf, RowsOf, Inv, CountBucket, Unattached, Attached,
      HasRows;
    var s := Replay(genesis, log);
    LegalInv(genesis, log);
    GroupsExist(genesis, log);
    forall i | 0 <= i < |s.db.payouts|
      ensures var p := s.db.payouts[i];
              && (InBucket(p, s.db, receipts, AllConfirmed) <==> !Unfinished(s.db, p.group))
              && (InBucket(p, s.db, receipts, StillPending) <==> Attached(s.db.txs, p.group))
              && (InBucket(p, s.db, receipts, OnlyFailed) <==> Unattached(s.db, p.group) && HasRows(s.db.txs, p.group))
              && (InBucket(p, s.db, receipts, Unstarted) <==> !HasRows(s.db.txs, p.group))
    {
      GroupBucket(s, s.db.payouts[i].group, receipts);
    }
    CountGroups(s.db.payouts, s.db, receipts);
  }

  /** Every receipt carries the final hash of its payout's group. */
  lemma ReceiptIsFinalHash(genesis: State, log: seq<Event>, receipts: Hash -> NodeAnswer, group: int)
    requires IsGenesis(genesis) && Legal(genesis, log) && group in Replay(genesis, log).db.finals
    requires ReceiptsAreComplete(receipts, Replay(genesis, log).chain.mined)
    ensures var db := Replay(genesis, log).db;
            ReceiptHash(RowsOf(db.txs, group), receipts) == db.finals[group]
  {
    hide IsGenesis, Legal, Replay, ReceiptsAreComplete, BucketOf, RowsOf, Inv;
    var s := Replay(genesis, log);
    LegalInv(genesis, log);
    if s.db.finals[group].Some? { FinishedBucket(s, group, receipts); } else { UnfinishedBucket(s, group, receipts); }
  }
}
