/** The statistics shown before a payout: what they add up to, and what the estimate is worth. */
module Stats {
  import opened Wrappers
  import opened Money
  import opened Tables
  import opened Protocol
  import opened Database

  datatype DBStats = DBStats(
    payees: nat, totalPayouts: nat, totalUSD: Decimal,
    pendingPayouts: nat, pendingUSD: Decimal,
    totalPayoutGroups: nat, pendingPayoutGroups: nat,
    totalTransactions: nat, pendingTransactions: nat, failedTransactions: nat,
    confirmedTransactions: nat, droppedTransactions: nat)

  /** A decimal that was never assigned; another zero than the library's named one. */
  const UNSET := Decimal(0, 0)

  function AddUp(payouts: seq<Payout>): Decimal {
    if payouts == [] then UNSET else Add(AddUp(payouts[..|payouts| - 1]), payouts[|payouts| - 1].usd)
  }

  /** SELECT payouts of the groups without a final hash. */
  function PendingPayouts(payouts: seq<Payout>, db: Tables): (r: seq<Payout>)
    ensures forall p :: p in r <==> p in payouts && Unfinished(db, p.group)
  {
    if payouts == [] then []
    else
      var rest, last := PendingPayouts(payouts[..|payouts| - 1], db), payouts[|payouts| - 1];
      assert payouts == payouts[..|payouts| - 1] + [last];
      if Unfinished(db, last.group) then rest + [last] else rest
  }

  function CountState(txs: seq<TxRow>, state: TxState): nat {
    if txs == [] then 0
    else CountState(txs[..|txs| - 1], state) + if txs[|txs| - 1].state == state then 1 else 0
  }

  lemma {:induction false} CountUpTo(txs: seq<TxRow>, state: TxState, k: nat, p: nat -> bool)
    requires k <= |txs| && forall i: nat :: i < |txs| ==> (p(i) <==> txs[i].state == state)
    ensures CountState(txs[..k], state) == |set i: nat | i < k && p(i)|
  {
    if k > 0 {
      CountUpTo(txs, state, k - 1, p);
      OneMore(k - 1, p);
      assert txs[..k][..k - 1] == txs[..k - 1];
    }
  }

  lemma CountIsSize(txs: seq<TxRow>, state: TxState)
    ensures CountState(txs, state) == |set i: nat | i < |txs| && txs[i].state == state|
  {
    var p := (i: nat) => i < |txs| && txs[i].state == state;
    CountUpTo(txs, state, |txs|, p);
    assert txs[..|txs|] == txs;
    assert (set i: nat | i < |txs| && txs[i].state == state) == set i: nat | i < |txs| && p(i);
  }

  lemma {:induction false} PendingUpTo(payouts: seq<Payout>, db: Tables, k: nat, p: nat -> bool)
    requires k <= |payouts| && forall i: nat :: i < |payouts| ==> (p(i) <==> Unfinished(db, payouts[i].group))
    ensures |PendingPayouts(payouts[..k], db)| == |set i: nat | i < k && p(i)|
  {
    hide Unfinished;
    if k > 0 {
      PendingUpTo(payouts, db, k - 1, p);
      OneMore(k - 1, p);
      assert payouts[..k][..k - 1] == payouts[..k - 1];
    }
  }

  lemma PendingIsSize(payouts: seq<Payout>, db: Tables)
    ensures |PendingPayouts(payouts, db)| == |set i: nat | i < |payouts| && Unfinished(db, payouts[i].group)|
  {
    hide Unfinished;
    var p := (i: nat) => i < |payouts| && Unfinished(db, payouts[i].group);
    PendingUpTo(payouts, db, |payouts|, p);
    assert payouts[..|payouts|] == payouts;
    assert (set i: nat | i < |payouts| && Unfinished(db, payouts[i].group)) == set i: nat | i < |payouts| && p(i);
  }

  method Collect(db: DB) returns (r: Result<DBStats, Error>)
    modifies db.faults
    ensures r.Ok? ==>
              var stats, t := r.value, db.State();
              && stats.payees == |set p <- t.payouts :: p.payee|
              && stats.totalPayouts == |t.payouts| && stats.totalUSD == AddUp(t.payouts)
              && stats.pendingPayouts == |set i: nat | i < |t.payouts| && Unfinished(t, t.payouts[i].group)|
              && stats.pendingUSD == AddUp(PendingPayouts(t.payouts, t))
              && stats.totalPayoutGroups == |t.finals.Keys| && stats.pendingPayoutGroups == |UnfinishedSet(t)|
              && stats.totalTransactions == |t.txs|
              && stats.pendingTransactions == |set i: nat | i < |t.txs| && t.txs[i].state == Pending|
              && stats.failedTransactions == |set i: nat | i < |t.txs| && t.txs[i].state == Failed|
              && stats.confirmedTransactions == |set i: nat | i < |t.txs| && t.txs[i].state == Confirmed|
              && stats.droppedTransactions == |set i: nat | i < |t.txs| && t.txs[i].state == Dropped|
              && stats.pendingTransactions + stats.failedTransactions + stats.confirmedTransactions
                   + stats.droppedTransactions == stats.totalTransactions
    ensures r.Err? ==> r.error.DatabaseError?
    ensures db.faults.count == if r.Err? then old(db.faults.count) + 1 else old(db.faults.count)
  {
    var payouts := db.payouts;
    var payees: set<Address>, totalUSD := {}, UNSET;
    for i := 0 to |payouts|
      invariant payees == (set p <- payouts[..i] :: p.payee) && totalUSD == AddUp(payouts[..i])
    {
      assert payouts[..i + 1] == payouts[..i] + [payouts[i]];
      payees := payees + {payouts[i].payee};
      totalUSD := Add(totalUSD, payouts[i].usd);
    }
    assert payouts[..|payouts|] == payouts;
    var pending := PendingPayouts(payouts, db.State());
    var pendingUSD := UNSET;
    for i := 0 to |pending|
      invariant pendingUSD == AddUp(pending[..i])
    {
      assert pending[..i + 1][..i] == pending[..i];
      pendingUSD := Add(pendingUSD, pending[i].usd);
    }
    assert pending[..|pending|] == pending;
    var ioError: bool := *;
    if ioError {
      db.faults.Add();
      return Err(DatabaseError);
    }
    StatesAddUp(db.txs);
    forall state { CountIsSize(db.txs, state); }
    PendingIsSize(payouts, db.State());
    return Ok(DBStats(|payees|, |payouts|, totalUSD, |pending|, pendingUSD,
                      |db.finals.Keys|, |UnfinishedSet(db.State())|,
                      |db.txs|, CountState(db.txs, Pending), CountState(db.txs, Failed),
                      CountState(db.txs, Confirmed), CountState(db.txs, Dropped)));
  }

  /** Every transaction is counted under exactly one state. */
  lemma {:induction false} StatesAddUp(txs: seq<TxRow>)
    ensures CountState(txs, Pending) + CountState(txs, Failed) + CountState(txs, Confirmed) +
              CountState(txs, Dropped) == |txs|
  {
    if txs != [] { StatesAddUp(txs[..|txs| - 1]); }
  }

  ghost function ConfirmedGroups(txs: seq<TxRow>): set<int> {
    set row <- txs | row.state.Confirmed? :: row.group
  }

  predicate OneConfirmedPerGroup(txs: seq<TxRow>) {
    forall i, j :: 0 <= i < j < |txs| && txs[i].state.Confirmed? && txs[j].state.Confirmed? ==>
        txs[i].group != txs[j].group
  }

  lemma {:induction false} ConfirmedByGroup(txs: seq<TxRow>)
    requires OneConfirmedPerGroup(txs)
    ensures |ConfirmedGroups(txs)| == CountState(txs, Confirmed)
  {
    if txs != [] {
      var init, last := txs[..|txs| - 1], txs[|txs| - 1];
      ConfirmedByGroup(init);
      assert txs == init + [last];
      assert ConfirmedGroups(txs) == ConfirmedGroups(init) + if last.state.Confirmed? then {last.group} else {};
      if last.state.Confirmed? { assert last.group !in ConfirmedGroups(init); }
    }
  }

  /** In every reachable state the confirmed transactions are as many as the finished groups. */
  lemma ConfirmedAreFinished(genesis: State, log: seq<Event>)
    requires IsGenesis(genesis) && Legal(genesis, log)
    ensures var db := Replay(genesis, log).db;
            CountState(db.txs, Confirmed) + |UnfinishedSet(db)| == |db.finals.Keys|
  {
    hide IsGenesis, Legal, Replay, RowsInv, FinalsInv, TruthInv, PendingInv, ContiguousInv, ChainInv, DroppedInv,
      SpacedInv,
      CountState, ConfirmedGroups, OneConfirmedPerGroup, FinishedSet, UnfinishedSet;
    LegalInv(genesis, log);
    var db := Replay(genesis, log).db;
    FinalsConfirmOnce(db);
    ConfirmedByGroup(db.txs);
    FinishedAndNot(db);
  }

  lemma FinalsConfirmOnce(db: Tables)
    requires RowsInv(db) && FinalsInv(db)
    ensures OneConfirmedPerGroup(db.txs)
    ensures ConfirmedGroups(db.txs) == FinishedSet(db)
  {
    forall g | g in FinishedSet(db) ensures g in ConfirmedGroups(db.txs) {
      assert ConfirmedRow(db.txs, g, db.finals[g].value);
    }
  }

  ghost function FinishedSet(db: Tables): set<int> {
    set g <- db.finals.Keys | db.finals[g].Some?
  }

  lemma FinishedAndNot(db: Tables)
    ensures |FinishedSet(db)| + |UnfinishedSet(db)| == |db.finals.Keys|
  {
    assert db.finals.Keys == FinishedSet(db) + UnfinishedSet(db);
    assert FinishedSet(db) !! UnfinishedSet(db);
  }

  lemma {:induction false} AddUpIsSum(payouts: seq<Payout>)
    requires forall p <- payouts :: p.usd.coef >= 0
    ensures Equal(AddUp(payouts), SumUSD(AmountsOf(payouts))) && AddUp(payouts).coef >= 0
  {
    hide Scale, Add, PowerOfTen;
    if payouts != [] {
      var init, last := payouts[..|payouts| - 1], payouts[|payouts| - 1];
      AddUpIsSum(init);
      assert AmountsOf(payouts)[..|init|] == AmountsOf(init);
      AddIsExact(AddUp(init), last.usd);
      AddIsExact(SumUSD(AmountsOf(init)), last.usd);
      SumOfNonNegative(AddUp(init), last.usd);
    }
  }

  lemma SumOfNonNegative(a: Decimal, b: Decimal)
    requires a.coef >= 0 && b.coef >= 0
    ensures Add(a, b).coef >= 0
  {
    var e := Min(a.exp, b.exp);
    NonNegativeProduct(a.coef, PowerOfTen(a.exp - e));
    NonNegativeProduct(b.coef, PowerOfTen(b.exp - e));
  }

  /**
    What the preview estimates from the pending USD: at the same price, paying each pending payout
    takes at most that, and falls short of it by less than one unit per payout.
    */
  lemma PreviewBoundsBatch(payouts: seq<Payout>, price: Decimal, decimals: int)
    requires price.coef > 0 && AllConvert(AmountsOf(payouts), price, decimals)
    requires FromUSD(AddUp(payouts), price, decimals).Some?
    ensures var estimate := FromUSD(AddUp(payouts), price, decimals).value;
            var sent := SumTokens(AmountsOf(payouts), price, decimals);
            sent <= estimate && (payouts != [] ==> estimate < sent + |payouts|)
  {
    hide FromUSD, Exact, Equal, AddUp, SumUSD, SumTokens;
    var usd := AmountsOf(payouts);
    assert forall p <- payouts :: p.usd in usd;
    AddUpIsSum(payouts);
    SumTokensNearExact(usd, price, decimals);
    ExactIgnoresRepresentation(AddUp(payouts), SumUSD(usd), price, decimals);
    FromUSDIsFloor(AddUp(payouts), price, decimals);
  }
}
