/** A whole payout: any number of processes, one after the other, each of which may die anywhere. */
module Runs {
  import opened Wrappers
  import opened Tables
  import opened Protocol
  import opened Safety
  import opened Books
  import opened Database
  import opened Network
  import opened Conduct
  import opened Progress
  import opened Settling
  import opened Stuck
  import opened Import
  import opened A = Audit
  import P = Pipeline
  import Ledger

  /** How one process is started, and after how many polls it is interrupted at the latest. */
  datatype Start = Start(kind: Kind, limit: int, drain: bool, steps: nat)

  /** Every account holds what the payouts recorded as confirmed make it hold. */
  ghost predicate LedgerMatches(genesis: State, log: seq<Event>) {
    var s := Replay(genesis, log);
    forall a: Address ::
      Ledger.Bal(s.chain.ledger, a) == Ledger.Bal(genesis.chain.ledger, a) + OtherDelta(genesis, log, a)
        + ConfirmedTo(s.db.txs, a) - (if a == genesis.chain.owner then ConfirmedTotal(s.db.txs) else 0)
  }

  /** No group has two rows whose transfers went through. */
  predicate PaidOnce(s: State) {
    forall i, j :: (0 <= i < |s.db.txs| && 0 <= j < |s.db.txs| && s.db.txs[i].group == s.db.txs[j].group
                    && Paid(s.chain.mined, s.db.txs[i].hash) && Paid(s.chain.mined, s.db.txs[j].hash)) ==> i == j
  }

  lemma LegalPaidOnce(genesis: State, log: seq<Event>)
    requires IsGenesis(genesis) && Legal(genesis, log)
    ensures PaidOnce(Replay(genesis, log))
  {
    hide IsGenesis, Legal, Replay, Paid;
    var s := Replay(genesis, log);
    forall i, j | 0 <= i < |s.db.txs| && 0 <= j < |s.db.txs| && s.db.txs[i].group == s.db.txs[j].group
      && Paid(s.chain.mined, s.db.txs[i].hash) && Paid(s.chain.mined, s.db.txs[j].hash)
      ensures i == j
    {
      PaidAtMostOnce(genesis, log, i, j);
    }
  }

  lemma FinishedMatches(genesis: State, log: seq<Event>)
    requires IsGenesis(genesis) && Legal(genesis, log)
    requires !AnyInFlight(Replay(genesis, log).db.txs) && AllFinished(Replay(genesis, log).db)
    ensures LedgerMatches(genesis, log)
  {
    hide IsGenesis, Legal, Replay, OtherDelta, ConfirmedTo, ConfirmedTotal, AnyInFlight;
    CleanFinish(genesis, log);
  }

  /**
    Runs the processes one after the other.  Nobody is ever paid twice; and when the last one reports
    success without draining, everybody was paid exactly once and the ledger shows it.  (A negative limit
    attaches nothing, so that its success says no more than that of a draining process.)
    */
  method RunAll(net: Network, starts: seq<Start>) returns (finished: bool)
    requires net.Valid()
    modifies net, net.db, net.db.faults
    ensures net.Valid() && PaidOnce(net.World()) && old(net.log) <= net.log
    ensures forall kind :: AllOfKind(starts, kind) ==> ActsAs(kind, net.genesis, net.log, |old(net.log)|)
    ensures finished && starts != [] ==> !AnyInFlight(net.db.txs)
    ensures finished && starts != [] && !starts[|starts| - 1].drain && starts[|starts| - 1].limit >= 0 ==>
              AllFinished(net.db.State()) && LedgerMatches(net.genesis, net.log)
  {
    hide Legal, IsGenesis, Replay, PaidOnce, AnyInFlight, AllFinished, LedgerMatches, ActsAs;
    finished := false;
    ghost var log0 := net.log;
    forall kind { NothingDone(kind, net.genesis, log0); }
    for k := 0 to |starts|
      invariant net.Valid() && log0 <= net.log
      invariant forall kind :: AllOfKind(starts[..k], kind) ==> ActsAs(kind, net.genesis, net.log, |log0|)
      invariant finished && k > 0 ==> !AnyInFlight(net.db.txs)
      invariant finished && k > 0 && !starts[k - 1].drain && starts[k - 1].limit >= 0 ==> AllFinished(net.db.State())
    {
      ghost var log1 := net.log;
      var p := new P.Pipeline(starts[k].kind, net, starts[k].limit, starts[k].drain);
      var err := p.ProcessPayouts(starts[k].steps);
      finished := err.None?;
      forall kind | AllOfKind(starts[..k + 1], kind) ensures ActsAs(kind, net.genesis, net.log, |log0|) {
        assert starts[..k + 1] == starts[..k] + [starts[k]];
        assert starts[..k + 1][k].kind == kind;
        assert AllOfKind(starts[..k], kind);
        GoesOnAs(kind, net.genesis, log1, net.log, |log0|);
      }
    }
    assert starts[..|starts|] == starts;
    LegalPaidOnce(net.genesis, net.log);
    if finished && starts != [] && !starts[|starts| - 1].drain && starts[|starts| - 1].limit >= 0 {
      FinishedMatches(net.genesis, net.log);
    }
  }

  predicate AllOfKind(starts: seq<Start>, kind: Kind) {
    forall k :: 0 <= k < |starts| ==> starts[k].kind == kind
  }

  /**
    After a crash between recording and sending, when no transaction of the nonce reached a node, a zkSync
    Era payout cannot be resumed: whatever zkSync Era processes are started, none reports success, and the
    row stays pending.
    */
  method ResumeZkSync(net: Network, starts: seq<Start>, ghost j: nat) returns (finished: bool)
    requires net.Valid() && AllOfKind(starts, ZkSyncEra)
    requires IsPending(net.World(), j) && Unsent(net.World(), net.db.txs[j].nonce)
    modifies net, net.db, net.db.faults
    ensures net.Valid() && IsPending(net.World(), j) && (starts != [] ==> !finished)
    ensures forall n <- net.chain.mined :: n < old(net.db.txs[j].nonce)
  {
    hide Legal, IsGenesis, Replay, AnyInFlight, AllFinished, LedgerMatches, ActsAs, PaidOnce, Unsent;
    ghost var log0 := net.log;
    finished := RunAll(net, starts);
    assert net.log[..|log0|] == log0;
    NeverSentBlocks(net.genesis, |log0|, net.log, j);
    SomethingPending(net.World(), j);
  }

  lemma SomethingPending(s: State, j: nat)
    requires IsPending(s, j)
    ensures AnyInFlight(s.db.txs)
  {}

  /**
    From CSV records to the first state of a payout: an imported database in front of an unused account.
    Only a bad record or a failing write can prevent it.
    */
  method Begin(db: DB, records: seq<seq<string>>, readers: Readers, chain: Chain, now: nat) returns (r: Option<Network>)
    requires AllNonEmpty(records) && db.State() == Tables([], map[], [])
    modifies db, db.faults
    requires chain.sent == {} && chain.mined == map[] && Ledger.Conserved(chain.ledger)
    ensures r.Some? ==>
              && fresh(r.value) && r.value.db == db && r.value.Valid() && r.value.log == []
              && r.value.chain == chain
    ensures db.faults.count
              == if r.None? && forall i :: 0 <= i < |records| ==> !IsBad(records, readers, i)
                 then old(db.faults.count) + 1 else old(db.faults.count)
    ensures r.Some? ==> r.value.db.txs == [] && exists rows ::
                          RowsAreData(rows, records, readers) && r.value.db.State() == OneGroupEach(PayoutsFrom(rows))
  {
    hide IsGenesis, RowsAreData, OneGroupEach, PayoutsFrom, IsBad, IsFirst, HasLine, Ledger.Conserved;
    var parsed := Parse(records, readers);
    if parsed.Err? { return None; }
    var payouts := FromCSV(parsed.value);
    var ok := CreatePayoutGroups(db, payouts);
    if !ok { return None; }
    ImportIsGenesis(parsed.value, records, readers, chain, now);
    var net := new Network(db, chain, now);
    return Some(net);
  }

  /**
    A payer that confirms each batch at the k-th check takes at most k steps per batch, and one to notice
    the end.  So a process that is given more polls than that ends by itself: with success after exactly k
    steps per batch, if it meets neither an error nor its death.
    */
  method RunConfirming(p: P.Pipeline, steps: nat, ghost k: nat)
    returns (ended: bool, err: Option<Error>, ghost records: seq<StepRecord>)
    requires p.Ready() && p.Pending() == 0 && !p.drain && p.limit > 0 && k > 0
    modifies p, p.net, p.net.db, p.nonceGroups, p.net.db.faults
    ensures p.net.Valid()
    ensures var bound := k * ((old(p.Left()) + p.limit - 1) / p.limit);
            ConfirmsEvery(records, k) ==>
              && |records| <= bound
              && (ended && err.None? ==> |records| == bound)
              && (steps > bound ==> ended)
  {
    hide Legal, IsGenesis, Replay, P.Follows, Views, AllFinished, AnyInFlight, P.QuietAfterFailure, UnattachedSet,
      IsRun,
      ConfirmsEvery, ActsAs;
    ended, err, records := p.RunSteps(steps);
    if ConfirmsEvery(records, k) {
      StepsTaken(records, old(p.Left()), p.limit, k);
    }
  }

  /** An audit at any moment of a payout, against a truthful node, has nothing to complain about. */
  method AuditPayout(net: Network, csvPayouts: seq<Payout>, node: Hash -> NodeAnswer, receipts: Hash -> NodeAnswer,
      out: bool, force: bool)
    returns (r: Result<Report, Error>)
    requires net.Valid()
    requires NodeIsTruthful(node, net.chain.mined) && ReceiptsAreComplete(receipts, net.chain.mined)
    ensures r.Ok? ==>
              var stats := r.value.stats;
              && stats.doublePays == stats.overpaid == stats.falseConfirmed == stats.dropped == stats.unknown == 0
              && stats.confirmed + stats.unstarted + stats.pending + stats.failed == stats.total == |net.db.payouts|
              && stats.confirmed == |r.value.lines|
    ensures r.Ok? ==>
              var stats, db := r.value.stats, net.db.State(); var payouts := db.payouts;
              && stats.confirmed == |set i: nat | i < |payouts| && !Unfinished(db, payouts[i].group)|
              && stats.pending == |set i: nat | i < |payouts| && Attached(db.txs, payouts[i].group)|
              && stats.failed
                   == |set i: nat | i < |payouts| && Unattached(db, payouts[i].group)
                       && HasRows(db.txs, payouts[i].group)|
              && stats.unstarted == |set i: nat | i < |payouts| && !HasRows(db.txs, payouts[i].group)|
  {
    hide Legal, IsGenesis, Replay, NodeIsTruthful, ReceiptsAreComplete, CountBucket, ReceiptLines, DoublePays,
      DoublePayTokens, Disputed, Unfinished, Attached, Unattached, HasRows;
    r := A.Audit(csvPayouts, net.db.State(), node, receipts, out, force);
    forall b | NeverAfterPipeline(b) { AuditAgrees(net.genesis, net.log, node, receipts, b); }
    assert NeverAfterPipeline(Overpaid);
    BucketsPartition(net.db.payouts, net.db.State(), receipts);
    OneReceiptEach(net.db.payouts, net.db.State(), receipts);
    AuditCounts(net.genesis, net.log, receipts);
    if r.Ok? { CountsByName(r.value.stats); }
  }
}
