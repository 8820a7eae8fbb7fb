/** The books: payouts against the token ledger, and the counts the program reports. */
module Books {
  import opened Tables
  import opened Protocol
  import opened Safety
  import Ledger

  // ---------------------------------------------------------------- tokens

  /** What a row's transfer does to the balance of one account, if it went through. */
  function RowDelta(row: TxRow, mined: map<nat, Receipt>, owner: Address, a: Address): int {
    if Paid(mined, row.hash) && row.tokens >= 0 then Ledger.Delta(a, owner, row.hash.body.payee, row.tokens) else 0
  }

  function PaidDelta(txs: seq<TxRow>, mined: map<nat, Receipt>, owner: Address, a: Address): int {
    if txs == [] then 0
    else PaidDelta(txs[..|txs| - 1], mined, owner, a) + RowDelta(txs[|txs| - 1], mined, owner, a)
  }

  /** What all token calls other than payouts did to the balance of one account. */
  function OtherDelta(genesis: State, log: seq<Event>, a: Address): int {
    if log == [] then 0
    else
      var before, last := Replay(genesis, log[..|log| - 1]), log[|log| - 1];
      OtherDelta(genesis, log[..|log| - 1], a) +
      (if last.External?
       then Ledger.Bal(Apply(before, last).chain.ledger, a) - Ledger.Bal(before.chain.ledger, a) else 0)
  }

  /** Two tables whose transfers had the same effect row by row. */
  lemma {:induction false} SameDelta(txs: seq<TxRow>, txs': seq<TxRow>, mined: map<nat, Receipt>,
      mined': map<nat, Receipt>, owner: Address, a: Address)
    requires |txs| == |txs'|
    requires forall i :: 0 <= i < |txs| ==> RowDelta(txs'[i], mined', owner, a) == RowDelta(txs[i], mined, owner, a)
    ensures PaidDelta(txs', mined', owner, a) == PaidDelta(txs, mined, owner, a)
  {
    if txs != [] { SameDelta(txs[..|txs| - 1], txs'[..|txs| - 1], mined, mined', owner, a); }
  }

  /** When one row's transfer goes through, the sum changes by exactly that row. */
  lemma {:induction false} OneRowPays(txs: seq<TxRow>, mined: map<nat, Receipt>, mined': map<nat, Receipt>,
      owner: Address, a: Address, w: nat)
    requires w < |txs|
    requires forall i :: 0 <= i < |txs| && i != w ==>
               RowDelta(txs[i], mined', owner, a) == RowDelta(txs[i], mined, owner, a)
    ensures PaidDelta(txs, mined', owner, a) ==
            PaidDelta(txs, mined, owner, a) + RowDelta(txs[w], mined', owner, a) - RowDelta(txs[w], mined, owner, a)
  {
    var init := txs[..|txs| - 1];
    if w == |txs| - 1 {
      SameDelta(init, init, mined, mined', owner, a);
    } else {
      OneRowPays(init, mined, mined', owner, a, w);
    }
  }

  lemma MineChangesOneRow(s: State, hash: Hash, success: bool, a: Address) returns (w: nat)
    requires Inv(s) && Enabled(s, Mine(hash, success))
    ensures w < |s.db.txs| && s.db.txs[w].hash == hash
    ensures var mined' := MineOn(s.chain, hash, success).mined;
            && !Paid(s.chain.mined, hash) && (Paid(mined', hash) <==> success)
            && forall i :: 0 <= i < |s.db.txs| && i != w ==>
                 RowDelta(s.db.txs[i], mined', s.chain.owner, a) ==
                     RowDelta(s.db.txs[i], s.chain.mined, s.chain.owner, a)
  {
    hide PendingInv, ContiguousInv, DroppedInv, SpacedInv, TruthInv, FinalsInv, AfterMine, Ledger.Delta;
    assert InTable(s.db.txs, hash);
    w :| 0 <= w < |s.db.txs| && s.db.txs[w].hash == hash;
    assert s.chain.next !in s.chain.mined;
  }

  lemma MineBalances(s: State, hash: Hash, success: bool, a: Address)
    requires Inv(s) && Enabled(s, Mine(hash, success))
    ensures var c, c' := s.chain, MineOn(s.chain, hash, success);
            Ledger.Bal(c'.ledger, a) - Ledger.Bal(c.ledger, a) ==
            PaidDelta(s.db.txs, c'.mined, c.owner, a) - PaidDelta(s.db.txs, c.mined, c.owner, a)
  {
    hide PendingInv, ContiguousInv, DroppedInv, SpacedInv, TruthInv, FinalsInv, PaidDelta, Paid, ChainInv, InTable,
      Ledger.Exec;
    var c' := MineOn(s.chain, hash, success);
    var w := MineChangesOneRow(s, hash, success, a);
    OneRowPays(s.db.txs, s.chain.mined, c'.mined, s.chain.owner, a, w);
    assert s.db.txs[w].tokens == hash.body.tokens;
    if success {
      var call := PayoutCall(s.chain, hash.body);
      Ledger.TransferMovesValue(s.chain.ledger, s.chain.spender, call, s.chain.owner, a, a);
    }
  }

  lemma StatusesKeepTransactions(db: Tables, group: int, statuses: seq<TxStatus>, i: nat)
    requires i < |db.txs|
    ensures SameTransaction(db.txs[i], ApplyStatuses(db, group, statuses).txs[i])
  {
    if statuses != [] { StatusesKeepTransactions(db, group, statuses[..|statuses| - 1], i); }
  }

  lemma FinalizeKeepsDelta(s: State, group: int, statuses: seq<TxStatus>, a: Address)
    ensures PaidDelta(ApplyStatuses(s.db, group, statuses).txs, s.chain.mined, s.chain.owner, a) ==
            PaidDelta(s.db.txs, s.chain.mined, s.chain.owner, a)
  {
    hide PaidDelta;
    var txs' := ApplyStatuses(s.db, group, statuses).txs;
    forall i | 0 <= i < |s.db.txs|
      ensures RowDelta(txs'[i], s.chain.mined, s.chain.owner, a) ==
                RowDelta(s.db.txs[i], s.chain.mined, s.chain.owner, a)
    {
      StatusesKeepTransactions(s.db, group, statuses, i);
    }
    SameDelta(s.db.txs, txs', s.chain.mined, s.chain.mined, s.chain.owner, a);
  }

  lemma CreateKeepsDelta(s: State, row: TxRow, a: Address)
    requires Inv(s) && !InTable(s.db.txs, row.hash)
    ensures PaidDelta(s.db.txs + [row], s.chain.mined, s.chain.owner, a) ==
              PaidDelta(s.db.txs, s.chain.mined, s.chain.owner, a)
  {
    hide RowsInv, PendingInv, ContiguousInv, DroppedInv, SpacedInv, TruthInv, FinalsInv;
    assert (s.db.txs + [row])[..|s.db.txs|] == s.db.txs;
    assert row.hash !in s.chain.sent;
  }

  ghost predicate Balanced(genesis: State, log: seq<Event>, a: Address) {
    var s := Replay(genesis, log);
    && s.chain.owner == genesis.chain.owner && s.chain.spender == genesis.chain.spender
    && Ledger.Bal(s.chain.ledger, a) == Ledger.Bal(genesis.chain.ledger, a) + OtherDelta(genesis, log, a)
         + PaidDelta(s.db.txs, s.chain.mined, genesis.chain.owner, a)
  }

  /** A step other than an outside call changes a balance by exactly the payouts that go through. */
  lemma EventBalances(s: State, e: Event, a: Address)
    requires Inv(s) && Enabled(s, e)
    ensures var c, c' := s.chain, Apply(s, e).chain;
            && c'.owner == c.owner && c'.spender == c.spender
            && Ledger.Bal(c'.ledger, a) - PaidDelta(Apply(s, e).db.txs, c'.mined, c.owner, a) ==
                 Ledger.Bal(c.ledger, a) - PaidDelta(s.db.txs, c.mined, c.owner, a)
                   + (if e.External? then Ledger.Bal(c'.ledger, a) - Ledger.Bal(c.ledger, a) else 0)
  {
    hide Inv, CanFinalize, IsAttach, IsResend, RowPaysPayout, PaidDelta, InTable, AfterMine, ApplyStatuses, Ledger.Exec;
    match e
    case Create(row) => CreateKeepsDelta(s, row, a);
    case Finalize(nonce, group, statuses, winner) => FinalizeKeepsDelta(s, group, statuses, a);
    case Mine(hash, success) => MineBalances(s, hash, success, a);
    case _ =>
  }

  lemma StepBalances(genesis: State, log: seq<Event>, a: Address)
    requires log != [] && Balanced(genesis, log[..|log| - 1], a)
    requires Inv(Replay(genesis, log[..|log| - 1])) && Enabled(Replay(genesis, log[..|log| - 1]), log[|log| - 1])
    ensures Balanced(genesis, log, a)
  {
    hide Inv, Apply, Enabled, PaidDelta, Ledger.Bal;
    EventBalances(Replay(genesis, log[..|log| - 1]), log[|log| - 1], a);
  }

  /**
    In every reachable state an account holds what it started with, plus what calls other than payouts
    did, plus the tokens of the recorded transactions that paid it, minus those it paid as the owner.
    */
  lemma {:induction false} BalanceSheet(genesis: State, log: seq<Event>, a: Address)
    requires IsGenesis(genesis) && Legal(genesis, log)
    ensures Balanced(genesis, log, a)
  {
    hide IsGenesis, Enabled, Inv;
    if log == [] {
      assert Replay(genesis, []).db.txs == [] by { NoRowsAtStart(genesis); }
    } else {
      BalanceSheet(genesis, log[..|log| - 1], a);
      LegalInv(genesis, log[..|log| - 1]);
      StepBalances(genesis, log, a);
    }
  }

  lemma NoRowsAtStart(genesis: State)
    requires IsGenesis(genesis)
    ensures genesis.db.txs == []
  {}

  /** The ledger stays conserved under the payouts and everything else. */
  lemma {:induction false} LedgerConserved(genesis: State, log: seq<Event>)
    requires IsGenesis(genesis) && Legal(genesis, log)
    ensures Ledger.Conserved(Replay(genesis, log).chain.ledger)
  {
    if log != [] {
      hide Ledger.Conserved, Ledger.Exec, CanCreate, CanFinalize, ApplyStatuses, InTable;
      var s := Replay(genesis, log[..|log| - 1]);
      LedgerConserved(genesis, log[..|log| - 1]);
      match log[|log| - 1]
      case Mine(hash, success) =>
        if success { Ledger.ExecConserves(s.chain.ledger, s.chain.spender, PayoutCall(s.chain, hash.body)); }
      case External(sender, call) => Ledger.ExecConserves(s.chain.ledger, sender, call);
      case _ =>
    }
  }

  // ---------------------------------------------------------------- clean finish

  /** Tokens recorded on confirmed rows, received by one account. */
  function ConfirmedTo(txs: seq<TxRow>, a: Address): int {
    if txs == [] then 0
    else
      var row := txs[|txs| - 1];
      ConfirmedTo(txs[..|txs| - 1], a) + (if row.state.Confirmed? && row.hash.body.payee == a then row.tokens else 0)
  }

  function ConfirmedTotal(txs: seq<TxRow>): int {
    if txs == [] then 0
    else
      var row := txs[|txs| - 1];
      ConfirmedTotal(txs[..|txs| - 1]) + (if row.state.Confirmed? then row.tokens else 0)
  }

  lemma {:induction false} ConfirmedIsPaid(txs: seq<TxRow>, mined: map<nat, Receipt>, owner: Address, a: Address)
    requires forall i :: 0 <= i < |txs| ==>
               txs[i].tokens >= 0 && (txs[i].state.Confirmed? <==> Paid(mined, txs[i].hash))
    ensures PaidDelta(txs, mined, owner, a) == ConfirmedTo(txs, a) - (if a == owner then ConfirmedTotal(txs) else 0)
  {
    if txs != [] { ConfirmedIsPaid(txs[..|txs| - 1], mined, owner, a); }
  }

  lemma ConfirmedIffPaid(s: State, i: nat)
    requires Inv(s) && i < |s.db.txs| && !s.db.txs[i].state.Pending?
    ensures s.db.txs[i].state.Confirmed? <==> Paid(s.chain.mined, s.db.txs[i].hash)
    ensures s.db.txs[i].tokens >= 0
  {
    hide PendingInv, ContiguousInv, DroppedInv, SpacedInv, ChainInv, FinalsInv;
    assert RowTruth(s.db.txs[i], s.chain.mined);
  }

  /** Every group has its final hash. */
  predicate AllFinished(db: Tables) {
    forall g <- db.finals :: db.finals[g].Some?
  }

  /** With nothing pending every group is finished iff no group is left to attach. */
  lemma NothingLeft(db: Tables)
    requires !AnyInFlight(db.txs)
    ensures AllFinished(db) <==> UnattachedSet(db) == {}
  {
    if UnattachedSet(db) == {} {
      forall g <- db.finals ensures db.finals[g].Some? { assert g !in UnattachedSet(db); }
    }
  }

  /**
    The clean finish: every group has exactly one confirmed row, and apart from calls other than
    payouts each account gained exactly the recorded tokens of the confirmed rows that pay it, while the
    owner spent their total.
    */
  lemma CleanFinish(genesis: State, log: seq<Event>)
    requires IsGenesis(genesis) && Legal(genesis, log)
    requires var db := Replay(genesis, log).db;
             !AnyInFlight(db.txs) && AllFinished(db)
    ensures var s := Replay(genesis, log);
            && (forall g <- s.db.finals ::
                  ConfirmedRow(s.db.txs, g, s.db.finals[g].value) && AtMostOneConfirmed(s.db.txs, g))
            && forall a: Address ::
                 Ledger.Bal(s.chain.ledger, a) == Ledger.Bal(genesis.chain.ledger, a) + OtherDelta(genesis, log, a)
                   + ConfirmedTo(s.db.txs, a) - (if a == genesis.chain.owner then ConfirmedTotal(s.db.txs) else 0)
  {
    var s := Replay(genesis, log);
    hide IsGenesis, Legal, Replay, PaidDelta, OtherDelta, Inv, ConfirmedTo, ConfirmedTotal;
    LegalInv(genesis, log);
    forall g <- s.db.finals
      ensures ConfirmedRow(s.db.txs, g, s.db.finals[g].value) && AtMostOneConfirmed(s.db.txs, g)
    {
      FinalIffConfirmed(s, g);
      var i := FinalRow(s, g);
    }
    forall a: Address
      ensures Ledger.Bal(s.chain.ledger, a) == Ledger.Bal(genesis.chain.ledger, a) + OtherDelta(genesis, log, a)
                + ConfirmedTo(s.db.txs, a) - (if a == genesis.chain.owner then ConfirmedTotal(s.db.txs) else 0)
    {
      BalanceSheet(genesis, log, a);
      forall i | 0 <= i < |s.db.txs|
        ensures s.db.txs[i].tokens >= 0 && (s.db.txs[i].state.Confirmed? <==> Paid(s.chain.mined, s.db.txs[i].hash))
      {
        ConfirmedIffPaid(s, i);
      }
      ConfirmedIsPaid(s.db.txs, s.chain.mined, genesis.chain.owner, a);
    }
  }
}
