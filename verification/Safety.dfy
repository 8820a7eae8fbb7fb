/** What the invariant means: nobody is paid twice, everything recorded is true, and the money adds up. */
module Safety {
  import opened Wrappers
  import opened Tables
  import opened Protocol

  /** The transaction was mined and its transfer went through. */
  predicate Paid(mined: map<nat, Receipt>, hash: Hash) {
    hash.body.nonce in mined && mined[hash.body.nonce] == Receipt(hash, true)
  }

  // ---------------------------------------------------------------- at most once

  lemma PaidRowState(s: State, i: nat)
    requires Inv(s) && i < |s.db.txs| && Paid(s.chain.mined, s.db.txs[i].hash)
    ensures s.db.txs[i].state.Pending? || s.db.txs[i].state.Confirmed?
    ensures s.db.txs[i].state.Confirmed? ==> s.db.finals[s.db.txs[i].group] == Some(s.db.txs[i].hash)
  {
    assert RowTruth(s.db.txs[i], s.chain.mined);
  }

  lemma PaidRowsAgree(s: State, i: nat, j: nat)
    requires Inv(s) && i < |s.db.txs| && j < |s.db.txs|
    requires Paid(s.chain.mined, s.db.txs[i].hash) && Paid(s.chain.mined, s.db.txs[j].hash)
    requires s.db.txs[i].group == s.db.txs[j].group
    ensures i == j
  {
    hide FinalsInv, ContiguousInv, ChainInv, DroppedInv, SpacedInv, TruthInv;
    PaidRowState(s, i);
    PaidRowState(s, j);
    assert s.db.txs[i].hash == s.db.txs[j].hash;
  }

  /** In every reachable state a payout group has at most one successfully mined transfer. */
  lemma PaidAtMostOnce(genesis: State, log: seq<Event>, i: nat, j: nat)
    requires IsGenesis(genesis) && Legal(genesis, log)
    requires var s := Replay(genesis, log);
             && i < |s.db.txs| && j < |s.db.txs| && s.db.txs[i].group == s.db.txs[j].group
             && Paid(s.chain.mined, s.db.txs[i].hash) && Paid(s.chain.mined, s.db.txs[j].hash)
    ensures i == j
  {
    hide Inv, Paid;
    LegalInv(genesis, log);
    PaidRowsAgree(Replay(genesis, log), i, j);
  }

  /** Every mined transaction is one recorded row, of one group. */
  lemma MinedIsRecorded(genesis: State, log: seq<Event>, n: nat) returns (i: nat)
    requires IsGenesis(genesis) && Legal(genesis, log) && n in Replay(genesis, log).chain.mined
    ensures var s := Replay(genesis, log);
            && i < |s.db.txs| && s.db.txs[i].hash == s.chain.mined[n].hash
            && forall j :: 0 <= j < |s.db.txs| && s.db.txs[j].hash == s.chain.mined[n].hash ==> j == i
  {
    hide IsGenesis, Legal, Replay, FinalsInv, PendingInv, ContiguousInv, DroppedInv, SpacedInv, TruthInv;
    LegalInv(genesis, log);
    var s := Replay(genesis, log);
    assert InTable(s.db.txs, s.chain.mined[n].hash);
    i :| 0 <= i < |s.db.txs| && s.db.txs[i].hash == s.chain.mined[n].hash;
  }

  // ---------------------------------------------------------------- what rows pay

  predicate PaysInv(s: State) {
    forall i :: 0 <= i < |s.db.txs| ==> RowPaysPayout(s, s.db.txs[i])
  }

  lemma StepKeepsPays(s: State, e: Event)
    requires PaysInv(s) && Enabled(s, e)
    ensures PaysInv(Apply(s, e))
  {
    hide RowIsFresh, IsAttach, IsResend, CanFinalize, InTable;
    match e
    case Finalize(nonce, group, statuses, winner) => StatusesKeepPays(s, group, statuses);
    case _ =>
  }

  lemma StatusesKeepPays(s: State, group: int, statuses: seq<TxStatus>)
    requires PaysInv(s)
    ensures PaysInv(s.(db := ApplyStatuses(s.db, group, statuses)))
  {
    if statuses != [] {
      var mid := s.(db := ApplyStatuses(s.db, group, statuses[..|statuses| - 1]));
      StatusesKeepPays(s, group, statuses[..|statuses| - 1]);
      var s' := s.(db := ApplyStatuses(s.db, group, statuses));
      forall i | 0 <= i < |s'.db.txs| ensures RowPaysPayout(s', s'.db.txs[i]) {
        assert RowPaysPayout(mid, mid.db.txs[i]);
      }
    }
  }

  lemma {:induction false} LegalPays(genesis: State, log: seq<Event>)
    requires IsGenesis(genesis) && Legal(genesis, log)
    ensures PaysInv(Replay(genesis, log))
  {
    hide Enabled, Apply, RowPaysPayout;
    if log != [] {
      LegalPays(genesis, log[..|log| - 1]);
      StepKeepsPays(Replay(genesis, log[..|log| - 1]), log[|log| - 1]);
    }
  }

  /**
    A final hash is true: that transaction was mined successfully, is recorded for that group only, and
    transferred to the group's payee the tokens its one payout is worth at the recorded price.
    */
  lemma FinalHashIsTrue(genesis: State, log: seq<Event>, group: int) returns (i: nat)
    requires IsGenesis(genesis) && Legal(genesis, log)
    requires var s := Replay(genesis, log); group in s.db.finals && s.db.finals[group].Some?
    ensures var s := Replay(genesis, log);
            var hash := s.db.finals[group].value;
            && Paid(s.chain.mined, hash)
            && i < |s.db.txs| && s.db.txs[i].hash == hash && s.db.txs[i].group == group
            && RowPaysPayout(s, s.db.txs[i]) && s.db.txs[i].tokens == hash.body.tokens
            && forall g :: g in s.db.finals && s.db.finals[g] == Some(hash) ==> g == group
  {
    hide IsGenesis, Legal, Replay, RowPaysPayout;
    LegalInv(genesis, log);
    LegalPays(genesis, log);
    i := FinalRow(Replay(genesis, log), group);
    forall g | g in Replay(genesis, log).db.finals
        && Replay(genesis, log).db.finals[g] == Some(Replay(genesis, log).db.txs[i].hash)
      ensures g == group
    {
      var j := FinalRow(Replay(genesis, log), g);
      assert j == i;
    }
  }

  lemma FinalRow(s: State, group: int) returns (i: nat)
    requires Inv(s) && group in s.db.finals && s.db.finals[group].Some?
    ensures i < |s.db.txs| && s.db.txs[i].state.Confirmed? && s.db.txs[i].group == group
    ensures s.db.txs[i].hash == s.db.finals[group].value && Paid(s.chain.mined, s.db.txs[i].hash)
    ensures s.db.txs[i].tokens == s.db.txs[i].hash.body.tokens
    ensures forall j :: 0 <= j < |s.db.txs| && s.db.txs[j].hash == s.db.txs[i].hash ==> j == i
  {
    hide PendingInv, ContiguousInv, DroppedInv, SpacedInv, ChainInv;
    assert ConfirmedRow(s.db.txs, group, s.db.finals[group].value);
    i :| 0 <= i < |s.db.txs| && s.db.txs[i].state.Confirmed? && s.db.txs[i].group == group
        && s.db.txs[i].hash == s.db.finals[group].value;
    assert RowTruth(s.db.txs[i], s.chain.mined);
  }

  // ---------------------------------------------------------------- the table

  predicate IsVerdict(row: TxRow) {
    row.state.Failed? || row.state.Confirmed?
  }

  /** A settled nonce has exactly one failed or confirmed row; every other settled row of it is dropped. */
  lemma OneVerdictPerNonce(s: State, i: nat) returns (w: nat)
    requires Inv(s) && i < |s.db.txs| && !s.db.txs[i].state.Pending?
    ensures w < |s.db.txs| && IsVerdict(s.db.txs[w])
    ensures s.db.txs[w].nonce == s.db.txs[i].nonce && s.db.txs[w].group == s.db.txs[i].group
    ensures forall j :: 0 <= j < |s.db.txs| && s.db.txs[j].nonce == s.db.txs[i].nonce && IsVerdict(s.db.txs[j]) ==>
              j == w
  {
    hide PendingInv, ContiguousInv, SpacedInv, FinalsInv;
    var row := s.db.txs[i];
    assert RowTruth(row, s.chain.mined);
    var h := s.chain.mined[row.nonce].hash;
    assert InTable(s.db.txs, h);
    w :| 0 <= w < |s.db.txs| && s.db.txs[w].hash == h;
    assert RowTruth(s.db.txs[w], s.chain.mined);
    forall j | 0 <= j < |s.db.txs| && s.db.txs[j].nonce == row.nonce && IsVerdict(s.db.txs[j]) ensures j == w {
      assert RowTruth(s.db.txs[j], s.chain.mined);
    }
  }

  predicate AtMostOneConfirmed(txs: seq<TxRow>, group: int) {
    forall i, j :: (0 <= i < |txs| && 0 <= j < |txs| && txs[i].state.Confirmed? && txs[j].state.Confirmed?
                    && txs[i].group == group && txs[j].group == group) ==> i == j
  }

  /** A group has a final hash iff exactly one of its rows is confirmed, the one with that hash. */
  lemma FinalIffConfirmed(s: State, group: int)
    requires Inv(s) && group in s.db.finals
    ensures s.db.finals[group].Some? <==>
            exists i :: 0 <= i < |s.db.txs| && s.db.txs[i].state.Confirmed? && s.db.txs[i].group == group
    ensures forall i :: 0 <= i < |s.db.txs| && s.db.txs[i].state.Confirmed? && s.db.txs[i].group == group ==>
              s.db.finals[group] == Some(s.db.txs[i].hash)
    ensures AtMostOneConfirmed(s.db.txs, group)
  {
    hide PendingInv, ContiguousInv, SpacedInv, ChainInv, DroppedInv, TruthInv;
    if s.db.finals[group].Some? { assert ConfirmedRow(s.db.txs, group, s.db.finals[group].value); }
    forall i, j | 0 <= i < |s.db.txs| && 0 <= j < |s.db.txs| && s.db.txs[i].state.Confirmed?
        && s.db.txs[j].state.Confirmed?
      && s.db.txs[i].group == group && s.db.txs[j].group == group ensures i == j
    {
      assert s.db.txs[i].hash == s.db.txs[j].hash;
    }
  }

  /** What never changes about a row. */
  predicate SameTransaction(a: TxRow, b: TxRow) {
    a.(state := b.state, receipt := b.receipt) == b
  }

  lemma StepKeepsRow(s: State, e: Event, i: nat)
    requires Inv(s) && Enabled(s, e) && i < |s.db.txs|
    ensures i < |Apply(s, e).db.txs| && SameTransaction(s.db.txs[i], Apply(s, e).db.txs[i])
    ensures !s.db.txs[i].state.Pending? ==> Apply(s, e).db.txs[i] == s.db.txs[i]
  {
    hide RowsInv, PendingInv, ContiguousInv, SpacedInv, ChainInv, DroppedInv, TruthInv, FinalsInv, CanFinalize,
      CanCreate, InTable;
    match e
    case Finalize(nonce, group, statuses, winner) => FinalizeSettles(s, nonce, group, statuses, winner);
    case _ =>
  }

  /** A row leaves "pending" at most once and is never written again afterwards, over any history. */
  lemma {:induction false} RowsSettleOnce(genesis: State, log: seq<Event>, k: nat, i: nat)
    requires IsGenesis(genesis) && Legal(genesis, log) && k <= |log|
    requires i < |Replay(genesis, log[..k]).db.txs|
    ensures var before, after := Replay(genesis, log[..k]).db.txs, Replay(genesis, log).db.txs;
            && i < |after| && SameTransaction(before[i], after[i])
            && (!before[i].state.Pending? ==> after[i] == before[i])
  {
    if k == |log| {
      assert log[..k] == log;
    } else {
      var init := log[..|log| - 1];
      assert init[..k] == log[..k];
      hide Enabled, Apply, IsGenesis, Inv;
      RowsSettleOnce(genesis, init, k, i);
      LegalInv(genesis, init);
      StepKeepsRow(Replay(genesis, init), log[|log| - 1], i);
    }
  }
}
