/** Nonces over the whole history, and how often a nonce can be resent. */
module Nonces {
  import opened Wrappers
  import opened Tables
  import opened Protocol
  import opened Safety

  // ---------------------------------------------------------------- freshness

  /** Whenever a group was attached with nothing pending, the node had answered with the account nonce. */
  predicate TruthfulNonces(genesis: State, log: seq<Event>) {
    log == [] ||
    (var before, last := Replay(genesis, log[..|log| - 1]), log[|log| - 1];
     && TruthfulNonces(genesis, log[..|log| - 1])
     && (last.Create? && !AnyInFlight(before.db.txs) ==> last.row.nonce == before.chain.next))
  }

  /** Settled nonces are used up on the chain and lie below every pending nonce. */
  predicate OrderedInv(s: State) {
    && (forall i :: 0 <= i < |s.db.txs| && !s.db.txs[i].state.Pending? ==> s.db.txs[i].nonce < s.chain.next)
    && (forall i, j :: 0 <= i < |s.db.txs| && 0 <= j < |s.db.txs|
                       && !s.db.txs[i].state.Pending? && s.db.txs[j].state.Pending? ==>
          s.db.txs[i].nonce < s.db.txs[j].nonce)
  }

  /** The nonce of a newly attached group exceeds every nonce in the table. */
  lemma AttachedNonceIsFresh(s: State, row: TxRow)
    requires OrderedInv(s) && IsAttach(s, row.group, row.nonce) && row.state.Pending?
    requires !AnyInFlight(s.db.txs) ==> row.nonce == s.chain.next
    ensures forall i :: 0 <= i < |s.db.txs| ==> s.db.txs[i].nonce < row.nonce
  {
    if AnyInFlight(s.db.txs) {
      var j :| 0 <= j < |s.db.txs| && s.db.txs[j].state.Pending?;
      assert s.db.txs[j].nonce < row.nonce;
    }
  }

  lemma CreateKeepsOrdered(s: State, row: TxRow)
    requires OrderedInv(s) && row.state.Pending?
               && (IsAttach(s, row.group, row.nonce) || IsResend(s, row.group, row.nonce))
    requires !AnyInFlight(s.db.txs) ==> row.nonce == s.chain.next
    ensures OrderedInv(s.(db := s.db.(txs := s.db.txs + [row])))
  {
    if IsAttach(s, row.group, row.nonce) {
      AttachedNonceIsFresh(s, row);
    } else {
      var j :| 0 <= j < |s.db.txs| && s.db.txs[j].state.Pending? && s.db.txs[j].nonce == row.nonce;
    }
  }

  lemma FinalizeKeepsOrdered(s: State, nonce: nat, group: int, statuses: seq<TxStatus>, winner: nat)
    requires Inv(s) && OrderedInv(s) && CanFinalize(s, nonce, group, statuses, winner)
    ensures OrderedInv(Apply(s, Finalize(nonce, group, statuses, winner)))
  {
    hide RowsInv, PendingInv, ContiguousInv, SpacedInv, DroppedInv, TruthInv, FinalsInv, CoversNonce, OneWinner,
      InTable, ApplyStatuses;
    FinalizeSettles(s, nonce, group, statuses, winner);
    assert nonce < s.chain.next;
  }

  lemma StepKeepsOrdered(s: State, e: Event)
    requires Inv(s) && OrderedInv(s) && Enabled(s, e)
    requires e.Create? && !AnyInFlight(s.db.txs) ==> e.row.nonce == s.chain.next
    ensures OrderedInv(Apply(s, e))
  {
    hide Inv, CanFinalize, IsAttach, IsResend, RowPaysPayout, AnyInFlight, AfterMine;
    match e
    case Create(row) => CreateKeepsOrdered(s, row);
    case Finalize(nonce, group, statuses, winner) => FinalizeKeepsOrdered(s, nonce, group, statuses, winner);
    case _ =>
  }

  lemma {:induction false} TruthfulOrdered(genesis: State, log: seq<Event>)
    requires IsGenesis(genesis) && Legal(genesis, log) && TruthfulNonces(genesis, log)
    ensures OrderedInv(Replay(genesis, log))
  {
    if log != [] {
      TruthfulOrdered(genesis, log[..|log| - 1]);
      LegalInv(genesis, log[..|log| - 1]);
      hide Inv, IsGenesis, OrderedInv, Enabled, Apply, AnyInFlight;
      StepKeepsOrdered(Replay(genesis, log[..|log| - 1]), log[|log| - 1]);
    } else {
      assert genesis.db.txs == [];
    }
  }

  /** With a truthful node every newly attached group gets a nonce no row has, above all of them. */
  lemma NoncesAreFresh(genesis: State, log: seq<Event>)
    requires IsGenesis(genesis) && log != [] && Legal(genesis, log) && TruthfulNonces(genesis, log)
    requires var s, e := Replay(genesis, log[..|log| - 1]), log[|log| - 1];
             e.Create? && IsAttach(s, e.row.group, e.row.nonce)
    ensures var s, row := Replay(genesis, log[..|log| - 1]), log[|log| - 1].row;
            forall i :: 0 <= i < |s.db.txs| ==> s.db.txs[i].nonce < row.nonce
  {
    hide IsGenesis, IsAttach, OrderedInv, RowPaysPayout, AnyInFlight;
    TruthfulOrdered(genesis, log[..|log| - 1]);
    AttachedNonceIsFresh(Replay(genesis, log[..|log| - 1]), log[|log| - 1].row);
  }

  lemma TruthfulPrefix(genesis: State, log: seq<Event>, k: nat)
    requires k <= |log| && Legal(genesis, log) && TruthfulNonces(genesis, log)
    ensures Legal(genesis, log[..k]) && TruthfulNonces(genesis, log[..k])
  {
    hide Enabled, Apply;
    if k == |log| { assert log[..k] == log; }
    else {
      assert log[..|log| - 1][..k] == log[..k];
      TruthfulPrefix(genesis, log[..|log| - 1], k);
    }
  }

  /** The winner of a finalization leaves a settled row at its nonce. */
  lemma FinalizedRow(s: State, nonce: nat, group: int, statuses: seq<TxStatus>, winner: nat) returns (w: nat)
    requires Inv(s) && CanFinalize(s, nonce, group, statuses, winner)
    ensures w < |s.db.txs| && s.db.txs[w].state.Pending? && s.db.txs[w].nonce == nonce
    ensures var txs' := ApplyStatuses(s.db, group, statuses).txs;
            !txs'[w].state.Pending? && txs'[w].nonce == nonce
  {
    hide RowsInv, PendingInv, ContiguousInv, SpacedInv, DroppedInv, TruthInv, FinalsInv, CoversNonce, OneWinner,
      ChainInv, ApplyStatuses;
    w := WinnerRow(s, nonce, group, statuses, winner);
    FinalizeSettles(s, nonce, group, statuses, winner);
  }

  lemma ReplayNext(genesis: State, log: seq<Event>, k: nat)
    requires k < |log|
    ensures Replay(genesis, log[..k + 1]) == Apply(Replay(genesis, log[..k]), log[k])
    ensures Legal(genesis, log[..k + 1]) ==> Enabled(Replay(genesis, log[..k]), log[k])
  {
    hide Enabled, Apply;
    assert log[..k + 1][..k] == log[..k];
  }

  /** Once finalized, a nonce keeps a settled row. */
  lemma FinalizedStays(genesis: State, log: seq<Event>, k: nat) returns (w: nat)
    requires IsGenesis(genesis) && Legal(genesis, log) && k < |log| && log[k].Finalize?
    ensures var txs := Replay(genesis, log).db.txs;
            w < |txs| && !txs[w].state.Pending? && txs[w].nonce == log[k].nonce
  {
    hide IsGenesis, Legal, Replay, Inv, CanFinalize, ApplyStatuses;
    LegalPrefix(genesis, log, k + 1);
    LegalPrefix(genesis, log, k);
    ReplayNext(genesis, log, k);
    LegalInv(genesis, log[..k]);
    w := FinalizedRow(Replay(genesis, log[..k]), log[k].nonce, log[k].group, log[k].statuses, log[k].winner);
    RowsSettleOnce(genesis, log, k + 1, w);
  }

  lemma LegalPrefix(genesis: State, log: seq<Event>, k: nat)
    requires k <= |log| && Legal(genesis, log)
    ensures Legal(genesis, log[..k])
  {
    hide Enabled, Apply;
    if k == |log| { assert log[..k] == log; }
    else {
      assert log[..|log| - 1][..k] == log[..k];
      LegalPrefix(genesis, log[..|log| - 1], k);
    }
  }

  /** With a truthful node nonce groups are finalized in strictly increasing nonce order over the whole history. */
  lemma FinalizationsIncrease(genesis: State, log: seq<Event>, k: nat, m: nat)
    requires IsGenesis(genesis) && Legal(genesis, log) && TruthfulNonces(genesis, log)
    requires k < m < |log| && log[k].Finalize? && log[m].Finalize?
    ensures log[k].nonce < log[m].nonce
  {
    hide IsGenesis, Legal, Replay, Inv, CanFinalize, TruthfulNonces, ApplyStatuses;
    var t := Replay(genesis, log[..m]);
    LegalPrefix(genesis, log, m + 1);
    TruthfulPrefix(genesis, log, m);
    ReplayNext(genesis, log, m);
    LegalInv(genesis, log[..m]);
    TruthfulOrdered(genesis, log[..m]);
    assert log[..m][k] == log[k];
    var w := FinalizedStays(genesis, log[..m], k);
    var v := FinalizedRow(t, log[m].nonce, log[m].group, log[m].statuses, log[m].winner);
  }

  // ---------------------------------------------------------------- the guard on node answers

  /** The guard on a nonce reported by the node. */
  predicate AcceptsNonce(expected: nat, nonce: nat) {
    expected == 0 || nonce >= expected
  }

  // ---------------------------------------------------------------- sending again

  /**
    A group whose transactions all count as dropped can be sent again iff the new transaction differs
    from each earlier one of the nonce in its amount or its fees: the same terms give the same hash,
    which UNIQUE(hash) refuses.
    */
  lemma ResendNeedsNewTerms(s: State, row: TxRow)
    requires Inv(s) && PaysInv(s) && IsResend(s, row.group, row.nonce) && RowPaysPayout(s, row)
    requires row == TxRow(row.hash, row.hash.body.nonce, row.group, row.price, row.hash.body.tokens, Truncate(s.now),
               Pending, None)
    requires row.tokens > 0
    ensures CanCreate(s, row) <==>
            forall i :: 0 <= i < |s.db.txs| && s.db.txs[i].nonce == row.nonce ==>
              var earlier := s.db.txs[i].hash.body;
              earlier.tokens != row.hash.body.tokens || earlier.fees != row.hash.body.fees
                  || earlier.payee != row.hash.body.payee
  {
    hide TruthInv, ContiguousInv, SpacedInv, FinalsInv, ChainInv, DroppedInv, PaysInv, RowPaysPayout, IsAttach;
    var k :| 0 <= k < |s.db.txs| && s.db.txs[k].state.Pending? && s.db.txs[k].nonce == row.nonce
        && s.db.txs[k].group == row.group;
    assert Unfinished(s.db, row.group);
    if InTable(s.db.txs, row.hash) {
      var i :| 0 <= i < |s.db.txs| && s.db.txs[i].hash == row.hash;
      assert s.db.txs[i].nonce == row.nonce;
    }
    forall i | 0 <= i < |s.db.txs| && s.db.txs[i].nonce == row.nonce && s.db.txs[i].hash != row.hash
      ensures s.db.txs[i].hash.body != row.hash.body
    {}
  }

  // ---------------------------------------------------------------- the resend bound

  /** How many of the first k rows are pending at a nonce. */
  function PendingCount(txs: seq<TxRow>, nonce: nat, k: nat): nat
    requires k <= |txs|
  {
    if k == 0 then 0
    else PendingCount(txs, nonce, k - 1) + (if txs[k - 1].state.Pending? && txs[k - 1].nonce == nonce then 1 else 0)
  }

  /** The last of c pending rows of a nonce is at least c - 1 waiting times younger than the first one. */
  lemma {:induction false} LastIsLate(txs: seq<TxRow>, now: nat, first: nat, k: nat) returns (last: nat)
    requires SpacedInv(txs, now) && first < k <= |txs| && txs[first].state.Pending?
    requires forall i :: 0 <= i < first && txs[i].state.Pending? ==> txs[i].nonce != txs[first].nonce
    ensures first <= last < k && txs[last].state.Pending? && txs[last].nonce == txs[first].nonce
    ensures txs[first].createdAt + (PendingCount(txs, txs[first].nonce, k) - 1) * NOT_DROPPED_UNTIL
              <= txs[last].createdAt
  {
    var n := txs[first].nonce;
    if k == first + 1 {
      NoneBefore(txs, n, first);
      last := first;
    } else {
      last := LastIsLate(txs, now, first, k - 1);
      if txs[k - 1].state.Pending? && txs[k - 1].nonce == n {
        assert txs[last].createdAt + NOT_DROPPED_UNTIL <= txs[k - 1].createdAt;
        last := k - 1;
      }
    }
  }

  lemma NoneBefore(txs: seq<TxRow>, n: nat, k: nat)
    requires k <= |txs| && forall i :: 0 <= i < k && txs[i].state.Pending? ==> txs[i].nonce != n
    ensures PendingCount(txs, n, k) == 0
  {}

  /** A pending nonce whose first transaction was recorded at t0 has at most 1 + (now - t0) / 30s transactions. */
  lemma ResendBound(genesis: State, log: seq<Event>, first: nat)
    requires IsGenesis(genesis) && Legal(genesis, log)
    requires var txs := Replay(genesis, log).db.txs;
             && first < |txs| && txs[first].state.Pending?
             && forall i :: 0 <= i < first && txs[i].state.Pending? ==> txs[i].nonce != txs[first].nonce
    ensures var s := Replay(genesis, log);
            var t0 := s.db.txs[first].createdAt;
            t0 <= s.now && PendingCount(s.db.txs, s.db.txs[first].nonce, |s.db.txs|)
                             <= 1 + (s.now - t0) / 30_000_000_000
  {
    LegalInv(genesis, log);
    hide IsGenesis, Legal, Replay, RowsInv, PendingInv, ContiguousInv, DroppedInv, TruthInv, FinalsInv, ChainInv,
      PendingCount;
    var s := Replay(genesis, log);
    var last := LastIsLate(s.db.txs, s.now, first, |s.db.txs|);
    CountFromTime(PendingCount(s.db.txs, s.db.txs[first].nonce, |s.db.txs|), s.db.txs[first].createdAt, s.now);
  }

  lemma CountFromTime(c: nat, t0: nat, now: nat)
    requires t0 <= now && t0 + (c - 1) * NOT_DROPPED_UNTIL <= now
    ensures c <= 1 + (now - t0) / NOT_DROPPED_UNTIL
  {}
}
