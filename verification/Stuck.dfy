/** What a wrong nonce, or a crash between recording and sending, leads to. */
module Stuck {
  import opened Wrappers
  import opened Money
  import opened Tables
  import opened Protocol
  import opened Safety
  import opened Nonces
  import opened Network
  import opened Conduct
  import opened Settling
  import opened Recovery

  /** No later history at all, whoever makes it, brings the row to a verdict. */
  ghost predicate StaysPending(genesis: State, log: seq<Event>, i: nat) {
    forall log' :: log <= log' && Legal(genesis, log') ==> IsPending(Replay(genesis, log'), i)
  }

  // ---------------------------------------------------------------- wrong nonces

  /** With nothing pending, a new row is alone, so all that counts is its nonce. */
  lemma LoneRow(s: State, row: TxRow)
    requires Inv(s) && !AnyInFlight(s.db.txs) && Enabled(s, Create(row))
    ensures var s1 := Apply(s, Create(row));
            IsPending(s1, |s.db.txs|) && (Open(s1, row.nonce) <==> row.nonce == s.chain.next)
  {
    hide IsAttach, IsResend, RowPaysPayout, Inv;
    var s1 := Apply(s, Create(row));
    var n := row.nonce;
    assert s1.db.txs[|s.db.txs|] == row;
    LoneInFlight(s, row);
    NothingWon(s, row, n);
    hide Enabled, Apply, AnyInFlight, WonByPending, InFlight;
    assert s1.db.txs == s.db.txs + [row] && s1.chain == s.chain;
    assert InFlight(s1.db.txs, n);
    assert UsedUp(s1, n) <==> n < s.chain.next;
    assert Gap(s1, n) <==> s.chain.next < n;
  }

  lemma LoneInFlight(s: State, row: TxRow)
    requires !AnyInFlight(s.db.txs) && row.state.Pending?
    ensures forall m: nat :: InFlight(s.db.txs + [row], m) <==> m == row.nonce
  {
    var txs' := s.db.txs + [row];
    assert txs'[|s.db.txs|] == row && forall i :: 0 <= i < |s.db.txs| ==> txs'[i] == s.db.txs[i];
  }

  lemma NothingWon(s: State, row: TxRow, n: nat)
    requires Inv(s) && !AnyInFlight(s.db.txs) && Enabled(s, Create(row))
    ensures !WonByPending(Apply(s, Create(row)), n)
  {
    assert !WonByPending(s, n);
    NewHash(s, row);
    hide Inv, Enabled, WonByPending, AnyInFlight;
    CreateWinsNothing(s, row, n);
  }

  lemma NewHash(s: State, row: TxRow)
    requires Enabled(s, Create(row))
    ensures !InTable(s.db.txs, row.hash) && row.state.Pending?
  {
    hide IsAttach, IsResend, RowPaysPayout, InTable;
  }

  /** The process that recorded the row, and its environment, can bring it to a verdict. */
  ghost predicate OwnerCanSettle(genesis: State, log: seq<Event>, i: nat)
    requires log != []
  {
    exists log' :: log <= log' && Legal(genesis, log') && ActsAs(Eth, genesis, log', |log| - 1)
                   && i < |Replay(genesis, log').db.txs| && !IsPending(Replay(genesis, log'), i)
  }

  /**
    A row recorded with nothing pending can be settled, by handing it over, iff its nonce is the account's
    next one, and otherwise never is.
    */
  lemma NonceDecides(genesis: State, log: seq<Event>, row: TxRow)
    requires IsGenesis(genesis) && Legal(genesis, log) && !AnyInFlight(Replay(genesis, log).db.txs)
    requires Enabled(Replay(genesis, log), Create(row))
    ensures var log1, i := log + [Create(row)], |Replay(genesis, log).db.txs|;
            && Legal(genesis, log1) && IsPending(Replay(genesis, log1), i)
            && (OwnerCanSettle(genesis, log1, i) <==> row.nonce == Replay(genesis, log).chain.next)
            && (StaysPending(genesis, log1, i) <==> row.nonce != Replay(genesis, log).chain.next)
  {
    hide IsGenesis, Legal, Replay, AnyInFlight, Enabled, OwnerCanSettle, StaysPending, Open;
    var s := Replay(genesis, log);
    LegalInv(genesis, log);
    LogGrows(genesis, log, Create(row));
    LoneRow(s, row);
    var log1, i := log + [Create(row)], |s.db.txs|;
    NotBoth(genesis, log1, i);
    if row.nonce == s.chain.next {
      HandOverSettles(genesis, log, row);
    } else {
      ClosedStays(genesis, log1, i);
    }
  }

  lemma NotBoth(genesis: State, log: seq<Event>, i: nat)
    requires log != []
    ensures OwnerCanSettle(genesis, log, i) ==> !StaysPending(genesis, log, i)
  {
    hide Legal, Replay, ActsAs;
  }

  lemma ClosedStays(genesis: State, log: seq<Event>, i: nat)
    requires IsGenesis(genesis) && Legal(genesis, log) && IsPending(Replay(genesis, log), i)
    requires !Open(Replay(genesis, log), Replay(genesis, log).db.txs[i].nonce)
    ensures StaysPending(genesis, log, i)
  {
    hide IsGenesis, Legal, Replay, Open;
    forall log' | log <= log' && Legal(genesis, log') ensures IsPending(Replay(genesis, log'), i) {
      assert log'[..|log|] == log;
      DeadRowsStayPending(genesis, |log|, log', i);
    }
  }

  /** Handed over, a lone row at the account's next nonce only has to be mined. */
  lemma HandOverSettles(genesis: State, log: seq<Event>, row: TxRow)
    requires IsGenesis(genesis) && Legal(genesis, log) && !AnyInFlight(Replay(genesis, log).db.txs)
    requires Enabled(Replay(genesis, log), Create(row)) && row.nonce == Replay(genesis, log).chain.next
    ensures OwnerCanSettle(genesis, log + [Create(row)], |Replay(genesis, log).db.txs|)
  {
    hide IsGenesis, Legal, Replay, AnyInFlight, ActsAs, CreatedSince, Settleable, Follows;
    var s, send := Replay(genesis, log), Broadcast(row.hash);
    var i, from := |s.db.txs|, |log|;
    var log1 := log + [Create(row)];
    LegalInv(genesis, log);
    LogGrows(genesis, log, Create(row));
    var s1 := Replay(genesis, log1);
    CanHandOver(s, row);
    LogGrows(genesis, log1, send);
    var log2 := log1 + [send];
    var quote := (g: int) => Decimal(1, 0);
    HandedOver(quote, s, row);
    StartsFollowing(Eth, quote, genesis, log2);
    var log' := SettleUpTo(Eth, quote, genesis, log2, |log2|, i);
    FollowedActs(Eth, quote, genesis, log', |log2|);
    NothingDone(Eth, genesis, log);
    CreatesAs(Eth, genesis, log, row, from);
    SendsAs(Eth, genesis, log1, row.hash, from);
    GoesOnAs(Eth, genesis, log2, log', from);
    assert log1 <= log' && |log1| - 1 == from;
  }

  lemma CanHandOver(s: State, row: TxRow)
    requires Enabled(s, Create(row))
    ensures Enabled(Apply(s, Create(row)), Broadcast(row.hash))
  {
    var s1 := Apply(s, Create(row));
    assert s1.db.txs[|s.db.txs|] == row;
  }

  lemma HandedOver(quote: int -> Decimal, s: State, row: TxRow)
    requires Inv(s) && !AnyInFlight(s.db.txs) && Enabled(s, Create(row)) && row.nonce == s.chain.next
    ensures var s2 := Apply(Apply(s, Create(row)), Broadcast(row.hash));
            IsPending(s2, |s.db.txs|) && s2.db.txs[|s.db.txs|] == row && Settleable(Eth, quote, s2, row.nonce)
  {
    LoneRow(s, row);
    NewHash(s, row);
    LoneInFlight(s, row);
    hide Inv, Enabled, AnyInFlight, CanResend;
    var s1 := Apply(s, Create(row));
    var s2 := Apply(s1, Broadcast(row.hash));
    assert s2.db.txs[|s.db.txs|] == row && s2.db == s1.db;
    assert Open(s2, row.nonce);
    assert !Unsent(s2, row.nonce);
  }

  /**
    The guard on nonces from the node, for whatever nonce the process expects (0 after a start): with
    nothing pending, an answer is accepted and leads to a row that is never settled iff it is at least
    the expected nonce without being the account's next one; for a node that lags behind, iff it lies
    between the two.
    */
  lemma StaleAnswerSlipsThrough(genesis: State, log: seq<Event>, expected: nat, row: TxRow)
    requires IsGenesis(genesis) && Legal(genesis, log) && !AnyInFlight(Replay(genesis, log).db.txs)
    requires Enabled(Replay(genesis, log), Create(row))
    ensures var next, i := Replay(genesis, log).chain.next, |Replay(genesis, log).db.txs|;
            var slips := AcceptsNonce(expected, row.nonce) && StaysPending(genesis, log + [Create(row)], i);
            && (slips <==> expected <= row.nonce && row.nonce != next)
            && (row.nonce <= next ==> (slips <==> expected <= row.nonce < next))
  {
    hide IsGenesis, Legal, Replay, AnyInFlight, Enabled, OwnerCanSettle, StaysPending;
    NonceDecides(genesis, log, row);
  }

  /** Whatever the nonce, a row for an unpaid group can be recorded when nothing is pending. */
  lemma AnyNonceCanBeRecorded(s: State, group: int, price: Decimal, nonce: nat) returns (row: TxRow)
    requires !AnyInFlight(s.db.txs) && Unfinished(s.db, group) && |PayoutsOf(s.db.payouts, group)| == 1
    requires FromUSD(PayoutsOf(s.db.payouts, group)[0].usd, price, s.chain.decimals).Some?
    requires FromUSD(PayoutsOf(s.db.payouts, group)[0].usd, price, s.chain.decimals).value > 0
    ensures row.nonce == nonce && row.group == group && row.price == price && Enabled(s, Create(row))
  {
    hide FromUSD, PayoutsOf;
    var payout := PayoutsOf(s.db.payouts, group)[0];
    var tokens := FromUSD(payout.usd, price, s.chain.decimals).value;
    var hash := HashOf(TxBody(nonce, payout.payee, tokens, FreshFees(s.db.txs)));
    row := TxRow(hash, nonce, group, price, tokens, Truncate(s.now), Pending, None);
    assert !InTable(s.db.txs, hash);
    assert IsAttach(s, group, nonce);
  }

  // ---------------------------------------------------------------- a crash before sending

  lemma CreateKeepsOnePerNonce(s: State, row: TxRow)
    requires OnePerNonce(s.db.txs) && IsAttach(s, row.group, row.nonce)
    ensures OnePerNonce(s.db.txs + [row])
  {
    var txs' := s.db.txs + [row];
    assert txs'[|s.db.txs|] == row && forall i :: 0 <= i < |s.db.txs| ==> txs'[i] == s.db.txs[i];
  }

  /** A payout run by zkSync Era processes only never has two transactions pending for one nonce. */
  lemma {:induction false} ZkOnePerNonce(genesis: State, log: seq<Event>)
    requires IsGenesis(genesis) && Legal(genesis, log) && ActsAs(ZkSyncEra, genesis, log, 0)
    ensures OnePerNonce(Replay(genesis, log).db.txs)
  {
    if log == [] {
      assert genesis.db.txs == [];
    } else {
      var n := |log| - 1;
      ActedAs(ZkSyncEra, genesis, log, 0, n);
      AttachedLast(genesis, log);
      LegalPrefix(genesis, log, n);
      ZkOnePerNonce(genesis, log[..n]);
      LegalInv(genesis, log[..n]);
      hide IsGenesis, ActsAs, OnePerNonce, Inv, Enabled, Apply, IsAttach;
      StepKeepsOnePerNonce(Replay(genesis, log[..n]), log[n]);
    }
  }

  lemma AttachedLast(genesis: State, log: seq<Event>)
    requires log != [] && ActsAs(ZkSyncEra, genesis, log, 0)
    ensures var s, e := Replay(genesis, log[..|log| - 1]), log[|log| - 1];
            e.Create? ==> IsAttach(s, e.row.group, e.row.nonce)
  {
    hide IsAttach, Replay;
  }

  lemma StepKeepsOnePerNonce(s: State, e: Event)
    requires Inv(s) && Enabled(s, e) && OnePerNonce(s.db.txs)
    requires e.Create? ==> IsAttach(s, e.row.group, e.row.nonce)
    ensures OnePerNonce(Apply(s, e).db.txs)
  {
    hide Inv, IsAttach, IsResend, CanFinalize, AfterMine, OnePerNonce;
    match e
    case Create(row) => CreateKeepsOnePerNonce(s, row);
    case Finalize(nonce, _, _, _) =>
      FinalizeEffect(s, e);
      OnePerNonceStays(s.db.txs, Apply(s, e).db.txs, nonce);
    case _ =>
  }

  /**
    No transaction of a nonce was handed over and the account has not used it: whatever zkSync Era processes
    do later, none of them reaches a node, and no transaction at that nonce or above is ever mined or
    settled.
    */
  lemma NeverSentBlocks(genesis: State, from: nat, log: seq<Event>, j: nat)
    requires IsGenesis(genesis) && Legal(genesis, log) && from <= |log| && ActsAs(ZkSyncEra, genesis, log, from)
    requires IsPending(Replay(genesis, log[..from]), j)
    requires Unsent(Replay(genesis, log[..from]), Replay(genesis, log[..from]).db.txs[j].nonce)
    ensures var s, s' := Replay(genesis, log[..from]), Replay(genesis, log);
            && IsPending(s', j) && s.db.txs[j].hash !in s'.chain.sent
            && (forall n <- s'.chain.mined :: n < s.db.txs[j].nonce)
            && (forall k :: 0 <= k < |s'.db.txs| && s.db.txs[j].nonce <= s'.db.txs[k].nonce ==>
                s'.db.txs[k].state.Pending?)
  {
    hide IsGenesis, Legal, Replay, ActsAs, Unsent;
    var first := |Replay(genesis, log[..from]).db.txs|;
    BlockStays(genesis, from, log, j, NeverSent(j, first, Era));
    RowsSettleOnce(genesis, log, from, j);
    LegalInv(genesis, log);
    NothingAbove(Replay(genesis, log), j, first);
  }

  lemma NothingAbove(s: State, j: nat, first: nat)
    requires Inv(s) && BlockedBy(s, j, NeverSent(j, first, Era))
    ensures s.db.txs[j].hash !in s.chain.sent
    ensures forall n <- s.chain.mined :: n < s.db.txs[j].nonce
    ensures forall k :: 0 <= k < |s.db.txs| && s.db.txs[j].nonce <= s.db.txs[k].nonce ==> s.db.txs[k].state.Pending?
  {
    hide PendingInv, ContiguousInv, SpacedInv, DroppedInv, FinalsInv, RowsInv;
    forall k | 0 <= k < |s.db.txs| && s.db.txs[j].nonce <= s.db.txs[k].nonce ensures s.db.txs[k].state.Pending? {
      assert RowTruth(s.db.txs[k], s.chain.mined);
    }
  }

  /**
    Two pending transactions of one nonce, left by Ethereum processes: zkSync Era processes refuse to decide
    about them, so they stay pending, and so does every row above.
    */
  lemma TwicePendingBlocks(genesis: State, from: nat, log: seq<Event>, n: nat, i: nat)
    requires IsGenesis(genesis) && Legal(genesis, log) && from <= |log| && ActsAs(ZkSyncEra, genesis, log, from)
    requires Doubled(Replay(genesis, log[..from]), n)
    requires IsPending(Replay(genesis, log[..from]), i) && n <= Replay(genesis, log[..from]).db.txs[i].nonce
    ensures IsPending(Replay(genesis, log), i)
  {
    hide IsGenesis, Legal, Replay, ActsAs;
    var s := Replay(genesis, log[..from]);
    var j, k :| 0 <= j < k < |s.db.txs| && s.db.txs[j].state.Pending? && s.db.txs[k].state.Pending?
                && s.db.txs[j].nonce == n && s.db.txs[k].nonce == n;
    BlockStays(genesis, from, log, i, Twice(j));
  }

  /**
    The crash: a zkSync Era process dies after recording a transaction and before handing it over.  Its
    row stays pending under every later zkSync Era process.
    */
  lemma CrashBeforeSend(genesis: State, log: seq<Event>, row: TxRow, log': seq<Event>)
    requires IsGenesis(genesis) && Legal(genesis, log)
    requires Enabled(Replay(genesis, log), Create(row)) && IsAttach(Replay(genesis, log), row.group, row.nonce)
    requires log + [Create(row)] <= log' && Legal(genesis, log') && ActsAs(ZkSyncEra, genesis, log', |log| + 1)
    ensures Legal(genesis, log + [Create(row)])
    ensures ActsAs(ZkSyncEra, genesis, log, 0) ==> ActsAs(ZkSyncEra, genesis, log + [Create(row)], 0)
    ensures IsPending(Replay(genesis, log'), |Replay(genesis, log).db.txs|)
  {
    hide IsGenesis, Legal, Replay, ActsAs, Enabled, IsAttach, Unsent, UsedUp;
    var s, log1 := Replay(genesis, log), log + [Create(row)];
    var i := |s.db.txs|;
    LegalInv(genesis, log);
    LogGrows(genesis, log, Create(row));
    if ActsAs(ZkSyncEra, genesis, log, 0) { CreatesAs(ZkSyncEra, genesis, log, row, 0); }
    NewRowUnsettleable(s, row);
    assert log'[..|log1|] == log1;
    if Unsent(Replay(genesis, log1), row.nonce) {
      NeverSentBlocks(genesis, |log1|, log', i);
    } else {
      BlockStays(genesis, |log1|, log', i, Used(i));
    }
  }

  lemma AttachNotWon(s: State, row: TxRow)
    requires Inv(s) && IsAttach(s, row.group, row.nonce)
    ensures !WonByPending(s, row.nonce)
  {
    assert !InFlight(s.db.txs, row.nonce);
    hide Inv, IsAttach, WonByPending, InFlight;
    if WonByPending(s, row.nonce) { WonIsInFlight(s, row.nonce); }
  }

  lemma NewRowUnsettleable(s: State, row: TxRow)
    requires Inv(s) && Enabled(s, Create(row)) && IsAttach(s, row.group, row.nonce)
    ensures var s1 := Apply(s, Create(row));
            && IsPending(s1, |s.db.txs|) && s1.db.txs[|s.db.txs|] == row
            && (Unsent(s1, row.nonce) || UsedUp(s1, row.nonce))
  {
    NewHash(s, row);
    hide PendingInv, ContiguousInv, SpacedInv, DroppedInv, FinalsInv, TruthInv, IsResend, RowPaysPayout;
    var s1 := Apply(s, Create(row));
    assert s1.db.txs[|s.db.txs|] == row;
    assert row.hash !in s.chain.sent;
    forall i | 0 <= i < |s1.db.txs| && s1.db.txs[i].state.Pending? && s1.db.txs[i].nonce == row.nonce
      ensures i == |s.db.txs| {}
    AttachNotWon(s, row);
    CreateWinsNothing(s, row, row.nonce);
  }

  // ---------------------------------------------------------------- a resend that cannot be recorded

  /** Thirty seconds after a transaction was recorded it may be sent again, but not with the same contents. */
  lemma SameTermsAreRefused(s: State, i: nat)
    requires Inv(s) && PaysInv(s) && IsPending(s, i)
    ensures var s' := Apply(s, Tick(NOT_DROPPED_UNTIL));
            var again := s.db.txs[i].(createdAt := Truncate(s'.now));
            && IsResend(s', again.group, again.nonce) && RowPaysPayout(s', again)
            && !CanCreate(s', again)
  {
    hide TruthInv, FinalsInv, ContiguousInv, ChainInv, DroppedInv, FromUSD, PayoutsOf;
    var s' := Apply(s, Tick(NOT_DROPPED_UNTIL));
    assert RowPaysPayout(s, s.db.txs[i]);
    assert InTable(s'.db.txs, s.db.txs[i].hash);
  }
}
