/** What the guards still allow: an unpaid group can always be paid, given a truthful nonce and enough tokens. */
module Possibility {
  import opened Wrappers
  import opened Money
  import opened Tables
  import opened Protocol
  import opened Safety
  import opened Nonces
  import opened Conduct
  import opened Settling
  import opened Recovery
  import Ledger

  /** The contents of the transaction that would pay the group at the account's next nonce. */
  function PayoutBody(s: State, group: int, tokens: int, fees: nat): TxBody
    requires |PayoutsOf(s.db.payouts, group)| == 1
  {
    TxBody(s.chain.next, PayoutsOf(s.db.payouts, group)[0].payee, tokens, fees)
  }

  /** Nothing is pending, the group is unpaid, its payout converts to some tokens, and the account can pay them. */
  predicate IsPayable(s: State, group: int, price: Decimal, tokens: int, fees: nat) {
    && !AnyInFlight(s.db.txs) && Unfinished(s.db, group)
    && |PayoutsOf(s.db.payouts, group)| == 1 && tokens > 0
    && FromUSD(PayoutsOf(s.db.payouts, group)[0].usd, price, s.chain.decimals) == Some(tokens)
    && Affords(Eth, s.chain, tokens)
    && Ledger.Exec(s.chain.ledger, s.chain.spender, PayoutCall(s.chain, PayoutBody(s, group, tokens, fees))).Some?
  }

  function PayoutRow(s: State, group: int, price: Decimal, tokens: int, fees: nat): TxRow
    requires |PayoutsOf(s.db.payouts, group)| == 1
  {
    TxRow(HashOf(PayoutBody(s, group, tokens, fees)), s.chain.next, group, price, tokens, Truncate(s.now), Pending,
        None)
  }

  /** Record, send, mine, finalize. */
  function Payment(row: TxRow): seq<Event> {
    [Create(row), Broadcast(row.hash), Mine(row.hash, true),
     Finalize(row.nonce, row.group, [TxStatus(row.hash, Confirmed, Some(Receipt(row.hash, true)))], 0)]
  }

  lemma CanRecord(s: State, group: int, price: Decimal, tokens: int, fees: nat)
    requires OrderedInv(s) && IsPayable(s, group, price, tokens, fees)
    requires forall i :: 0 <= i < |s.db.txs| ==> s.db.txs[i].nonce == s.db.txs[i].hash.body.nonce
    ensures Enabled(s, Create(PayoutRow(s, group, price, tokens, fees)))
  {
    hide FromUSD, Ledger.Exec, PayoutsOf;
    var row := PayoutRow(s, group, price, tokens, fees);
    assert !InTable(s.db.txs, row.hash);
    assert IsAttach(s, group, row.nonce);
  }

  /** After the row is recorded, sent and mined, its nonce group can be finalized. */
  lemma CanSettle(s: State, row: TxRow)
    requires !AnyInFlight(s.db.txs) && row.state.Pending? && row.nonce == row.hash.body.nonce
    requires forall i :: 0 <= i < |s.db.txs| ==> s.db.txs[i].hash != row.hash
    requires row.nonce in s.chain.mined && s.chain.mined[row.nonce] == Receipt(row.hash, true)
    ensures var s' := s.(db := s.db.(txs := s.db.txs + [row]));
            Enabled(s', Payment(row)[3])
  {
    var s' := s.(db := s.db.(txs := s.db.txs + [row]));
    var statuses := [TxStatus(row.hash, Confirmed, Some(Receipt(row.hash, true)))];
    assert s'.db.txs[|s.db.txs|] == row;
    forall i | 0 <= i < |s'.db.txs|
      ensures Covers(statuses, s'.db.txs[i].hash) <==> s'.db.txs[i].state.Pending? && s'.db.txs[i].nonce == row.nonce
    {
      if i < |s.db.txs| {
        assert s'.db.txs[i] == s.db.txs[i];
        assert !Covers(statuses, s.db.txs[i].hash);
      } else {
        assert statuses[0].hash == row.hash;
      }
    }
    assert CoversNonce(s'.db, row.nonce, statuses);
    assert OneWinner(statuses, 0, s'.chain.mined[row.nonce]);
  }

  predicate SameAccounts(s: State, s': State) {
    && s'.chain.owner == s.chain.owner && s'.chain.spender == s.chain.spender && s'.chain.decimals == s.chain.decimals
    && s'.db.payouts == s.db.payouts
  }

  /** The state after the four steps, one by one. */
  lemma Steps(s: State, row: TxRow)
    requires !AnyInFlight(s.db.txs) && row.nonce == row.hash.body.nonce == s.chain.next && row.state.Pending?
    requires row.tokens == row.hash.body.tokens >= 0
    requires forall i :: 0 <= i < |s.db.txs| ==> s.db.txs[i].hash != row.hash
    requires Ledger.Exec(s.chain.ledger, s.chain.spender, PayoutCall(s.chain, row.hash.body)).Some?
    ensures var p := Payment(row);
            var s1 := Apply(s, p[0]);
            var s2 := Apply(s1, p[1]);
            var s3 := Apply(s2, p[2]);
            && Enabled(s1, p[1]) && Enabled(s2, p[2]) && Enabled(s3, p[3])
            && s3.db == s.db.(txs := s.db.txs + [row])
            && s3.chain.mined == s.chain.mined[row.nonce := Receipt(row.hash, true)]
            && s3.chain.ledger == Ledger.Exec(s.chain.ledger, s.chain.spender, PayoutCall(s.chain, row.hash.body)).value
            && SameAccounts(s, s3)
  {
    hide Ledger.Exec, AnyInFlight;
    var p := Payment(row);
    var s1 := Apply(s, p[0]);
    assert s1.db.txs[|s.db.txs|] == row;
    var s2 := Apply(s1, p[1]);
    var s3 := Apply(s2, p[2]);
    CanSettle(s.(chain := s3.chain), row);
    assert s3 == s.(chain := s3.chain, db := s.db.(txs := s.db.txs + [row]));
  }

  /** Finalizing the only pending row leaves nothing pending and finishes its group. */
  lemma LastSettled(s: State, txs: seq<TxRow>, row: TxRow)
    requires Inv(s) && s.db.txs == txs + [row] && !AnyInFlight(txs) && row.state.Pending?
    requires Enabled(s, Payment(row)[3]) && s.chain.mined[row.nonce] == Receipt(row.hash, true)
    requires Unfinished(s.db, row.group)
    ensures var db := Apply(s, Payment(row)[3]).db;
            !AnyInFlight(db.txs) && db.finals == s.db.finals[row.group := Some(row.hash)]
  {
    hide Inv, CoversNonce, OneWinner, ApplyStatuses;
    var e := Payment(row)[3];
    FinalizeSettles(s, row.nonce, row.group, e.statuses, 0);
    assert s.db.txs[|txs|] == row;
    var db := Settle(s.db, row.nonce, row.group, Receipt(row.hash, true));
    forall i | 0 <= i < |db.txs| ensures !db.txs[i].state.Pending? {
      if i < |txs| { assert s.db.txs[i] == txs[i]; }
    }
  }

  /**
    With nothing pending and true nonces so far, any payable group can be paid by recording, sending,
    mining and finalizing one transaction, and the payout goes on from there with exactly that group
    finished.
    */
  lemma UnpaidCanBePaid(kind: Kind, quote: int -> Decimal, genesis: State, log: seq<Event>, from: nat,
      group: int, tokens: int, fees: nat)
    requires IsGenesis(genesis) && Follows(kind, quote, genesis, log, from) && TruthfulNonces(genesis, log)
    requires IsPayable(Replay(genesis, log), group, quote(group), tokens, fees)
    ensures var s := Replay(genesis, log);
            var row := PayoutRow(s, group, quote(group), tokens, fees);
            var log' := log + Payment(row);
            var s' := Replay(genesis, log');
            && Follows(kind, quote, genesis, log', from)
            && Paid(s'.chain.mined, row.hash) && !AnyInFlight(s'.db.txs)
            && s'.db.finals == s.db.finals[group := Some(row.hash)]
            && s'.chain.ledger == Ledger.Exec(s.chain.ledger, s.chain.spender, PayoutCall(s.chain, row.hash.body)).value
            && SameAccounts(s, s')
  {
    hide IsGenesis, Legal, Replay, TruthfulNonces, Apply, Enabled, AnyInFlight, OrderedInv, FromUSD, Ledger.Exec,
      PayoutsOf, Follows, CreatedSince, OnTerms;
    var s := Replay(genesis, log);
    var row := PayoutRow(s, group, quote(group), tokens, fees);
    var p := Payment(row);
    FollowedFrom(kind, quote, genesis, log, from);
    TruthfulOrdered(genesis, log);
    FreshHash(genesis, log, row.hash);
    CanRecord(s, group, quote(group), tokens, fees);
    AttachesAnew(s, row);
    PayableOnTerms(kind, quote, s, group, tokens, fees);
    Steps(s, row);
    OthersOnTerms(kind, quote, row);
    GoOn(kind, quote, genesis, log, from, s, p[0]);
    var s1, log1 := Apply(s, p[0]), log + [p[0]];
    GoOn(kind, quote, genesis, log1, from, s1, p[1]);
    var s2, log2 := Apply(s1, p[1]), log1 + [p[1]];
    GoOn(kind, quote, genesis, log2, from, s2, p[2]);
    var s3, log3 := Apply(s2, p[2]), log2 + [p[2]];
    GoOn(kind, quote, genesis, log3, from, s3, p[3]);
    assert log + p == log3 + [p[3]];
    FollowedFrom(kind, quote, genesis, log3, from);
    LegalInv(genesis, log3);
    LastSettled(s3, s.db.txs, row);
    FinalizeKeepsChain(s3, p[3]);
  }

  lemma PayableOnTerms(kind: Kind, quote: int -> Decimal, s: State, group: int, tokens: int, fees: nat)
    requires IsPayable(s, group, quote(group), tokens, fees)
    ensures OnTerms(kind, quote, s, Create(PayoutRow(s, group, quote(group), tokens, fees)))
  {
    hide FromUSD, PayoutsOf, Ledger.Exec, Ledger.Bal, Ledger.Allowance;
  }

  lemma OthersOnTerms(kind: Kind, quote: int -> Decimal, row: TxRow)
    ensures forall s :: OnTerms(kind, quote, s, Payment(row)[1]) && OnTerms(kind, quote, s, Payment(row)[2])
                        && OnTerms(kind, quote, s, Payment(row)[3])
  {}

  /** With nothing pending every recorded row opens a new nonce group. */
  lemma AttachesAnew(s: State, row: TxRow)
    requires !AnyInFlight(s.db.txs)
    ensures IsAttach(s, row.group, row.nonce)
  {}

  /** Below the account nonce everything is settled, so a transaction at it is new. */
  lemma FreshHash(genesis: State, log: seq<Event>, hash: Hash)
    requires IsGenesis(genesis) && Legal(genesis, log) && OrderedInv(Replay(genesis, log))
    requires !AnyInFlight(Replay(genesis, log).db.txs) && hash.body.nonce == Replay(genesis, log).chain.next
    ensures forall i :: 0 <= i < |Replay(genesis, log).db.txs| ==>
              var row := Replay(genesis, log).db.txs[i];
              row.hash != hash && row.nonce == row.hash.body.nonce
  {
    hide IsGenesis, Legal, Replay, TruthInv, FinalsInv, PendingInv, ContiguousInv, ChainInv, DroppedInv, SpacedInv;
    LegalInv(genesis, log);
  }

  // ---------------------------------------------------------------- the whole payout

  function TotalCost(s: State, groups: seq<int>, quote: int -> Decimal): int {
    if groups == [] then 0 else Cost(s, groups[0], quote(groups[0])) + TotalCost(s, groups[1..], quote)
  }

  lemma {:induction false} SameCost(s: State, s': State, groups: seq<int>, quote: int -> Decimal)
    requires SameAccounts(s, s')
    ensures TotalCost(s', groups, quote) == TotalCost(s, groups, quote)
    ensures forall g <- groups :: Cost(s', g, quote(g)) == Cost(s, g, quote(g))
  {
    hide PayoutsOf, FromUSD;
    if groups != [] { SameCost(s, s', groups[1..], quote); }
  }

  /** The group pays its owner back: such a transfer must not overflow on the way. */
  predicate FitsInWord(s: State, group: int, quote: int -> Decimal) {
    (|PayoutsOf(s.db.payouts, group)| == 1 && PayoutsOf(s.db.payouts, group)[0].payee == s.chain.owner) ==>
      Ledger.Bal(s.chain.ledger, s.chain.owner) + Cost(s, group, quote(group)) < Ledger.WORD
  }

  /** The owner holds enough for the groups, and the spender may spend that much. */
  predicate HasFunds(s: State, groups: seq<int>, quote: int -> Decimal) {
    && (forall g <- groups :: Cost(s, g, quote(g)) > 0)
    && TotalCost(s, groups, quote) <= Ledger.Bal(s.chain.ledger, s.chain.owner)
    && (s.chain.owner != s.chain.spender ==>
          && TotalCost(s, groups, quote) <= Ledger.Allowance(s.chain.ledger, s.chain.owner, s.chain.spender)
          && forall g <- groups :: FitsInWord(s, g, quote))
  }

  lemma {:induction false} CostIsNonNegative(s: State, groups: seq<int>, quote: int -> Decimal)
    requires forall g <- groups :: Cost(s, g, quote(g)) > 0
    ensures TotalCost(s, groups, quote) >= 0
  {
    hide Cost;
    if groups != [] { CostIsNonNegative(s, groups[1..], quote); }
  }

  lemma FirstIsPayable(s: State, groups: seq<int>, quote: int -> Decimal)
    requires groups != [] && HasFunds(s, groups, quote) && !AnyInFlight(s.db.txs) && Unfinished(s.db, groups[0])
    ensures IsPayable(s, groups[0], quote(groups[0]), Cost(s, groups[0], quote(groups[0])), 0)
  {
    hide PayoutsOf, FromUSD, AnyInFlight;
    CostIsNonNegative(s, groups[1..], quote);
    assert groups[0] in groups;
  }

  /** Without the first group, paid or not, the others still have their funds. */
  lemma RestHasFunds(s: State, s': State, groups: seq<int>, quote: int -> Decimal, spent: int)
    requires groups != [] && HasFunds(s, groups, quote) && SameAccounts(s, s')
               && 0 <= spent <= Cost(s, groups[0], quote(groups[0]))
    requires var a, b := Ledger.Bal(s.chain.ledger, s.chain.owner), Ledger.Bal(s'.chain.ledger, s.chain.owner);
             a - spent <= b <= a
    requires s.chain.owner != s.chain.spender ==>
               Ledger.Allowance(s'.chain.ledger, s.chain.owner, s.chain.spender)
                 == Ledger.Allowance(s.chain.ledger, s.chain.owner, s.chain.spender) - spent
    ensures HasFunds(s', groups[1..], quote)
  {
    hide Cost, Ledger.Bal, Ledger.Allowance, PayoutsOf;
    SameCost(s, s', groups[1..], quote);
    assert forall g <- groups[1..] :: g in groups;
  }

  lemma AllButFirst(groups: seq<int>, g: int)
    requires groups != [] && g in groups && g != groups[0]
    ensures g in groups[1..]
  {
    assert groups == [groups[0]] + groups[1..];
  }

  /** Pays the groups one after the other, from a state with nothing pending. */
  lemma {:induction false} PayAll(kind: Kind, quote: int -> Decimal, genesis: State, log: seq<Event>, from: nat,
      groups: seq<int>)
    returns (log': seq<Event>)
    requires IsGenesis(genesis) && Follows(kind, quote, genesis, log, from) && TruthfulNonces(genesis, log[..from])
    requires !AnyInFlight(Replay(genesis, log).db.txs) && HasFunds(Replay(genesis, log), groups, quote)
    requires forall g :: Unfinished(Replay(genesis, log).db, g) ==> g in groups
    ensures log <= log' && Follows(kind, quote, genesis, log', from)
    ensures !AnyInFlight(Replay(genesis, log').db.txs) && UnfinishedSet(Replay(genesis, log').db) == {}
    decreases |groups|
  {
    hide IsGenesis, Replay, IsPayable, AnyInFlight, Payment, PayoutsOf, FromUSD, Cost, Follows, Legal, TruthfulNonces,
      HasFunds, TotalCost, Ledger.Exec, Ledger.Bal, Ledger.Allowance;
    var s := Replay(genesis, log);
    if groups == [] { return log; }
    StillTrue(kind, quote, genesis, log, from);
    if !Unfinished(s.db, groups[0]) {
      FirstCosts(s, groups, quote);
      RestHasFunds(s, s, groups, quote, 0);
      forall g | Unfinished(s.db, g) ensures g in groups[1..] { AllButFirst(groups, g); }
      log' := PayAll(kind, quote, genesis, log, from, groups[1..]);
    } else {
      var tokens := Cost(s, groups[0], quote(groups[0]));
      FirstIsPayable(s, groups, quote);
      HasOnePayout(s, groups[0], quote, tokens);
      var row := PayoutRow(s, groups[0], quote(groups[0]), tokens, 0);
      UnpaidCanBePaid(kind, quote, genesis, log, from, groups[0], tokens, 0);
      var log1 := log + Payment(row);
      var s1 := Replay(genesis, log1);
      PayoutSpends(s.chain, row.hash.body);
      RestHasFunds(s, s1, groups, quote, tokens);
      forall g | Unfinished(s1.db, g) ensures g in groups[1..] { AllButFirst(groups, g); }
      assert log1[..from] == log[..from];
      log' := PayAll(kind, quote, genesis, log1, from, groups[1..]);
    }
  }

  lemma StillTrue(kind: Kind, quote: int -> Decimal, genesis: State, log: seq<Event>, from: nat)
    requires Follows(kind, quote, genesis, log, from) && TruthfulNonces(genesis, log[..from])
    ensures from <= |log| && TruthfulNonces(genesis, log)
  {}

  lemma FirstCosts(s: State, groups: seq<int>, quote: int -> Decimal)
    requires groups != [] && HasFunds(s, groups, quote)
    ensures Cost(s, groups[0], quote(groups[0])) > 0
  {
    assert groups[0] in groups;
  }

  lemma HasOnePayout(s: State, group: int, quote: int -> Decimal, tokens: int)
    requires IsPayable(s, group, quote(group), tokens, 0)
    ensures |PayoutsOf(s.db.payouts, group)| == 1 && tokens > 0
    ensures Ledger.Exec(s.chain.ledger, s.chain.spender, PayoutCall(s.chain, PayoutBody(s, group, tokens, 0))).Some?
  {}

  /** The group still has to be paid: it is unfinished, and no transfer for it succeeded unnoticed. */
  predicate IsOwed(s: State, g: int) {
    && Unfinished(s.db, g)
    && forall i :: 0 <= i < |s.db.txs| && s.db.txs[i].group == g ==> !Paid(s.chain.mined, s.db.txs[i].hash)
  }

  /** With nothing pending, what is unfinished was never paid, neither now nor before. */
  lemma UnfinishedIsOwed(s: State, s': State, g: int)
    requires Inv(s') && Cleared(s, s') && !AnyInFlight(s'.db.txs) && Unfinished(s'.db, g)
    ensures IsOwed(s, g)
  {
    hide Inv;
    forall i | 0 <= i < |s.db.txs| && s.db.txs[i].group == g ensures !Paid(s.chain.mined, s.db.txs[i].hash) {
      if Paid(s.chain.mined, s.db.txs[i].hash) { PaidRowState(s', i); }
    }
  }

  lemma SameFunds(s: State, s': State, groups: seq<int>, quote: int -> Decimal)
    requires Cleared(s, s') && HasFunds(s, groups, quote)
    ensures HasFunds(s', groups, quote)
  {
    hide Cost, PayoutsOf, Ledger.Bal, Ledger.Allowance;
    SameCost(s, s', groups, quote);
  }

  /** A group with a row that no transfer paid is still owed, and funded. */
  lemma PendingIsOwed(s: State, i: nat)
    requires Inv(s) && IsPending(s, i) && Unsent(s, s.db.txs[i].nonce)
    ensures IsOwed(s, s.db.txs[i].group)
  {
    hide ContiguousInv, SpacedInv, DroppedInv, RowsInv, TruthInv;
    forall k | 0 <= k < |s.db.txs| && s.db.txs[k].group == s.db.txs[i].group
      ensures !Paid(s.chain.mined, s.db.txs[k].hash)
    {
      if Paid(s.chain.mined, s.db.txs[k].hash) { PaidIsPast(s, k, i); }
    }
  }

  /** A paid row of a group with a pending row is pending itself, at a nonce the account is past. */
  lemma PaidIsPast(s: State, k: nat, i: nat)
    requires Inv(s) && IsPending(s, i) && k < |s.db.txs| && Paid(s.chain.mined, s.db.txs[k].hash)
    requires s.db.txs[k].group == s.db.txs[i].group
    ensures s.db.txs[i].nonce < s.chain.next
  {
    PaidRowState(s, k);
    hide ContiguousInv, SpacedInv, DroppedInv, TruthInv, FinalsInv;
  }

  /** The funds for what is owed also pay for sending again. */
  lemma FundsDeliver(quote: int -> Decimal, s: State, groups: seq<int>)
    requires Inv(s) && HasFunds(s, groups, quote) && forall g :: IsOwed(s, g) ==> g in groups
    ensures AllDeliverable(Eth, quote, s)
  {
    hide Inv, IsOwed, HasFunds, CanPay, Unsent;
    forall i | 0 <= i < |s.db.txs| && s.db.txs[i].state.Pending? ensures Deliverable(Eth, quote, s, s.db.txs[i].nonce) {
      if Unsent(s, s.db.txs[i].nonce) {
        forall k | 0 <= k < |s.db.txs| && s.db.txs[k].state.Pending? && s.db.txs[k].nonce == s.db.txs[i].nonce
          ensures CanPay(s, s.db.txs[k].group, quote(s.db.txs[k].group))
        {
          PendingIsOwed(s, k);
          FundedCanPay(quote, s, groups, s.db.txs[k].group);
        }
      }
    }
  }

  lemma {:induction false} OneCost(s: State, groups: seq<int>, quote: int -> Decimal, g: int)
    requires g in groups && forall h <- groups :: Cost(s, h, quote(h)) > 0
    ensures Cost(s, g, quote(g)) <= TotalCost(s, groups, quote)
  {
    hide Cost;
    if g == groups[0] {
      CostIsNonNegative(s, groups[1..], quote);
    } else {
      AllButFirst(groups, g);
      FirstIsPositive(s, groups, quote);
      OneCost(s, groups[1..], quote, g);
    }
  }

  lemma FirstIsPositive(s: State, groups: seq<int>, quote: int -> Decimal)
    requires groups != [] && forall h <- groups :: Cost(s, h, quote(h)) > 0
    ensures Cost(s, groups[0], quote(groups[0])) > 0
  {
    assert groups[0] in groups;
  }

  lemma FundedCanPay(quote: int -> Decimal, s: State, groups: seq<int>, g: int)
    requires HasFunds(s, groups, quote) && g in groups
    ensures CanPay(s, g, quote(g))
  {
    hide Cost, Ledger.Bal, Ledger.Allowance;
    OneCost(s, groups, quote, g);
  }

  /**
    However a payout was stopped, it can be brought to a clean finish by processes that are told the truth,
    at the quoted prices, if the owner (and the allowance of the spender) can pay what is still owed: on
    Ethereum always, on zkSync Era as long as everything pending was handed over, one for each nonce.
    */
  lemma EverybodyCanBePaid(kind: Kind, quote: int -> Decimal, genesis: State, log: seq<Event>, groups: seq<int>)
    returns (log': seq<Event>)
    requires IsGenesis(genesis) && Legal(genesis, log) && TruthfulNonces(genesis, log)
    requires kind.ZkSyncEra? ==> AllDeliverable(kind, quote, Replay(genesis, log))
    requires HasFunds(Replay(genesis, log), groups, quote)
    requires forall g :: g in groups <==> IsOwed(Replay(genesis, log), g)
    ensures log <= log' && Legal(genesis, log') && ActsAs(kind, genesis, log', |log|)
    ensures LeftToItself(kind, quote, genesis, log', |log|)
    ensures !AnyInFlight(Replay(genesis, log').db.txs) && UnfinishedSet(Replay(genesis, log').db) == {}
  {
    hide IsGenesis, Replay, Legal, TruthfulNonces, AnyInFlight, AllDeliverable, HasFunds, IsOwed, ActsAs, Follows,
      Cleared, LeftToItself;
    var s := Replay(genesis, log);
    assert log[..|log|] == log;
    StartsFollowing(kind, quote, genesis, log);
    LegalInv(genesis, log);
    if kind.Eth? { FundsDeliver(quote, s, groups); }
    var log1 := ClearPending(kind, quote, genesis, log, |log|);
    var s1 := Replay(genesis, log1);
    FollowedFrom(kind, quote, genesis, log1, |log|);
    LegalInv(genesis, log1);
    forall g | Unfinished(s1.db, g) ensures g in groups { UnfinishedIsOwed(s, s1, g); }
    SameFunds(s, s1, groups, quote);
    assert log1[..|log|] == log;
    log' := PayAll(kind, quote, genesis, log1, |log|, groups);
    FollowedActs(kind, quote, genesis, log', |log|);
  }
}
