/**
  When a recorded transaction can never be settled.  A pending nonce is blocked by an earlier nonce that
  was used up, by a nonce below it that nobody fills, by a transaction that was never handed over and
  is not sent again (on zkSync Era none is, on Ethereum none that cannot be paid), and on zkSync Era by a
  second transaction of its nonce; each of them lasts.
  */
module Settling {
  import opened Money
  import opened Tables
  import opened Protocol
  import opened Safety
  import opened Nonces
  import opened Conduct
  import Ledger

  predicate IsPending(s: State, i: nat) {
    i < |s.db.txs| && s.db.txs[i].state.Pending?
  }

  /** What was mined at the nonce is one of the pending rows. */
  predicate WonByPending(s: State, n: nat) {
    n in s.chain.mined &&
    exists w :: 0 <= w < |s.db.txs| && s.db.txs[w].state.Pending? && s.db.txs[w].hash == s.chain.mined[n].hash
  }

  /** The account is past the nonce, and not with one of the pending rows. */
  predicate UsedUp(s: State, n: nat) {
    n < s.chain.next && !WonByPending(s, n)
  }

  /** The account waits for a nonce below n, or n itself, that no pending row has. */
  predicate Gap(s: State, n: nat) {
    s.chain.next <= n && !InFlight(s.db.txs, s.chain.next)
  }

  /** The account has not reached the nonce, and none of its pending rows ever reached a node. */
  predicate Unsent(s: State, n: nat) {
    && s.chain.next <= n
    && forall i :: 0 <= i < |s.db.txs| && s.db.txs[i].state.Pending? && s.db.txs[i].nonce == n ==>
         s.db.txs[i].hash !in s.chain.sent
  }

  /** Two pending rows share the nonce. */
  predicate Doubled(s: State, n: nat) {
    exists i, j :: 0 <= i < j < |s.db.txs| && s.db.txs[i].state.Pending? && s.db.txs[j].state.Pending?
                   && s.db.txs[i].nonce == n && s.db.txs[j].nonce == n
  }

  /** What paying a group takes at a price. */
  function Cost(s: State, group: int, price: Decimal): int {
    var payouts := PayoutsOf(s.db.payouts, group);
    if |payouts| != 1 then 0
    else match FromUSD(payouts[0].usd, price, s.chain.decimals) case Some(tokens) => tokens case None => 0
  }

  /** The group can be paid once at the price. */
  predicate CanPay(s: State, group: int, price: Decimal) {
    Cost(s, group, price) > 0 && Affords(Eth, s.chain, Cost(s, group, price))
  }

  /** Another transaction for the nonce can be paid at the quoted price. */
  predicate CanResend(quote: int -> Decimal, s: State, n: nat) {
    forall i :: 0 <= i < |s.db.txs| && s.db.txs[i].state.Pending? && s.db.txs[i].nonce == n ==>
      CanPay(s, s.db.txs[i].group, quote(s.db.txs[i].group))
  }

  /**
    Processes of the kind can get a verdict on the nonce, once the account gets there: on Ethereum one of
    its rows was handed over, or another one can be paid; on zkSync Era its only row was handed over.
    */
  predicate Deliverable(kind: Kind, quote: int -> Decimal, s: State, n: nat) {
    match kind
    case Eth => Unsent(s, n) ==> CanResend(quote, s, n)
    case ZkSyncEra => !Unsent(s, n) && !Doubled(s, n)
  }

  /** The account gets to the nonce, and none of the pending ones up to it is used up. */
  predicate Open(s: State, n: nat) {
    !Gap(s, n) && forall m :: 0 <= m <= n && InFlight(s.db.txs, m) ==> !UsedUp(s, m)
  }

  /** The account gets to the nonce, and every pending one up to it can get a verdict. */
  predicate Settleable(kind: Kind, quote: int -> Decimal, s: State, n: nat) {
    Open(s, n) && forall m :: 0 <= m <= n && InFlight(s.db.txs, m) ==> Deliverable(kind, quote, s, m)
  }

  /** No nonce is pending twice. */
  predicate OnePerNonce(txs: seq<TxRow>) {
    forall i, j :: (0 <= i < |txs| && 0 <= j < |txs| && txs[i].state.Pending? && txs[j].state.Pending?
                    && txs[i].nonce == txs[j].nonce) ==> i == j
  }

  // ---------------------------------------------------------------- what a finalization does

  /** The rows of a nonce leave "pending", and all other rows stay as they are. */
  predicate SettlesNonce(txs: seq<TxRow>, txs': seq<TxRow>, n: nat) {
    && |txs'| == |txs|
    && (forall i :: 0 <= i < |txs| && txs[i].state.Pending? && txs[i].nonce == n ==>
          !txs'[i].state.Pending? && SameTransaction(txs[i], txs'[i]))
    && (forall i :: 0 <= i < |txs| && !(txs[i].state.Pending? && txs[i].nonce == n) ==> txs'[i] == txs[i])
  }

  lemma FinalizeEffect(s: State, e: Event)
    requires Inv(s) && e.Finalize? && Enabled(s, e)
    ensures SettlesNonce(s.db.txs, Apply(s, e).db.txs, e.nonce)
  {
    hide RowsInv, PendingInv, ContiguousInv, SpacedInv, DroppedInv, TruthInv, FinalsInv, ChainInv, CoversNonce,
      OneWinner,
      ApplyStatuses;
    FinalizeSettles(s, e.nonce, e.group, e.statuses, e.winner);
  }

  /** The finalized nonce is the lowest pending one, and a pending row won it. */
  lemma FinalizedIsWon(s: State, e: Event)
    requires Inv(s) && e.Finalize? && Enabled(s, e)
    ensures WonByPending(s, e.nonce) && e.nonce < s.chain.next
    ensures forall i :: 0 <= i < |s.db.txs| && s.db.txs[i].state.Pending? ==> e.nonce <= s.db.txs[i].nonce
  {
    hide RowsInv, PendingInv, ContiguousInv, SpacedInv, DroppedInv, TruthInv, FinalsInv;
    var w := WinnerRow(s, e.nonce, e.group, e.statuses, e.winner);
  }

  // ---------------------------------------------------------------- what blocks a row

  /**
    Why a transaction that was not handed over is not sent again: the payer, the price, or there are no
    tokens left.
    */
  datatype Reason = Era | Unpayable(quote: int -> Decimal) | NoSupply

  /** What keeps a pending row from being settled; the `first` rows were there when the block was found. */
  datatype Block = Gapped | Used(j: nat) | NeverSent(j: nat, first: nat, why: Reason) | Twice(j: nat)

  ghost predicate Lasts(s: State, j: nat, why: Reason)
    requires j < |s.db.txs|
  {
    match why
    case Era => true
    case Unpayable(quote) => !CanPay(s, s.db.txs[j].group, quote(s.db.txs[j].group))
    case NoSupply => Ledger.Conserved(s.chain.ledger) && s.chain.ledger.supply == 0
  }

  /** Every pending row of the nonce is among the first ones. */
  predicate OnlyOld(s: State, n: nat, first: nat) {
    forall k :: 0 <= k < |s.db.txs| && s.db.txs[k].state.Pending? && s.db.txs[k].nonce == n ==> k < first
  }

  ghost predicate BlockedBy(s: State, i: nat, b: Block) {
    && IsPending(s, i)
    && match b
       case Gapped => Gap(s, s.db.txs[i].nonce)
       case Used(j) => IsPending(s, j) && s.db.txs[j].nonce <= s.db.txs[i].nonce && UsedUp(s, s.db.txs[j].nonce)
       case NeverSent(j, first, why) =>
         && IsPending(s, j) && s.db.txs[j].nonce <= s.db.txs[i].nonce && Unsent(s, s.db.txs[j].nonce)
         && OnlyOld(s, s.db.txs[j].nonce, first) && Lasts(s, j, why)
       case Twice(j) => IsPending(s, j) && s.db.txs[j].nonce <= s.db.txs[i].nonce && Doubled(s, s.db.txs[j].nonce)
  }

  /**
    A step that does not undo the block: it hands over none of those first rows, and sends and decides as
    the reason says.
    */
  predicate Respects(s: State, e: Event, b: Block) {
    match b
    case Gapped => true
    case Used(_) => true
    case Twice(_) => e.Finalize? ==> |e.statuses| == 1
    case NeverSent(_, first, why) =>
      && (e.Broadcast? ==> forall k :: 0 <= k < first && k < |s.db.txs| ==> s.db.txs[k].hash != e.hash)
      && match why
         case Era => e.Create? ==> IsAttach(s, e.row.group, e.row.nonce)
         case Unpayable(quote) => OnTerms(Eth, quote, s, e)
         case NoSupply => e.Create? ==> Affords(Eth, s.chain, e.row.tokens)
  }

  /** A mined nonce belongs to a recorded row, and a new one to a pending row. */
  lemma MinedNext(s: State, hash: Hash, success: bool) returns (w: nat)
    requires Inv(s) && Enabled(s, Mine(hash, success))
    ensures IsPending(s, w) && s.db.txs[w].hash == hash && s.db.txs[w].nonce == s.chain.next
  {
    hide PendingInv, ContiguousInv, SpacedInv, DroppedInv, FinalsInv, AfterMine;
    assert InTable(s.db.txs, hash);
    w :| 0 <= w < |s.db.txs| && s.db.txs[w].hash == hash;
    assert RowTruth(s.db.txs[w], s.chain.mined);
  }

  lemma MineKeepsBlock(s: State, hash: Hash, success: bool, i: nat, b: Block)
    requires Inv(s) && Enabled(s, Mine(hash, success)) && BlockedBy(s, i, b)
    ensures BlockedBy(Apply(s, Mine(hash, success)), i, b)
  {
    if b.NeverSent? {
      MineKeepsUnsent(s, hash, success, i, b);
    } else {
      var w := MinedNext(s, hash, success);
      NoGapAtNext(s, w);
      MineKeepsTables(s, hash, success);
      hide Inv, Enabled, Apply, Doubled, Gap, UsedUp;
      match b
      case Gapped =>
      case Used(j) => MineWinsNothing(s, hash, success, s.db.txs[j].nonce);
      case Twice(j) => DoubledInTable(s, Apply(s, Mine(hash, success)), s.db.txs[j].nonce);
    }
  }

  lemma MineKeepsUnsent(s: State, hash: Hash, success: bool, i: nat, b: Block)
    requires Inv(s) && Enabled(s, Mine(hash, success)) && BlockedBy(s, i, b) && b.NeverSent?
    ensures BlockedBy(Apply(s, Mine(hash, success)), i, b)
  {
    var w := MinedNext(s, hash, success);
    SentBeforeMined(s, hash, success);
    MineLasts(s, hash, success, b.j, b.why);
    MineKeepsTables(s, hash, success);
    hide Inv, Enabled, Apply, Lasts, OnlyOld, Unsent;
    MineLeavesUnsent(s, hash, success, w, s.db.txs[b.j].nonce, b.first);
  }

  lemma NoGapAtNext(s: State, w: nat)
    requires IsPending(s, w) && s.db.txs[w].nonce == s.chain.next
    ensures forall n :: n >= 0 ==> !Gap(s, n)
  {}

  lemma MineKeepsTables(s: State, hash: Hash, success: bool)
    ensures Apply(s, Mine(hash, success)).db == s.db
  {}

  lemma MineWinsNothing(s: State, hash: Hash, success: bool, n: nat)
    requires UsedUp(s, n)
    ensures UsedUp(Apply(s, Mine(hash, success)), n)
  {
    hide AfterMine;
  }

  lemma DoubledInTable(s: State, s': State, n: nat)
    requires Doubled(s, n) && s'.db == s.db
    ensures Doubled(s', n)
  {}

  lemma MineLeavesUnsent(s: State, hash: Hash, success: bool, w: nat, n: nat, first: nat)
    requires Unsent(s, n) && OnlyOld(s, n, first) && hash in s.chain.sent
    requires IsPending(s, w) && s.db.txs[w].hash == hash && s.db.txs[w].nonce == s.chain.next
    ensures Unsent(Apply(s, Mine(hash, success)), n) && OnlyOld(Apply(s, Mine(hash, success)), n, first)
  {
    hide AfterMine;
    assert s.chain.next != n;
  }

  lemma SentBeforeMined(s: State, hash: Hash, success: bool)
    requires Enabled(s, Mine(hash, success))
    ensures hash in s.chain.sent
  {
    hide AfterMine;
  }

  /** A payout that goes through leaves its owner no richer, and the token no larger. */
  lemma MineLasts(s: State, hash: Hash, success: bool, j: nat, why: Reason)
    requires Enabled(s, Mine(hash, success)) && j < |s.db.txs| && Lasts(s, j, why)
    ensures Lasts(Apply(s, Mine(hash, success)), j, why)
  {
    hide PayoutsOf, FromUSD;
    if success {
      var call := PayoutCall(s.chain, hash.body);
      match why
      case Era =>
      case Unpayable(quote) =>
        PayoutSpends(s.chain, hash.body);
        hide Ledger.Exec, Ledger.Bal, Ledger.Allowance;
      case NoSupply =>
        SupplyShrinks(s.chain.ledger, s.chain.spender, call);
    }
  }

  lemma SupplyShrinks(l: Ledger.Ledger, sender: Address, call: Ledger.Call)
    requires Ledger.Conserved(l) && Ledger.Exec(l, sender, call).Some?
    ensures Ledger.Conserved(Ledger.Exec(l, sender, call).value)
              && Ledger.Exec(l, sender, call).value.supply <= l.supply
  {
    Ledger.ExecConserves(l, sender, call);
    hide Ledger.Conserved;
  }

  lemma FinalizeKeepsBlock(s: State, e: Event, i: nat, b: Block)
    requires Inv(s) && e.Finalize? && Enabled(s, e) && BlockedBy(s, i, b) && Respects(s, e, b)
    ensures BlockedBy(Apply(s, e), i, b)
  {
    FinalizeEffect(s, e);
    FinalizedIsWon(s, e);
    FinalizeKeepsChain(s, e);
    if b.Twice? { SingleIsNotDoubled(s, e); }
    hide Enabled, Apply, SettlesNonce, WonByPending, UsedUp, Gap, Lasts, Doubled, OnlyOld;
    match b {
      case Gapped => WonIsNoGap(s, i, e.nonce);
      case Used(j) => UsedNotWon(s, j, e.nonce);
      case NeverSent(j, _, _) =>
      case Twice(j) =>
    }
    StaysBlocked(s, Apply(s, e), e.nonce, i, b);
  }

  /** A finalization with a single verdict settles a nonce with a single row. */
  lemma SingleIsNotDoubled(s: State, e: Event)
    requires Inv(s) && e.Finalize? && Enabled(s, e) && |e.statuses| == 1
    ensures !Doubled(s, e.nonce)
  {
    hide PendingInv, ContiguousInv, SpacedInv, DroppedInv, TruthInv, FinalsInv, ChainInv, OneWinner;
    forall i, j | 0 <= i < j < |s.db.txs| && s.db.txs[i].state.Pending? && s.db.txs[j].state.Pending?
      ensures !(s.db.txs[i].nonce == e.nonce && s.db.txs[j].nonce == e.nonce)
    {
      assert Covers(e.statuses, s.db.txs[i].hash) ==> e.statuses[0].hash == s.db.txs[i].hash;
      assert Covers(e.statuses, s.db.txs[j].hash) ==> e.statuses[0].hash == s.db.txs[j].hash;
    }
  }

  lemma UsedNotWon(s: State, j: nat, n: nat)
    requires IsPending(s, j) && UsedUp(s, s.db.txs[j].nonce) && WonByPending(s, n)
    ensures s.db.txs[j].nonce != n
  {}

  lemma WonIsNoGap(s: State, i: nat, n: nat)
    requires Inv(s) && IsPending(s, i) && WonByPending(s, n) && n < s.chain.next
    ensures !Gap(s, s.db.txs[i].nonce)
  {
    WonIsInFlight(s, n);
    NoGapAbove(s, i, n);
  }

  lemma WonIsInFlight(s: State, n: nat)
    requires Inv(s) && WonByPending(s, n)
    ensures InFlight(s.db.txs, n)
  {
    hide PendingInv, ContiguousInv, SpacedInv, DroppedInv, TruthInv, FinalsInv;
  }

  /** Settling a lower nonce unblocks nothing. */
  lemma StaysBlocked(s: State, s': State, n: nat, i: nat, b: Block)
    requires BlockedBy(s, i, b) && SettlesNonce(s.db.txs, s'.db.txs, n)
    requires s'.chain == s.chain && s'.db.payouts == s.db.payouts
    requires forall k :: 0 <= k < |s.db.txs| && s.db.txs[k].state.Pending? ==> n <= s.db.txs[k].nonce
    requires match b case Gapped => s.chain.next > n && s.db.txs[i].nonce != n
                     case Used(j) => s.db.txs[j].nonce != n
                     case NeverSent(j, _, _) => n < s.chain.next
                     case Twice(j) => s.db.txs[j].nonce != n
    ensures BlockedBy(s', i, b)
  {
    hide CanPay;
    match b
    case Gapped =>
    case Used(j) =>
      NotWonLater(s, s', n, s.db.txs[j].nonce);
    case NeverSent(j, _, _) =>
      SameCanPay(s, s');
      UnsentStays(s, s', n, s.db.txs[j].nonce, b.first);
    case Twice(j) =>
      DoubledStays(s, s', n, s.db.txs[j].nonce);
  }

  lemma SameCanPay(s: State, s': State)
    requires s'.db.payouts == s.db.payouts && s'.chain.ledger == s.chain.ledger && s'.chain.decimals == s.chain.decimals
    requires s'.chain.owner == s.chain.owner && s'.chain.spender == s.chain.spender
    ensures forall g, price :: CanPay(s', g, price) <==> CanPay(s, g, price)
  {
    hide PayoutsOf, FromUSD, Ledger.Bal, Ledger.Allowance;
  }

  lemma UnsentStays(s: State, s': State, n: nat, m: nat, first: nat)
    requires SettlesNonce(s.db.txs, s'.db.txs, n) && s'.chain == s.chain && Unsent(s, m) && OnlyOld(s, m, first)
    ensures Unsent(s', m) && OnlyOld(s', m, first)
  {
    forall k | 0 <= k < |s'.db.txs| && s'.db.txs[k].state.Pending? ensures s'.db.txs[k] == s.db.txs[k] {}
  }

  lemma DoubledStays(s: State, s': State, n: nat, m: nat)
    requires SettlesNonce(s.db.txs, s'.db.txs, n) && n != m && Doubled(s, m)
    ensures Doubled(s', m)
  {
    var i, j :| 0 <= i < j < |s.db.txs| && s.db.txs[i].state.Pending? && s.db.txs[j].state.Pending?
                && s.db.txs[i].nonce == m && s.db.txs[j].nonce == m;
    assert s'.db.txs[i] == s.db.txs[i] && s'.db.txs[j] == s.db.txs[j];
  }

  lemma NotWonLater(s: State, s': State, n: nat, m: nat)
    requires SettlesNonce(s.db.txs, s'.db.txs, n) && s'.chain == s.chain
    ensures WonByPending(s', m) ==> WonByPending(s, m)
  {
    if WonByPending(s', m) {
      var w :| 0 <= w < |s'.db.txs| && s'.db.txs[w].state.Pending? && s'.db.txs[w].hash == s'.chain.mined[m].hash;
      assert s.db.txs[w] == s'.db.txs[w];
    }
  }

  lemma OnePerNonceStays(txs: seq<TxRow>, txs': seq<TxRow>, n: nat)
    requires OnePerNonce(txs) && SettlesNonce(txs, txs', n)
    ensures OnePerNonce(txs')
  {
    forall i, j | 0 <= i < |txs'| && 0 <= j < |txs'| && txs'[i].state.Pending? && txs'[j].state.Pending?
      && txs'[i].nonce == txs'[j].nonce ensures i == j
    {
      assert txs'[i] == txs[i] && txs'[j] == txs[j];
    }
  }

  lemma FinalizeKeepsChain(s: State, e: Event)
    requires e.Finalize?
    ensures Apply(s, e).chain == s.chain && Apply(s, e).db.payouts == s.db.payouts
  {}

  /** The pending nonces leave no gap. */
  lemma NoGapAbove(s: State, i: nat, n: nat)
    requires Inv(s) && IsPending(s, i) && InFlight(s.db.txs, n) && n < s.chain.next
    ensures !Gap(s, s.db.txs[i].nonce)
  {
    hide RowsInv, PendingInv, SpacedInv, DroppedInv, TruthInv, FinalsInv, ChainInv;
    var j :| 0 <= j < |s.db.txs| && s.db.txs[j].state.Pending? && s.db.txs[j].nonce == n;
    if s.chain.next <= s.db.txs[i].nonce { assert InFlight(s.db.txs, s.chain.next); }
  }

  lemma CreateKeepsBlock(s: State, row: TxRow, i: nat, b: Block)
    requires Inv(s) && Enabled(s, Create(row)) && BlockedBy(s, i, b) && Respects(s, Create(row), b)
    ensures BlockedBy(Apply(s, Create(row)), i, b)
  {
    if b.NeverSent? {
      CreateKeepsUnsent(s, row, i, b);
    } else {
      NewRow(s, row);
      hide Inv, Enabled, Gap, UsedUp, Doubled, IsAttach, IsResend, InTable;
      match b
      case Gapped => StillGap(s, row, i);
      case Used(j) => StillUsedUp(s, row, s.db.txs[j].nonce);
      case Twice(j) => StillDoubled(s, Apply(s, Create(row)), row, s.db.txs[j].nonce);
    }
  }

  lemma CreateKeepsUnsent(s: State, row: TxRow, i: nat, b: Block)
    requires Inv(s) && Enabled(s, Create(row)) && BlockedBy(s, i, b) && Respects(s, Create(row), b) && b.NeverSent?
    ensures BlockedBy(Apply(s, Create(row)), i, b)
  {
    NotAtNonce(s, row, b.j, b.why);
    NewRow(s, row);
    hide Inv, Enabled, Respects, Lasts, Unsent, OnlyOld, IsAttach, IsResend, InTable;
    LastsAlike(s, Apply(s, Create(row)), b.j, b.why);
    StillUnsent(s, Apply(s, Create(row)), row, s.db.txs[b.j].nonce, b.first);
  }

  lemma NewRow(s: State, row: TxRow)
    requires Enabled(s, Create(row))
    ensures var txs' := Apply(s, Create(row)).db.txs;
            && |txs'| == |s.db.txs| + 1 && (forall k :: 0 <= k < |s.db.txs| ==> txs'[k] == s.db.txs[k])
            && !InTable(s.db.txs, row.hash)
            && (IsAttach(s, row.group, row.nonce) || IsResend(s, row.group, row.nonce))
  {
    hide IsAttach, IsResend, RowPaysPayout, InTable;
  }

  lemma LastsAlike(s: State, s': State, j: nat, why: Reason)
    requires j < |s.db.txs| && j < |s'.db.txs| && s'.db.txs[j].group == s.db.txs[j].group
    requires s'.db.payouts == s.db.payouts && s'.chain.ledger == s.chain.ledger && s'.chain.decimals == s.chain.decimals
    requires s'.chain.owner == s.chain.owner && s'.chain.spender == s.chain.spender && Lasts(s, j, why)
    ensures Lasts(s', j, why)
  {
    hide CanPay, Ledger.Conserved;
    SameCanPay(s, s');
  }

  lemma StillGap(s: State, row: TxRow, i: nat)
    requires IsPending(s, i) && Gap(s, s.db.txs[i].nonce)
    requires IsAttach(s, row.group, row.nonce) || IsResend(s, row.group, row.nonce)
    ensures Gap(Apply(s, Create(row)), s.db.txs[i].nonce)
  {
    GapStays(s, row, i);
  }

  lemma StillUsedUp(s: State, row: TxRow, n: nat)
    requires Inv(s) && UsedUp(s, n) && !InTable(s.db.txs, row.hash)
    ensures UsedUp(Apply(s, Create(row)), n)
  {
    CreateWinsNothing(s, row, n);
    hide Inv;
  }

  lemma StillUnsent(s: State, s': State, row: TxRow, n: nat, first: nat)
    requires Unsent(s, n) && OnlyOld(s, n, first) && row.nonce != n
    requires s'.db.txs == s.db.txs + [row] && s'.chain == s.chain
    ensures Unsent(s', n) && OnlyOld(s', n, first)
  {}

  lemma StillDoubled(s: State, s': State, row: TxRow, n: nat)
    requires Doubled(s, n) && s'.db.txs == s.db.txs + [row]
    ensures Doubled(s', n)
  {
    var i, j :| 0 <= i < j < |s.db.txs| && s.db.txs[i].state.Pending? && s.db.txs[j].state.Pending?
                && s.db.txs[i].nonce == n && s.db.txs[j].nonce == n;
    assert s'.db.txs[i] == s.db.txs[i] && s'.db.txs[j] == s.db.txs[j];
  }

  /** Nothing more is recorded for the nonce. */
  lemma NotAtNonce(s: State, row: TxRow, j: nat, why: Reason)
    requires Inv(s) && Enabled(s, Create(row)) && IsPending(s, j) && Lasts(s, j, why)
    requires match why case Era => IsAttach(s, row.group, row.nonce)
                       case Unpayable(quote) => OnTerms(Eth, quote, s, Create(row))
                       case NoSupply => Affords(Eth, s.chain, row.tokens)
    ensures row.nonce != s.db.txs[j].nonce
  {
    match why
    case Era =>
    case Unpayable(quote) =>
      if IsResend(s, row.group, row.nonce) { ResendCosts(s, row, j, quote(row.group)); }
    case NoSupply =>
      Ledger.TotalUpdate(s.chain.ledger.balances, s.chain.owner, 0);
      hide Ledger.Total, RowPaysPayout;
  }

  /** Another transaction for the nonce of a row pays the same group, what it costs. */
  lemma ResendCosts(s: State, row: TxRow, j: nat, price: Decimal)
    requires Inv(s) && Enabled(s, Create(row)) && IsPending(s, j) && IsResend(s, row.group, row.nonce)
    requires row.price == price
    ensures row.nonce == s.db.txs[j].nonce ==> row.group == s.db.txs[j].group
    ensures row.tokens > 0 && row.tokens == Cost(s, row.group, price)
  {
    hide RowsInv, TruthInv, FinalsInv, ContiguousInv, ChainInv, DroppedInv, SpacedInv, FromUSD, PayoutsOf;
  }

  /** A new row lies above every pending nonce, or has one of them. */
  lemma GapStays(s: State, row: TxRow, i: nat)
    requires IsPending(s, i) && Gap(s, s.db.txs[i].nonce)
    requires IsAttach(s, row.group, row.nonce) || IsResend(s, row.group, row.nonce)
    ensures !InFlight(s.db.txs + [row], s.chain.next)
  {
    assert row.nonce != s.chain.next by {
      if IsResend(s, row.group, row.nonce) { assert InFlight(s.db.txs, row.nonce); }
    }
    OtherNonce(s.db.txs, row, s.chain.next);
  }

  lemma OtherNonce(txs: seq<TxRow>, row: TxRow, n: nat)
    requires row.nonce != n
    ensures InFlight(txs + [row], n) ==> InFlight(txs, n)
  {
    var txs' := txs + [row];
    if InFlight(txs', n) {
      var k :| 0 <= k < |txs'| && txs'[k].state.Pending? && txs'[k].nonce == n;
      assert txs[k] == txs'[k];
    }
  }

  /** What was mined was recorded before, so no new row wins it. */
  lemma CreateWinsNothing(s: State, row: TxRow, m: nat)
    requires Inv(s) && !InTable(s.db.txs, row.hash) && !WonByPending(s, m)
    ensures !WonByPending(s.(db := s.db.(txs := s.db.txs + [row])), m)
  {
    hide RowsInv, PendingInv, ContiguousInv, SpacedInv, DroppedInv, TruthInv, FinalsInv;
    var txs' := s.db.txs + [row];
    if m in s.chain.mined {
      assert InTable(s.db.txs, s.chain.mined[m].hash);
      forall w | 0 <= w < |txs'| && txs'[w].state.Pending? ensures txs'[w].hash != s.chain.mined[m].hash {
        if w < |s.db.txs| { assert txs'[w] == s.db.txs[w]; }
      }
    }
  }

  /** No step that respects a block undoes it. */
  lemma StepKeepsBlock(s: State, e: Event, i: nat, b: Block)
    requires Inv(s) && Enabled(s, e) && BlockedBy(s, i, b) && Respects(s, e, b)
    ensures BlockedBy(Apply(s, e), i, b)
  {
    match e
    case Create(row) => CreateKeepsBlock(s, row, i, b);
    case Mine(hash, success) => MineKeepsBlock(s, hash, success, i, b);
    case Finalize(_, _, _, _) => FinalizeKeepsBlock(s, e, i, b);
    case Broadcast(hash) => BroadcastKeepsBlock(s, hash, i, b);
    case Tick(_) =>
      hide CanPay, Inv;
      SameCanPay(s, Apply(s, e));
    case External(_, _) => ExternalKeepsBlock(s, e, i, b);
  }

  lemma BroadcastKeepsBlock(s: State, hash: Hash, i: nat, b: Block)
    requires BlockedBy(s, i, b) && Respects(s, Broadcast(hash), b)
    ensures BlockedBy(Apply(s, Broadcast(hash)), i, b)
  {
    hide CanPay;
    SameCanPay(s, Apply(s, Broadcast(hash)));
  }

  lemma ExternalKeepsBlock(s: State, e: Event, i: nat, b: Block)
    requires e.External? && Enabled(s, e) && BlockedBy(s, i, b) && Respects(s, e, b)
    ensures BlockedBy(Apply(s, e), i, b)
  {
    if b.NeverSent? && b.why.NoSupply? { SupplyShrinks(s.chain.ledger, e.sender, e.call); }
    hide CanPay, Ledger.Conserved, Ledger.Exec;
  }

  // ---------------------------------------------------------------- for ever

  /** What is handed over was recorded later than every row of an earlier state. */
  lemma SendIsLater(genesis: State, from: nat, log: seq<Event>, hash: Hash, j: nat)
    requires IsGenesis(genesis) && Legal(genesis, log) && from <= |log|
    requires j < |Replay(genesis, log[..from]).db.txs| && CreatedSince(log, from, |log|, hash)
    ensures Replay(genesis, log[..from]).db.txs[j].hash != hash
  {
    hide IsGenesis, Legal, Replay, Enabled, Apply;
    var c :| from <= c < |log| && log[c].Create? && log[c].row.hash == hash;
    LegalPrefix(genesis, log, c + 1);
    ReplayNext(genesis, log, c);
    assert log[..c][..from] == log[..from];
    LegalPrefix(genesis, log, c);
    RowsSettleOnce(genesis, log[..c], from, j);
    CreateIsNew(Replay(genesis, log[..c]), log[c], j);
  }

  lemma CreateIsNew(s: State, e: Event, j: nat)
    requires e.Create? && Enabled(s, e) && j < |s.db.txs|
    ensures s.db.txs[j].hash != e.row.hash
  {
    hide IsAttach, IsResend, RowPaysPayout;
  }

  /** From an index on, the history is of the sort in which the block lasts. */
  predicate Confined(b: Block, genesis: State, log: seq<Event>, from: nat) {
    match b
    case Gapped => true
    case Used(_) => true
    case Twice(_) => ActsAs(ZkSyncEra, genesis, log, from)
    case NeverSent(_, _, Era) => ActsAs(ZkSyncEra, genesis, log, from)
    case NeverSent(_, _, Unpayable(quote)) => ActsAs(Eth, genesis, log, from)
        && LeftToItself(Eth, quote, genesis, log, from)
    case NeverSent(_, _, NoSupply) => ActsAs(Eth, genesis, log, from) && ToldTruly(Eth, genesis, log, from)
  }

  /**
    A block lasts through every later history of its sort: a used nonce and a gap whatever happens, a
    second row of a nonce under zkSync Era processes, and a row that was never handed over under processes
    that do not send it again.
    */
  lemma {:induction false} BlockStays(genesis: State, from: nat, log: seq<Event>, i: nat, b: Block)
    requires IsGenesis(genesis) && Legal(genesis, log) && from <= |log|
    requires BlockedBy(Replay(genesis, log[..from]), i, b) && Confined(b, genesis, log, from)
    requires b.NeverSent? ==> b.first <= |Replay(genesis, log[..from]).db.txs|
    ensures BlockedBy(Replay(genesis, log), i, b)
    decreases |log|
  {
    hide IsGenesis, Legal, Replay, Enabled, Apply, BlockedBy, Inv, Confined, Respects;
    if from == |log| {
      assert log[..from] == log;
    } else {
      var n := |log| - 1;
      var init := log[..n];
      assert init[..from] == log[..from] && log[..n + 1] == log;
      LegalPrefix(genesis, log, n);
      ReplayNext(genesis, log, n);
      ConfinedBefore(b, genesis, log, from);
      BlockStays(genesis, from, init, i, b);
      LegalInv(genesis, init);
      ConfinedStep(b, genesis, log, from);
      StepKeepsBlock(Replay(genesis, init), log[n], i, b);
    }
  }

  lemma ActedAs(kind: Kind, genesis: State, log: seq<Event>, from: nat, n: nat)
    requires from <= n <= |log| && ActsAs(kind, genesis, log, from)
    ensures ActsAs(kind, genesis, log[..n], from)
  {
    hide IsAttach, Replay;
    forall i | from <= i < n && log[i].Broadcast? ensures CreatedSince(log[..n], from, i, log[i].hash) {
      var j :| from <= j < i && log[j].Create? && log[j].row.hash == log[i].hash;
      assert log[..n][j] == log[j];
    }
    forall i | from <= i < n ensures log[..n][..i] == log[..i] {}
  }

  lemma ConfinedBefore(b: Block, genesis: State, log: seq<Event>, from: nat)
    requires from < |log| && Confined(b, genesis, log, from)
    ensures Confined(b, genesis, log[..|log| - 1], from)
  {
    hide Replay, Affords, OnTerms, ActsAs;
    var n := |log| - 1;
    forall i | from <= i < n ensures log[..n][..i] == log[..i] && log[..n][i] == log[i] {}
    match b
    case Gapped =>
    case Used(_) =>
    case Twice(_) => ActedAs(ZkSyncEra, genesis, log, from, n);
    case NeverSent(_, _, why) => ActedAs(if why.Era? then ZkSyncEra else Eth, genesis, log, from, n);
  }

  /** The last step respects the block. */
  lemma ConfinedStep(b: Block, genesis: State, log: seq<Event>, from: nat)
    requires IsGenesis(genesis) && Legal(genesis, log) && from < |log| && Confined(b, genesis, log, from)
    requires b.NeverSent? ==> b.first <= |Replay(genesis, log[..from]).db.txs|
    ensures Respects(Replay(genesis, log[..|log| - 1]), log[|log| - 1], b)
  {
    hide IsGenesis, Legal, Replay, IsAttach, Affords, OnTerms;
    var n := |log| - 1;
    if b.NeverSent? && log[n].Broadcast? {
      forall k | 0 <= k < b.first && k < |Replay(genesis, log[..n]).db.txs|
        ensures Replay(genesis, log[..n]).db.txs[k].hash != log[n].hash
      {
        OwnSend(genesis, from, log, k);
      }
    }
  }

  /** What is handed over next is none of the rows recorded before. */
  lemma OwnSend(genesis: State, from: nat, log: seq<Event>, j: nat)
    requires IsGenesis(genesis) && Legal(genesis, log) && from < |log| && OwnSends(log, from)
    requires j < |Replay(genesis, log[..from]).db.txs| && log[|log| - 1].Broadcast?
    ensures var s := Replay(genesis, log[..|log| - 1]); j < |s.db.txs| && log[|log| - 1].hash != s.db.txs[j].hash
  {
    hide IsGenesis, Legal, Replay;
    var n := |log| - 1;
    var init := log[..n];
    assert init[..from] == log[..from];
    LegalPrefix(genesis, log, n);
    RowsSettleOnce(genesis, init, from, j);
    assert CreatedSince(log, from, n, log[n].hash);
    var c :| from <= c < n && log[c].Create? && log[c].row.hash == log[n].hash;
    assert init[c] == log[c];
    SendIsLater(genesis, from, init, log[n].hash, j);
  }

  /** A pending row whose nonce is not open stays pending in every later state, whoever goes on. */
  lemma DeadRowsStayPending(genesis: State, from: nat, log: seq<Event>, i: nat)
    requires IsGenesis(genesis) && Legal(genesis, log) && from <= |log| && IsPending(Replay(genesis, log[..from]), i)
    requires !Open(Replay(genesis, log[..from]), Replay(genesis, log[..from]).db.txs[i].nonce)
    ensures IsPending(Replay(genesis, log), i)
  {
    hide IsGenesis, Legal, Replay, Gap, UsedUp;
    var s := Replay(genesis, log[..from]);
    var n := s.db.txs[i].nonce;
    if Gap(s, n) {
      BlockStays(genesis, from, log, i, Gapped);
    } else {
      var m :| 0 <= m <= n && InFlight(s.db.txs, m) && UsedUp(s, m);
      var j :| 0 <= j < |s.db.txs| && s.db.txs[j].state.Pending? && s.db.txs[j].nonce == m;
      BlockStays(genesis, from, log, i, Used(j));
    }
  }

  /** Why a nonce cannot be delivered. */
  lemma BlockExists(kind: Kind, quote: int -> Decimal, s: State, m: nat, i: nat) returns (b: Block)
    requires Inv(s) && IsPending(s, i) && m <= s.db.txs[i].nonce && InFlight(s.db.txs, m)
    requires !Deliverable(kind, quote, s, m)
    ensures BlockedBy(s, i, b) && (b.NeverSent? ==> b.first == |s.db.txs|)
    ensures match b case Twice(_) => kind.ZkSyncEra?
                    case NeverSent(_, _, Era) => kind.ZkSyncEra?
                    case NeverSent(_, _, Unpayable(q)) => kind.Eth? && q == quote
                    case _ => false
  {
    hide Inv, CanPay;
    if kind.Eth? {
      var j :| 0 <= j < |s.db.txs| && s.db.txs[j].state.Pending? && s.db.txs[j].nonce == m
               && !CanPay(s, s.db.txs[j].group, quote(s.db.txs[j].group));
      b := NeverSent(j, |s.db.txs|, Unpayable(quote));
    } else {
      var j :| 0 <= j < |s.db.txs| && s.db.txs[j].state.Pending? && s.db.txs[j].nonce == m;
      b := if Unsent(s, m) then NeverSent(j, |s.db.txs|, Era) else Twice(j);
    }
  }

  /**
    A pending row above, or at, a nonce that cannot be delivered stays pending while processes of the
    kind go on by themselves.
    */
  lemma UndeliverableStaysPending(kind: Kind, quote: int -> Decimal, genesis: State, from: nat, log: seq<Event>,
      m: nat, i: nat)
    requires IsGenesis(genesis) && Legal(genesis, log) && from <= |log| && IsPending(Replay(genesis, log[..from]), i)
    requires var s := Replay(genesis, log[..from]);
             m <= s.db.txs[i].nonce && InFlight(s.db.txs, m) && !Deliverable(kind, quote, s, m)
    requires ActsAs(kind, genesis, log, from) && (kind.Eth? ==> LeftToItself(kind, quote, genesis, log, from))
    ensures IsPending(Replay(genesis, log), i)
  {
    hide IsGenesis, Legal, Replay, Deliverable, ActsAs, LeftToItself, InFlight;
    LegalPrefix(genesis, log, from);
    LegalInv(genesis, log[..from]);
    var b := BlockExists(kind, quote, Replay(genesis, log[..from]), m, i);
    BlockStays(genesis, from, log, i, b);
  }

  /** A nonce with a settled row is used up for every other row. */
  lemma SettledIsUsedUp(s: State, w: nat)
    requires Inv(s) && w < |s.db.txs| && !s.db.txs[w].state.Pending?
    ensures UsedUp(s, s.db.txs[w].nonce)
  {
    hide PendingInv, ContiguousInv, SpacedInv, FinalsInv;
    assert RowTruth(s.db.txs[w], s.chain.mined);
  }
}
