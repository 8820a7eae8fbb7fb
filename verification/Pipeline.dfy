/** The pipeline: loads the pending nonce groups, fills up with unpaid groups and follows them to the end. */
module Pipeline {
  import opened Wrappers
  import opened Money
  import opened Tables
  import opened Protocol
  import opened Groups
  import opened Database
  import opened Network
  import opened Conduct
  import opened Payers
  import opened Books
  import opened Nonces
  import opened Progress

  const DEFAULT_LIMIT := 16

  // ---------------------------------------------------------------- what a process adds to the log

  predicate IsSend(e: Event) {
    e.Create? || e.Broadcast?
  }

  /** A nonce group was finalized as failed. */
  predicate IsFailure(e: Event) {
    e.Finalize? && exists k :: 0 <= k < |e.statuses| && e.statuses[k].state.Failed?
  }

  predicate NoFailure(log: seq<Event>, from: nat) {
    forall i :: from <= i < |log| ==> !IsFailure(log[i])
  }

  /** After a failure nothing is created or sent. */
  predicate QuietAfterFailure(log: seq<Event>, from: nat) {
    forall i, j :: from <= i < j < |log| && IsFailure(log[i]) ==> !IsSend(log[j])
  }

  predicate NothingSent(log: seq<Event>, from: nat) {
    forall i :: from <= i < |log| ==> !IsSend(log[i])
  }

  /** Going on quietly after a failure, or in any way without one. */
  predicate GoesOn(log: seq<Event>, from: nat, checkOnly: bool) {
    NothingSent(log, from) || (!checkOnly && NoFailure(log, from))
  }

  lemma QuietGoesOn(a: seq<Event>, b: seq<Event>, from: nat, failed: nat)
    requires a <= b && from <= |a| && QuietAfterFailure(a, from) && (failed == 0 ==> NoFailure(a, from))
    requires GoesOn(b, |a|, failed > 0)
    ensures QuietAfterFailure(b, from)
    ensures failed == 0 && NoFailure(b, |a|) ==> NoFailure(b, from)
    ensures !NoFailure(a, from) || !NoFailure(b, |a|) ==> !NoFailure(b, from)
  {
    forall i | 0 <= i < |a| ensures b[i] == a[i] {}
  }

  lemma EnvironmentSendsNothing(log: seq<Event>, from: nat)
    requires OnlyEnvironment(log, from)
    ensures NothingSent(log, from) && NoFailure(log, from)
  {
    forall i | from <= i < |log| ensures !IsSend(log[i]) && !IsFailure(log[i]) { assert IsEnvironment(log[i]); }
  }

  lemma FinalizeSendsNothing(a: seq<Event>, b: seq<Event>, from: nat)
    requires a <= b && |b| == |a| + 1 && b[|a|].Finalize? && from <= |a| && NothingSent(a, from)
    ensures NothingSent(b, from)
    ensures NoFailure(a, from) && !IsFailure(b[|a|]) ==> NoFailure(b, from)
  {
    forall i | 0 <= i < |a| ensures b[i] == a[i] {}
  }

  lemma FailureSeen(log: seq<Event>, from: nat, k: nat)
    requires from <= k < |log|
    ensures IsFailure(log[k]) ==> !NoFailure(log, from)
  {}

  lemma NoFailureIsQuiet(log: seq<Event>, from: nat)
    requires NoFailure(log, from)
    ensures QuietAfterFailure(log, from)
  {}

  lemma NoFailureThenQuiet(a: seq<Event>, b: seq<Event>, from: nat)
    requires a <= b && from <= |a| && NoFailure(a, from) && QuietAfterFailure(b, |a|)
    ensures QuietAfterFailure(b, from)
    ensures NoFailure(b, |a|) <==> NoFailure(b, from)
  {
    forall i | from <= i < |a| ensures !IsFailure(b[i]) { assert b[i] == a[i]; }
  }

  lemma EnvironmentIsQuiet(a: seq<Event>, b: seq<Event>, from: nat)
    requires a <= b && from <= |a| && OnlyEnvironment(b, |a|)
    ensures NoFailure(a, from) ==> NoFailure(b, from)
    ensures QuietAfterFailure(a, from) ==> QuietAfterFailure(b, from)
  {
    forall i | from <= i < |b| ensures if i < |a| then b[i] == a[i] else !IsFailure(b[i]) && !IsSend(b[i]) {}
  }

  // ---------------------------------------------------------------- sending one transaction

  lemma EnvironmentActsAs(kind: Kind, genesis: State, a: seq<Event>, b: seq<Event>, from: nat)
    requires a <= b && from <= |a| && ActsAs(kind, genesis, a, from) && OnlyEnvironment(b, |a|)
    ensures ActsAs(kind, genesis, b, from)
  {
    hide ActsAs;
    assert forall i :: |a| <= i < |b| ==> IsEnvironment(b[i]);
    IdleAs(kind, genesis, b, |a|);
    GoesOnAs(kind, genesis, a, b, from);
  }

  /** The payout group can use the nonce: as a new nonce group, or on Ethereum once more after a drop. */
  predicate MayUse(kind: Kind, s: State, group: int, nonce: nat) {
    Unfinished(s.db, group) && (IsAttach(s, group, nonce) || (kind.Eth? && IsResend(s, group, nonce)))
  }

  lemma MayStillUse(kind: Kind, s: State, s': State, group: int, nonce: nat)
    requires MayUse(kind, s, group, nonce) && s'.db == s.db && s.now <= s'.now
    ensures MayUse(kind, s', group, nonce)
  {}

  lemma RowCanBeCreated(kind: Kind, s: State, row: TxRow)
    requires MayUse(kind, s, row.group, row.nonce) && RowPaysPayout(s, row) && !InTable(s.db.txs, row.hash)
    requires row == TxRow(row.hash, row.hash.body.nonce, row.group, row.price, row.hash.body.tokens, Truncate(s.now),
               Pending, None)
    requires row.tokens > 0
    ensures CanCreate(s, row)
  {
    hide IsAttach, IsResend, RowPaysPayout, InTable;
  }

  /** A positive amount of tokens for a positive amount of USD needs a positive price. */
  lemma PositivePrice(usd: Decimal, price: Decimal, decimals: int)
    requires usd.coef > 0 && FromUSD(usd, price, decimals).Some? && FromUSD(usd, price, decimals).value > 0
    ensures price.coef > 0
  {
    var n := Shift(usd, decimals);
    var e := n.exp - price.exp;
    if price.coef < 0 {
      if e < 0 { ProductNegative(PowerOfTen(-e), price.coef); } else { ProductPositive(n.coef, PowerOfTen(e)); }
    }
  }

  lemma ProductNegative(p: int, c: int)
    requires p > 0 && c < 0
    ensures c * p < 0
  {}

  lemma ProductPositive(c: int, p: int)
    requires c > 0 && p > 0
    ensures c * p > 0
  {}

  /** The amount recorded from the summed USD is the amount inside the raw transaction. */
  lemma RecordedIsSent(usd: Decimal, price: Decimal, decimals: int)
    requires usd.coef > 0
    requires FromUSD(SumUSD([usd]), price, decimals).Some? && FromUSD(SumUSD([usd]), price, decimals).value > 0
    requires FromUSD(usd, price, decimals).Some?
    ensures FromUSD(usd, price, decimals) == FromUSD(SumUSD([usd]), price, decimals)
  {
    hide FromUSD;
    SumIsPositive(usd);
    PositivePrice(SumUSD([usd]), price, decimals);
    SumOfOneConvertsAlike(usd, price, decimals);
  }

  lemma SumIsPositive(usd: Decimal)
    requires usd.coef > 0
    ensures SumUSD([usd]).coef > 0
  {
    assert [usd][..0] == [];
    var e := Min(ZERO.exp, usd.exp);
    assert SumUSD([usd]) == Add(ZERO, usd);
    ProductPositive(usd.coef, PowerOfTen(usd.exp - e));
  }

  /** The balance, and then the allowance if one is needed, that the node reported cover the amount. */
  predicate Affordable(answers: seq<nat>, needsAllowance: bool, tokens: int) {
    && |answers| == (if needsAllowance then 2 else 1)
    && forall k :: 0 <= k < |answers| ==> answers[k] >= tokens
  }

  /** An error from outside: a call that failed, or the end of the process. */
  predicate IsFault(e: Error) {
    e.DatabaseError? || e.NodeError? || e.Interrupted? || e.SendFailed?
  }

  /** Every fault ends the process, so that one process ends by at most one. */
  function FaultIn(err: Option<Error>): nat {
    if err.Some? && IsFault(err.value) then 1 else 0
  }

  /** Why a transaction for the group is refused when nothing failed, in terms of what the node said. */
  predicate Refused(e: Error, kind: Kind, chain: Chain, db: Tables, group: int, nonce: nat, t: Terms) {
    var payouts := PayoutsOf(db.payouts, group);
    var total := if |t.prices| == 1 then FromUSD(SumUSD(AmountsOf(payouts)), t.prices[0], chain.decimals) else None;
    var single :=
      if |t.prices| == 1 && |payouts| == 1 then FromUSD(payouts[0].usd, t.prices[0], chain.decimals) else None;
    match e
    case NoPayouts => payouts == []
    case MultitransferUnsupported => |payouts| > 1
    case Panicked => |t.prices| == 1 && (total.None? || (|payouts| == 1 && single.None?))
    case AmountNotPositive => total.Some? && total.value <= 0
    case NotEnoughTokens => total.Some? && |t.numbers| == 1 && t.numbers[0] < total.value
    case NotEnoughAllowance =>
      NeedsAllowance(kind, chain) && single.Some? && |t.numbers| == 2 && t.numbers[1] < single.value
    case UniqueViolation =>
      && single.Some? && |t.fees| == 1
      && InTable(db.txs, HashOf(TxBody(nonce, payouts[0].payee, single.value, t.fees[0])))
    case _ => false
  }

  lemma RefusedAtPrice(e: Error, kind: Kind, chain: Chain, db: Tables, group: int, nonce: nat, t: Terms, price: Decimal)
    requires t.prices == [price]
    requires var total := FromUSD(SumUSD(AmountsOf(PayoutsOf(db.payouts, group))), price, chain.decimals);
             match e
             case Panicked => total.None?
             case AmountNotPositive => total.Some? && total.value <= 0
             case NotEnoughTokens => total.Some? && |t.numbers| == 1 && t.numbers[0] < total.value
             case _ => false
    ensures Refused(e, kind, chain, db, group, nonce, t)
  {
    hide FromUSD, SumUSD;
  }

  lemma RefusedRaw(e: Error, kind: Kind, chain: Chain, db: Tables, group: int, nonce: nat, t: Terms, price: Decimal)
    requires t.prices == [price]
    requires var payouts := PayoutsOf(db.payouts, group);
             match e
             case MultitransferUnsupported => |payouts| > 1
             case Panicked => |payouts| == 1 && FromUSD(payouts[0].usd, price, chain.decimals).None?
             case NotEnoughAllowance =>
               && NeedsAllowance(kind, chain) && |payouts| == 1 && |t.numbers| == 2
               && var tokens := FromUSD(payouts[0].usd, price, chain.decimals);
               tokens.Some? && t.numbers[1] < tokens.value
             case _ => false
    ensures Refused(e, kind, chain, db, group, nonce, t)
  {
    hide FromUSD, SumUSD;
  }

  lemma RefusedWithoutPayouts(kind: Kind, chain: Chain, db: Tables, group: int, nonce: nat, t: Terms)
    ensures PayoutsOf(db.payouts, group) == [] ==> Refused(NoPayouts, kind, chain, db, group, nonce, t)
  {
    hide FromUSD, SumUSD;
  }

  /** One payout, worth a positive amount that the reported numbers cover, in a transaction not recorded yet. */
  predicate CanBeSent(decimals: int, db: Tables, group: int, nonce: nat, t: Terms) {
    var payouts := PayoutsOf(db.payouts, group);
    && |payouts| == 1
    && forall price <- t.prices ::
         var tokens := FromUSD(payouts[0].usd, price, decimals);
         && FromUSD(SumUSD([payouts[0].usd]), price, decimals).Some?
         && tokens.Some? && tokens.value > 0 && (forall n <- t.numbers :: n >= tokens.value)
         && forall fees <- t.fees :: !InTable(db.txs, HashOf(TxBody(nonce, payouts[0].payee, tokens.value, fees)))
  }

  /** What can be sent is not refused. */
  lemma RefusalsAreJust(e: Error, kind: Kind, chain: Chain, db: Tables, group: int, nonce: nat, t: Terms)
    requires CanBeSent(chain.decimals, db, group, nonce, t) && PayoutsOf(db.payouts, group)[0].usd.coef > 0
    ensures !Refused(e, kind, chain, db, group, nonce, t)
  {
    hide FromUSD, SumUSD, InTable;
    var usd := PayoutsOf(db.payouts, group)[0].usd;
    assert AmountsOf(PayoutsOf(db.payouts, group)) == [usd];
    if |t.prices| == 1 {
      SumIsPositive(usd);
      PositivePrice(usd, t.prices[0], chain.decimals);
      SumOfOneConvertsAlike(usd, t.prices[0], chain.decimals);
      assert t.prices[0] in t.prices;
      assert forall k :: 0 <= k < |t.numbers| ==> t.numbers[k] in t.numbers;
      assert |t.fees| > 0 ==> t.fees[0] in t.fees;
    }
  }

  /** The raw transaction of either payer: one payout, converted at the price, with enough allowance. */
  method CreateRawTransaction(kind: Kind, net: Network, payouts: seq<Payout>, nonce: nat, price: Decimal)
    returns (r: Result<TxBody, Error>)
    requires net.Valid() && |payouts| > 0
    modifies net`numbers, net`fees, net.db.faults
    ensures net.Valid() && old(net.numbers) <= net.numbers && old(net.fees) <= net.fees
    ensures r.Ok? ==> net.fees == old(net.fees) + [r.value.fees]
    ensures r.Ok? ==> if NeedsAllowance(kind, net.chain)
                      then |net.numbers| == |old(net.numbers)| + 1 && net.numbers[|old(net.numbers)|] >= r.value.tokens
                      else net.numbers == old(net.numbers)
    ensures r.Err? ==> match r.error
                       case MultitransferUnsupported => |payouts| > 1
                       case Panicked => |payouts| == 1 && FromUSD(payouts[0].usd, price, net.chain.decimals).None?
                       case NodeError => true
                       case NotEnoughAllowance =>
                         var tokens := FromUSD(payouts[0].usd, price, net.chain.decimals);
                         && |payouts| == 1 && NeedsAllowance(kind, net.chain)
                         && |net.numbers| == |old(net.numbers)| + 1
                         && tokens.Some? && net.numbers[|old(net.numbers)|] < tokens.value
                       case _ => false
    ensures net.Faults() == if r.Err? && r.error.NodeError? then old(net.Faults()) + 1 else old(net.Faults())
    ensures r.Ok? ==> && |payouts| == 1 && r.value.nonce == nonce && r.value.payee == payouts[0].payee
                      && FromUSD(payouts[0].usd, price, net.chain.decimals) == Some(r.value.tokens)
  {
    if |payouts| > 1 { return Err(MultitransferUnsupported); }
    var tokens := FromUSD(payouts[0].usd, price, net.chain.decimals);
    if tokens.None? { return Err(Panicked); }
    if NeedsAllowance(kind, net.chain) {
      var allowance := net.AnyNumber();
      if allowance.Err? { return Err(allowance.error); }
      if allowance.value < tokens.value { return Err(NotEnoughAllowance); }
    }
    var fees := net.Fees();
    if fees.Err? { return Err(fees.error); }
    return Ok(TxBody(nonce, payouts[0].payee, tokens.value, fees.value));
  }

  /** What is known of a transaction before it is recorded. */
  datatype Draft = Draft(body: TxBody, price: Decimal, tokens: int)

  predicate DraftPays(draft: Draft, db: Tables, group: int, nonce: nat, decimals: int) {
    var payouts := PayoutsOf(db.payouts, group);
    && |payouts| == 1 && draft.body.nonce == nonce && draft.body.payee == payouts[0].payee
    && draft.tokens == draft.body.tokens > 0
    && FromUSD(payouts[0].usd, draft.price, decimals) == Some(draft.tokens)
  }

  /** Terms on which the draft was made. */
  predicate DraftedOn(draft: Draft, t: Terms) {
    t.prices == [draft.price] && t.fees == [draft.body.fees]
  }

  /** The preconditions were asked about, and met the last time. */
  predicate JustMet(before: seq<bool>, after: seq<bool>) {
    |after| > |before| && after[|after| - 1]
  }

  /** Waits until the payer's preconditions are met; a process that waits forever is a killed one. */
  method WaitForPreconditions(net: Network) returns (err: Option<Error>)
    requires net.Valid()
    modifies net`log, net`chain, net`now, net`met, net.db.faults
    ensures net.Valid() && old(net.log) <= net.log && OnlyEnvironment(net.log, |old(net.log)|)
    ensures Later(old(net.chain), net.chain) && old(net.now) <= net.now
    ensures err.None? ==> JustMet(old(net.met), net.met)
    ensures err.Some? ==> err.value.Interrupted? || err.value.NodeError?
    ensures net.Faults() == if err.Some? then old(net.Faults()) + 1 else old(net.Faults())
  {
    hide Legal, IsGenesis, Replay;
    var rounds: nat := *;
    while rounds > 0
      invariant net.Valid() && old(net.log) <= net.log && OnlyEnvironment(net.log, |old(net.log)|)
      invariant Later(old(net.chain), net.chain) && old(net.now) <= net.now
      invariant net.Faults() == old(net.Faults()) && |net.met| >= |old(net.met)|
    {
      var killed := net.Interfere();
      if killed { return Some(Interrupted); }
      var met := net.PreconditionsMet();
      if met.Err? { return Some(met.error); }
      if met.value { return None; }
      rounds := rounds - 1;
    }
    net.Die();
    return Some(Interrupted);
  }

  /** The quoted price, and the amount at that price if it is positive and the reported balance covers it. */
  method QuoteTokens(kind: Kind, net: Network, payouts: seq<Payout>, group: int, nonce: nat)
      returns (r: Result<(Decimal, int), Error>)
    requires net.Valid() && payouts == PayoutsOf(net.db.payouts, group)
    modifies net`numbers, net`prices, net.db.faults
    ensures net.Valid() && Grew(old(net.Said()), net.Said()) && net.fees == old(net.fees)
    ensures r.Ok? ==>
              && FromUSD(SumUSD(AmountsOf(payouts)), r.value.0, net.chain.decimals) == Some(r.value.1) && r.value.1 > 0
              && net.prices == old(net.prices) + [r.value.0]
              && |net.numbers| == |old(net.numbers)| + 1 && net.numbers[|old(net.numbers)|] >= r.value.1
    ensures r.Err? && !r.error.NodeError? ==>
              && (r.error.Panicked? || r.error.AmountNotPositive? || r.error.NotEnoughTokens?)
              && Refused(r.error, kind, net.chain, net.db.State(), group, nonce, Since(old(net.Said()), net.Said()))
    ensures net.Faults() == if r.Err? && r.error.NodeError? then old(net.Faults()) + 1 else old(net.Faults())
  {
    hide Legal, IsGenesis, Replay, FromUSD, SumUSD, Refused, PayoutsOf, AmountsOf;
    ghost var said := net.Said();
    var quoted := net.Quote();
    if quoted.Err? { return Err(quoted.error); }
    var price := quoted.value;
    var tokens := FromUSD(SumUSD(AmountsOf(payouts)), price, net.chain.decimals);
    if tokens.None? {
      RefusedAtPrice(Panicked, kind, net.chain, net.db.State(), group, nonce, Since(said, net.Said()), price);
      return Err(Panicked);
    }
    if tokens.value <= 0 {
      RefusedAtPrice(AmountNotPositive, kind, net.chain, net.db.State(), group, nonce, Since(said, net.Said()), price);
      return Err(AmountNotPositive);
    }
    var balance := net.AnyNumber();
    if balance.Err? { return Err(balance.error); }
    if balance.value < tokens.value {
      RefusedAtPrice(NotEnoughTokens, kind, net.chain, net.db.State(), group, nonce, Since(said, net.Said()), price);
      return Err(NotEnoughTokens);
    }
    return Ok((price, tokens.value));
  }

  /** Everything sendTransaction does before it touches the database. */
  method DraftTransaction(kind: Kind, net: Network, group: int, nonce: nat) returns (r: Result<Draft, Error>)
    requires net.Valid()
    modifies net`log, net`chain, net`now, net`numbers, net`prices, net`fees, net`met, net.db.faults
    ensures net.Valid() && old(net.log) <= net.log && OnlyEnvironment(net.log, |old(net.log)|)
    ensures Later(old(net.chain), net.chain) && old(net.now) <= net.now && Grew(old(net.Said()), net.Said())
    ensures r.Ok? ==> && DraftPays(r.value, net.db.State(), group, nonce, net.chain.decimals)
                      && Affordable(net.numbers[|old(net.numbers)|..], NeedsAllowance(kind, net.chain), r.value.tokens)
                      && DraftedOn(r.value, Since(old(net.Said()), net.Said()))
                      && FromUSD(SumUSD(AmountsOf(PayoutsOf(net.db.payouts, group))), r.value.price,
                                 net.chain.decimals).Some?
    ensures r.Ok? ==> JustMet(old(net.met), net.met)
    ensures r.Err? && !IsFault(r.error) ==> !r.error.UniqueViolation?
    ensures r.Err? && !IsFault(r.error) ==>
              Refused(r.error, kind, net.chain, net.db.State(), group, nonce, Since(old(net.Said()), net.Said()))
    ensures net.Faults() == if r.Err? && IsFault(r.error) then old(net.Faults()) + 1 else old(net.Faults())
  {
    hide Legal, IsGenesis, Replay, FromUSD, SumUSD, Later, OnlyEnvironment, Refused, NeedsAllowance, PayoutsOf, JustMet,
      AmountsOf;
    ghost var said := net.Said();
    RefusedWithoutPayouts(kind, net.chain, net.db.State(), group, nonce, Since(said, said));
    NothingHappened(net.log, net.chain);
    var fetched := net.db.FetchPayoutGroupPayouts(group);
    if fetched.Err? { return Err(fetched.error); }
    var payouts := fetched.value;
    if payouts == [] { return Err(NoPayouts); }
    var unmet := WaitForPreconditions(net);
    if unmet.Some? { return Err(unmet.value); }
    var quoted := QuoteTokens(kind, net, payouts, group, nonce);
    if quoted.Err? { return Err(quoted.error); }
    var (price, tokens) := quoted.value;
    ghost var asked := net.numbers;
    var raw := CreateRawTransaction(kind, net, payouts, nonce, price);
    assert net.numbers[|said.numbers|..] == asked[|said.numbers|..] + net.numbers[|asked|..];
    if raw.Err? {
      if !raw.error.NodeError? {
        RefusedRaw(raw.error, kind, net.chain, net.db.State(), group, nonce, Since(said, net.Said()), price);
      }
      return Err(raw.error);
    }
    AmountsArePositive(net, group);
    OneAmount(payouts);
    RecordedIsSent(payouts[0].usd, price, net.chain.decimals);
    return Ok(Draft(raw.value, price, tokens));
  }

  lemma AmountsArePositive(net: Network, group: int)
    requires net.Valid()
    ensures forall i :: 0 <= i < |PayoutsOf(net.db.payouts, group)| ==> PayoutsOf(net.db.payouts, group)[i].usd.coef > 0
  {
    ImportedDataStays(net.genesis, net.log);
    PayoutsAmong(net.db.payouts, group);
  }

  lemma RefusedAgain(kind: Kind, chain: Chain, db: Tables, group: int, nonce: nat, t: Terms, draft: Draft)
    requires DraftPays(draft, db, group, nonce, chain.decimals) && DraftedOn(draft, t)
    requires InTable(db.txs, HashOf(draft.body))
    ensures Refused(UniqueViolation, kind, chain, db, group, nonce, t)
  {
    hide FromUSD, SumUSD, InTable;
  }

  lemma NewCanBeSent(decimals: int, needed: bool, db: Tables, group: int, nonce: nat, t: Terms, draft: Draft)
    requires DraftPays(draft, db, group, nonce, decimals) && DraftedOn(draft, t)
    requires FromUSD(SumUSD(AmountsOf(PayoutsOf(db.payouts, group))), draft.price, decimals).Some?
    requires Affordable(t.numbers, needed, draft.tokens) && !InTable(db.txs, HashOf(draft.body))
    ensures CanBeSent(decimals, db, group, nonce, t)
  {
    hide FromUSD, SumUSD, InTable;
    OneAmount(PayoutsOf(db.payouts, group));
  }

  /** Writes the row before anything is sent. */
  method RecordTransaction(kind: Kind, net: Network, group: int, nonce: nat, draft: Draft)
    returns (r: Result<TxRow, Error>)
    requires net.Valid() && MayUse(kind, net.World(), group, nonce)
    requires DraftPays(draft, net.db.State(), group, nonce, net.chain.decimals)
    modifies net`log, net.db, net.db.faults
    ensures net.Valid() && net.db.payouts == old(net.db.payouts) && net.db.finals == old(net.db.finals)
    ensures r.Ok? ==> && !InTable(old(net.db.txs), r.value.hash) && r.value.state.Pending?
                      && r.value.nonce == nonce && r.value.group == group
                      && net.db.txs == old(net.db.txs) + [r.value] && net.log == old(net.log) + [Create(r.value)]
    ensures r.Ok? ==> draft == Draft(r.value.hash.body, r.value.price, r.value.tokens)
    ensures r.Err? ==> net.db.State() == old(net.db.State()) && net.log == old(net.log)
    ensures r.Err? ==> r.error.DatabaseError? || r.error.UniqueViolation?
    ensures r.Err? && r.error.UniqueViolation? <==> InTable(old(net.db.txs), HashOf(draft.body))
    ensures net.Faults() == if r.Err? && r.error.DatabaseError? then old(net.Faults()) + 1 else old(net.Faults())
  {
    hide Legal, IsGenesis, Replay, FromUSD, MayUse, InTable, CanCreate;
    ghost var before := net.World();
    r := net.db.CreateTransaction(HashOf(draft.body), nonce, group, draft.price, draft.tokens, net.now);
    if r.Ok? {
      RowCanBeCreated(kind, before, r.value);
      net.Record(Create(r.value));
    }
  }

  /** Records a new transaction for the group at the nonce, then hands it to the node. */
  method SendTransaction(kind: Kind, net: Network, group: int, nonce: nat) returns (r: Result<TxRow, Error>)
    requires net.Valid() && MayUse(kind, net.World(), group, nonce)
    modifies net`log, net`chain, net`now, net`numbers, net`prices, net`fees, net`met, net`submitted, net.db,
        net.db.faults
    ensures net.Valid() && old(net.log) <= net.log && NoFailure(net.log, |old(net.log)|)
    ensures ActsAs(kind, net.genesis, net.log, |old(net.log)|)
    ensures Grew(old(net.Said()), net.Said())
    ensures r.Ok? ==> DraftedOn(Draft(r.value.hash.body, r.value.price, r.value.tokens),
                                Since(old(net.Said()), net.Said()))
    ensures r.Ok? ==> && net.submitted == old(net.submitted) + [r.value.hash]
                      && Affordable(net.numbers[|old(net.numbers)|..], NeedsAllowance(kind, net.chain), r.value.tokens)
    ensures r.Ok? ==> JustMet(old(net.met), net.met)
    ensures r.Err? && !IsFault(r.error) ==>
              && net.db.State() == old(net.db.State())
              && Refused(r.error, kind, net.chain, net.db.State(), group, nonce, Since(old(net.Said()), net.Said()))
    ensures net.Faults() == if r.Err? && IsFault(r.error) then old(net.Faults()) + 1 else old(net.Faults())
    ensures r.Ok? || !IsFault(r.error) ==>
              (r.Ok? <==> CanBeSent(net.chain.decimals, old(net.db.State()), group, nonce,
                                    Since(old(net.Said()), net.Said())))
    ensures r.Ok? ==> && !InTable(old(net.db.txs), r.value.hash) && r.value.state.Pending?
                      && r.value.nonce == nonce && r.value.group == group
                      && net.db.State() == old(net.db.State()).(txs := old(net.db.txs) + [r.value])
  {
    hide Legal, IsGenesis, Replay, MayUse, DraftPays, InTable, NoFailure, OnlyEnvironment, Affordable, ActsAs,
      CreatedSince, Refused, CanBeSent, DraftedOn, JustMet, FromUSD, SumUSD, AmountsOf, PayoutsOf;
    ghost var log0, s0, said := net.log, net.World(), net.Said();
    NothingAdded(log0);
    NothingDone(kind, net.genesis, log0);
    var draft := DraftTransaction(kind, net, group, nonce);
    EnvironmentIsQuiet(log0, net.log, |log0|);
    EnvironmentActsAs(kind, net.genesis, log0, net.log, |log0|);
    ghost var t := Since(said, net.Said());
    if draft.Err? {
      if !IsFault(draft.error) { RefusedIsJust(draft.error, kind, net, group, nonce, t); }
      return Err(draft.error);
    }
    MayStillUse(kind, s0, net.World(), group, nonce);
    ghost var log1 := net.log;
    r := SubmitDraft(kind, net, group, nonce, draft.value);
    NoFailureThenNoFailure(log1, net.log, |log0|);
    GoesOnAs(kind, net.genesis, log1, net.log, |log0|);
    if r.Err? {
      if !IsFault(r.error) {
        RefusedAgain(kind, net.chain, net.db.State(), group, nonce, t, draft.value);
        RefusedIsJust(r.error, kind, net, group, nonce, t);
      }
      return;
    }
    NewCanBeSent(net.chain.decimals, NeedsAllowance(kind, net.chain), s0.db, group, nonce, t, draft.value);
  }

  /** Records the transaction of a draft; if it is new and the process survives that, hands it over. */
  method SubmitDraft(kind: Kind, net: Network, group: int, nonce: nat, draft: Draft) returns (r: Result<TxRow, Error>)
    requires net.Valid() && MayUse(kind, net.World(), group, nonce)
    requires DraftPays(draft, net.db.State(), group, nonce, net.chain.decimals)
    modifies net`log, net`chain, net`now, net`submitted, net.db, net.db.faults
    ensures net.Valid() && old(net.log) <= net.log && NoFailure(net.log, |old(net.log)|)
    ensures ActsAs(kind, net.genesis, net.log, |old(net.log)|)
    ensures Later(old(net.chain), net.chain)
    ensures r.Ok? ==> && draft == Draft(r.value.hash.body, r.value.price, r.value.tokens)
                      && !InTable(old(net.db.txs), HashOf(draft.body)) && r.value.state.Pending?
                      && r.value.nonce == nonce && r.value.group == group
                      && net.db.State() == old(net.db.State()).(txs := old(net.db.txs) + [r.value])
                      && net.submitted == old(net.submitted) + [r.value.hash]
    ensures r.Err? && !IsFault(r.error) ==>
              r.error.UniqueViolation? && InTable(old(net.db.txs), HashOf(draft.body))
              && net.db.State() == old(net.db.State())
    ensures net.Faults() == if r.Err? && IsFault(r.error) then old(net.Faults()) + 1 else old(net.Faults())
  {
    hide Legal, IsGenesis, Replay, MayUse, DraftPays, InTable, NoFailure, OnlyEnvironment, ActsAs, CreatedSince,
      FromUSD;
    ghost var log0 := net.log;
    NothingAdded(log0);
    NothingDone(kind, net.genesis, log0);
    MayAttachAs(kind, net.World(), group, nonce);
    r := RecordTransaction(kind, net, group, nonce, draft);
    if r.Err? { return; }
    SendIsNoFailure(log0, net.log, |log0|, Create(r.value));
    CreatesAs(kind, net.genesis, log0, r.value, |log0|);
    NewRowInTable(old(net.db.txs), r.value);
    ghost var log1 := net.log;
    var killed := net.Interfere();
    EnvironmentIsQuiet(log1, net.log, |log0|);
    EnvironmentActsAs(kind, net.genesis, log1, net.log, |log0|);
    StillCreated(log1, net.log, |log0|, r.value.hash);
    if killed { return Err(Interrupted); }
    ghost var log2 := net.log;
    var sent := net.SendTransaction(r.value.hash);
    SendIsNoFailure(log2, net.log, |log0|, Broadcast(r.value.hash));
    SendsAs(kind, net.genesis, log2, r.value.hash, |log0|);
    if !sent { return Err(SendFailed); }
  }

  lemma RefusedIsJust(e: Error, kind: Kind, net: Network, group: int, nonce: nat, t: Terms)
    requires net.Valid() && Refused(e, kind, net.chain, net.db.State(), group, nonce, t)
    ensures !CanBeSent(net.chain.decimals, net.db.State(), group, nonce, t)
  {
    hide Legal, IsGenesis, Replay, Refused, FromUSD, SumUSD, InTable, PayoutsOf;
    AmountsArePositive(net, group);
    if CanBeSent(net.chain.decimals, net.db.State(), group, nonce, t) {
      RefusalsAreJust(e, kind, net.chain, net.db.State(), group, nonce, t);
    }
  }

  lemma MayAttachAs(kind: Kind, s: State, group: int, nonce: nat)
    requires MayUse(kind, s, group, nonce)
    ensures kind.ZkSyncEra? ==> IsAttach(s, group, nonce)
  {}

  lemma OneAmount(payouts: seq<Payout>)
    requires |payouts| == 1
    ensures AmountsOf(payouts) == [payouts[0].usd]
  {}

  lemma NothingHappened(log: seq<Event>, chain: Chain)
    ensures OnlyEnvironment(log, |log|) && Later(chain, chain)
  {}

  lemma NothingAdded(log: seq<Event>)
    ensures NoFailure(log, |log|) && QuietAfterFailure(log, |log|)
  {}

  lemma SendIsNoFailure(a: seq<Event>, b: seq<Event>, from: nat, e: Event)
    requires IsSend(e) && NoFailure(a, from) && (b == a || b == a + [e])
    ensures NoFailure(b, from)
  {}

  lemma NewRowInTable(txs: seq<TxRow>, row: TxRow)
    ensures InTable(txs + [row], row.hash)
  {
    assert (txs + [row])[|txs|] == row;
  }

  // ---------------------------------------------------------------- facts about the followed groups

  /** The first groups are settled and emptied; the rest is the pending part of the table. */
  predicate Follows(v: seq<GroupView>, txs: seq<TxRow>, settled: nat) {
    && settled <= |v|
    && (forall k :: 0 <= k < settled ==> v[k].txs == [])
    && IsPipelineOf(v[settled..], txs)
  }

  lemma FirstIsHeld(v: seq<GroupView>, txs: seq<TxRow>, settled: nat)
    requires Follows(v, txs, settled) && settled < |v|
    ensures Holds(v[settled], txs) && v[settled].txs != []
  {
    assert v[settled..][0] == v[settled];
  }

  /** The groups without transactions are exactly the settled ones, in front. */
  lemma OnlySettledAreEmpty(v: seq<GroupView>, txs: seq<TxRow>, settled: nat, k: nat)
    requires Follows(v, txs, settled) && k < |v|
    ensures v[k].txs == [] <==> k < settled
  {
    if settled <= k {
      assert v[settled..][k - settled] == v[k];
      assert Holds(v[settled..][k - settled], txs);
    }
  }

  lemma TrimmedFollows(v: seq<GroupView>, txs: seq<TxRow>, settled: nat)
    requires Follows(v, txs, settled) && settled > 0
    ensures Follows(v[1..], txs, settled - 1)
  {
    assert v[1..][settled - 1..] == v[settled..];
  }

  lemma AttachedFollows(v: seq<GroupView>, txs: seq<TxRow>, row: TxRow)
    requires Follows(v, txs, 0) && row.state.Pending? && !InTable(txs, row.hash)
    requires |v| > 0 ==> row.nonce == v[|v| - 1].nonce + 1
    ensures Follows(v + [GroupView(row.nonce, row.group, [row])], txs + [row], 0)
  {
    hide IsPipelineOf, InTable;
    assert v[0..] == v;
    AttachedPipeline(v, txs, row);
    var v' := v + [GroupView(row.nonce, row.group, [row])];
    assert v'[0..] == v';
  }

  lemma ResentFollows(v: seq<GroupView>, txs: seq<TxRow>, settled: nat, row: TxRow)
    requires Follows(v, txs, settled) && settled < |v| && row.state.Pending? && !InTable(txs, row.hash)
    requires row.nonce == v[settled].nonce && row.group == v[settled].group
    ensures Follows(v[settled := v[settled].(txs := v[settled].txs + [row])], txs + [row], settled)
  {
    hide IsPipelineOf, InTable;
    ResentPipeline(v[settled..], txs, row, 0);
    var v' := v[settled := v[settled].(txs := v[settled].txs + [row])];
    assert v'[settled..] == v[settled..][0 := v'[settled]];
  }

  lemma SettledFollows(v: seq<GroupView>, db: Tables, settled: nat, receipt: Receipt)
    requires Follows(v, db.txs, settled) && settled < |v|
    ensures Follows(v[settled := v[settled].(txs := [])],
                    Settle(db, v[settled].nonce, v[settled].group, receipt).txs, settled + 1)
  {
    hide IsPipelineOf, Settle;
    SettledPipeline(v[settled..], db, receipt);
    var v' := v[settled := v[settled].(txs := [])];
    assert v'[settled + 1..] == v[settled..][1..];
  }

  /** A followed group whose transactions are all old may be sent again. */
  lemma MayResend(s: State, v: seq<GroupView>, settled: nat)
    requires Inv(s) && Follows(v, s.db.txs, settled) && settled < |v|
    requires forall m :: 0 <= m < |v[settled].txs| ==> v[settled].txs[m].createdAt + NOT_DROPPED_UNTIL <= s.now
    ensures MayUse(Eth, s, v[settled].group, v[settled].nonce)
  {
    hide RowsInv, TruthInv, FinalsInv, ContiguousInv, ChainInv, DroppedInv, SpacedInv, IsAttach, IsResend;
    CanResend(s, v[settled..], 0);
    FirstIsHeld(v, s.db.txs, settled);
    var i := HeldRow(v[settled], s.db.txs);
  }

  lemma MayAttach(kind: Kind, s: State, v: seq<GroupView>, group: int, nonce: nat)
    requires Follows(v, s.db.txs, 0) && Unattached(s.db, group)
    requires |v| > 0 ==> nonce == v[|v| - 1].nonce + 1
    ensures MayUse(kind, s, group, nonce)
  {
    hide IsPipelineOf, IsAttach, IsResend;
    assert v[0..] == v;
    CanAttach(s, v, group, nonce);
  }

  /** A final verdict on the first unsettled group can be recorded, and settles its nonce. */
  lemma MayFinalize(s: State, v: seq<GroupView>, settled: nat, state: TxState, statuses: seq<TxStatus>) returns (w: nat)
    requires Inv(s) && Follows(v, s.db.txs, settled) && settled < |v|
    requires Verdict(state, statuses, v[settled].txs, s.chain.mined) && (state.Confirmed? || state.Failed?)
    ensures v[settled].nonce in s.chain.mined && CanFinalize(s, v[settled].nonce, v[settled].group, statuses, w)
    ensures ApplyStatuses(s.db, v[settled].group, statuses)
              == Settle(s.db, v[settled].nonce, v[settled].group, s.chain.mined[v[settled].nonce])
    ensures IsFailure(Finalize(v[settled].nonce, v[settled].group, statuses, w)) <==> state.Failed?
    ensures s.chain.mined[v[settled].nonce].success <==> state.Confirmed?
  {
    hide TruthInv, FinalsInv, PendingInv, ContiguousInv, ChainInv, DroppedInv, SpacedInv, IsPipelineOf, Holds,
      CanFinalize, ApplyStatuses, Settle, Decision, AllTrue;
    FirstIsHeld(v, s.db.txs, settled);
    w := VerdictHasWinner(state, statuses, v[settled], s.db.txs, s.chain.mined);
    assert v[settled..][0] == v[settled];
    CanFinalizeFirst(s, v[settled..], statuses, w);
    FinalizeSettles(s, v[settled].nonce, v[settled].group, statuses, w);
  }

  /** Confirming the first unsettled group leaves the groups still to attach alone. */
  lemma ConfirmLeavesUnattached(s: State, v: seq<GroupView>, settled: nat, receipt: Receipt)
    requires Inv(s) && Follows(v, s.db.txs, settled) && settled < |v| && receipt.success
    ensures UnattachedSet(Settle(s.db, v[settled].nonce, v[settled].group, receipt)) == UnattachedSet(s.db)
  {
    hide RowsInv, TruthInv, FinalsInv, PendingInv, ContiguousInv, ChainInv, DroppedInv, SpacedInv, IsPipelineOf,
      Settle, UnattachedSet;
    FirstIsHeld(v, s.db.txs, settled);
    var w := HeldRow(v[settled], s.db.txs);
    ConfirmKeeps(s.db, v[settled].nonce, v[settled].group, receipt, w);
  }

  /** Sending again leaves the groups still to attach alone. */
  lemma ResendLeavesUnattached(db: Tables, v: seq<GroupView>, settled: nat, row: TxRow)
    requires Follows(v, db.txs, settled) && settled < |v| && row.state.Pending? && row.group == v[settled].group
    ensures UnattachedSet(db.(txs := db.txs + [row])) == UnattachedSet(db)
  {
    hide IsPipelineOf, UnattachedSet;
    FirstIsHeld(v, db.txs, settled);
    var w := HeldRow(v[settled], db.txs);
    ResendKeeps(db, row);
  }

  /** Loading the table again gives the followed groups without the settled ones, up to row order in a group. */
  lemma ReloadIsPipeline(s: State, v: seq<GroupView>, settled: nat, loaded: seq<GroupView>)
    requires Inv(s) && Follows(v, s.db.txs, settled) && IsGrouping(loaded, s.db.txs)
    ensures |loaded| == |v| - settled
    ensures forall k :: 0 <= k < |loaded| ==>
              var g := v[settled + k];
              && loaded[k].nonce == g.nonce && loaded[k].group == g.group
              && |loaded[k].txs| == |g.txs| && forall r :: r in loaded[k].txs <==> r in g.txs
  {
    hide RowsInv, TruthInv, FinalsInv, PendingInv, ChainInv, DroppedInv, SpacedInv, IsPipelineOf, IsGrouping,
      ContiguousInv;
    GroupingIsPipeline(loaded, s.db.txs);
    PipelineIsUnique(loaded, v[settled..], s.db.txs);
  }

  /** Whatever happened before, the rows of a nonce never disagree on their group, so loading cannot fail on them. */
  lemma NeverConflicting(s: State)
    requires Inv(s)
    ensures !Conflicting(s.db.txs) && HashesDistinct(s.db.txs)
  {}

  lemma LoadedFollows(s: State, v: seq<GroupView>)
    requires Inv(s) && IsGrouping(v, s.db.txs)
    ensures Follows(v, s.db.txs, 0)
  {
    hide RowsInv, TruthInv, FinalsInv, PendingInv, ChainInv, DroppedInv, SpacedInv, IsPipelineOf, IsGrouping,
      ContiguousInv;
    GroupingIsPipeline(v, s.db.txs);
    assert v[0..] == v;
  }

  /** Greatest creation time of the transactions of a group. */
  method YoungestTransactionTime(txs: seq<TxRow>) returns (youngest: nat)
    ensures forall m :: 0 <= m < |txs| ==> txs[m].createdAt <= youngest
    ensures txs == [] ==> youngest == 0
    ensures txs != [] ==> exists m :: 0 <= m < |txs| && txs[m].createdAt == youngest
  {
    youngest := 0;
    for k := 0 to |txs|
      invariant forall m :: 0 <= m < k ==> txs[m].createdAt <= youngest
      invariant youngest == 0 || exists m :: 0 <= m < k && txs[m].createdAt == youngest
    {
      if youngest < txs[k].createdAt { youngest := txs[k].createdAt; }
    }
    if youngest == 0 && txs != [] { assert txs[0].createdAt == youngest; }
  }

  // ---------------------------------------------------------------- the pipeline

  predicate IsFinal(state: TxState) {
    state.Confirmed? || state.Failed?
  }

  /** All the statuses heard in a pass, in order. */
  function AllHeard(heard: seq<seq<TxStatus>>): seq<TxStatus> {
    if heard == [] then [] else AllHeard(heard[..|heard| - 1]) + heard[|heard| - 1]
  }

  /** The first groups heard about all got a final verdict. */
  predicate PassSoFar(v: seq<GroupView>, heard: seq<seq<TxStatus>>, settled: nat) {
    && settled <= |heard| <= |v|
    && forall k :: 0 <= k < |heard| ==> Aligned(heard[k], v[k].txs) && (IsFinal(Decision(heard[k])) <==> k < settled)
  }

  /** A pass hears about the groups in order, one status per transaction, up to the first without a final verdict. */
  predicate IsPass(v: seq<GroupView>, heard: seq<seq<TxStatus>>, settled: nat) {
    PassSoFar(v, heard, settled) && |heard| == if settled < |v| then settled + 1 else settled
  }

  predicate SomeFailed(heard: seq<seq<TxStatus>>) {
    exists k :: 0 <= k < |heard| && Decision(heard[k]).Failed?
  }

  /** The group went on to another transaction, which was handed to the node. */
  predicate SentAgain(before: GroupView, after: GroupView, submitted: seq<Hash>, submitted': seq<Hash>) {
    && |after.txs| == |before.txs| + 1 && before.txs == after.txs[..|before.txs|]
    && submitted' == submitted + [after.txs[|before.txs|].hash]
  }

  /** The group was sent again, or else one of its transactions was too young. */
  predicate Resent(before: GroupView, after: GroupView, now: nat, submitted: seq<Hash>, submitted': seq<Hash>) {
    || SentAgain(before, after, submitted, submitted')
    || (after == before && submitted' == submitted
        && exists m :: 0 <= m < |before.txs| && now < before.txs[m].createdAt + NOT_DROPPED_UNTIL)
  }

  lemma ResentEarlier(before: GroupView, after: GroupView, now: nat, now': nat, submitted: seq<Hash>,
      submitted': seq<Hash>)
    requires now <= now' && Resent(before, after, now', submitted, submitted')
    ensures Resent(before, after, now, submitted, submitted')
  {}

  /** Only the first group without a final verdict can be sent again, and only when it was dropped. */
  predicate ResendRule(v: seq<GroupView>, v': seq<GroupView>, heard: seq<seq<TxStatus>>, settled: nat, now: nat,
      submitted: seq<Hash>, submitted': seq<Hash>) {
    && |v| == |v'|
    && (if settled < |heard| <= |v| && Decision(heard[settled]).Dropped?
        then Resent(v[settled], v'[settled], now, submitted, submitted')
        else submitted' == submitted && (settled < |v| ==> v'[settled] == v[settled]))
  }

  /** One group more, with the next nonce and one transaction that was handed to the node. */
  predicate IsAttached(v: seq<GroupView>, v': seq<GroupView>, group: int, submitted: seq<Hash>, submitted': seq<Hash>) {
    && |v'| == |v| + 1 && v <= v' && v'[|v|].group == group && |v'[|v|].txs| == 1
    && submitted' == submitted + [v'[|v|].txs[0].hash]
    && (|v| > 0 ==> v'[|v|].nonce == v[|v| - 1].nonce + 1)
  }

  lemma OneAttached(v: seq<GroupView>, v': seq<GroupView>, row: TxRow, submitted: seq<Hash>, submitted': seq<Hash>)
    requires v' == v + [GroupView(row.nonce, row.group, [row])] && submitted' == submitted + [row.hash]
    requires |v| > 0 ==> row.nonce == v[|v| - 1].nonce + 1
    ensures IsAttached(v, v', row.group, submitted, submitted') && v'[|v|].nonce == row.nonce
  {}

  /** Groups were only added, each with one transaction that was handed to the node, in order. */
  predicate IsFilled(v: seq<GroupView>, v': seq<GroupView>, submitted: seq<Hash>, submitted': seq<Hash>) {
    && v <= v' && |submitted'| == |submitted| + (|v'| - |v|) && submitted <= submitted'
    && (forall k :: |v| <= k < |v'| ==>
          |v'[k].txs| == 1 && v'[k].txs[0].hash == submitted'[|submitted| + (k - |v|)])
    && (forall k :: |v| <= k < |v'| && k > 0 ==> v'[k].nonce == v'[k - 1].nonce + 1)
  }

  lemma NothingFilled(v: seq<GroupView>, submitted: seq<Hash>)
    ensures IsFilled(v, v, submitted, submitted)
  {}

  lemma FilledMore(v: seq<GroupView>, v1: seq<GroupView>, v2: seq<GroupView>, group: int, submitted: seq<Hash>,
      submitted1: seq<Hash>, submitted2: seq<Hash>)
    requires IsFilled(v, v1, submitted, submitted1) && IsAttached(v1, v2, group, submitted1, submitted2)
    ensures IsFilled(v, v2, submitted, submitted2)
  {
    forall k | 0 <= k < |v1| ensures v2[k] == v1[k] {}
  }

  lemma FilledOn(v: seq<GroupView>, v1: seq<GroupView>, v2: seq<GroupView>,
                 submitted: seq<Hash>, submitted1: seq<Hash>, submitted2: seq<Hash>)
    requires IsFilled(v, v1, submitted, submitted1) && IsFilled(v1, v2, submitted1, submitted2)
    ensures IsFilled(v, v2, submitted, submitted2)
  {
    forall k | 0 <= k < |v1| ensures v2[k] == v1[k] {}
    forall k | 0 <= k < |submitted1| ensures submitted2[k] == submitted1[k] {}
  }

  /** What one step did: the groups after filling up, what it then heard about them, and since when. */
  datatype StepTrace = StepTrace(checked: bool, filled: seq<GroupView>, heard: seq<seq<TxStatus>>, since: nat,
      said: Terms, submitted: seq<Hash>)

  lemma ResendAllowed(v: seq<GroupView>, v': seq<GroupView>, heard: seq<seq<TxStatus>>, settled: nat, now: nat,
      submitted: seq<Hash>, submitted': seq<Hash>)
    requires |v| == |v'| && settled < |heard| <= |v| && Decision(heard[settled]).Dropped?
    requires Resent(v[settled], v'[settled], now, submitted, submitted')
    ensures ResendRule(v, v', heard, settled, now, submitted, submitted')
  {}

  lemma NothingResent(v: seq<GroupView>, v': seq<GroupView>, heard: seq<seq<TxStatus>>, settled: nat, now: nat,
      submitted: seq<Hash>)
    requires |v| == |v'| && |heard| <= |v| && (settled < |heard| ==> !Decision(heard[settled]).Dropped?)
    requires settled < |v| ==> v'[settled] == v[settled]
    ensures ResendRule(v, v', heard, settled, now, submitted, submitted)
  {}

  lemma NothingHeard(v: seq<GroupView>)
    ensures PassSoFar(v, [], 0) && AllHeard([]) == [] && !SomeFailed([])
  {}

  lemma HearsMore(v: seq<GroupView>, heard: seq<seq<TxStatus>>, settled: nat, all: seq<TxStatus>)
    requires PassSoFar(v, heard, settled) && |heard| == settled < |v| && Aligned(all, v[settled].txs)
    ensures AllHeard(heard + [all]) == AllHeard(heard) + all
    ensures if IsFinal(Decision(all)) then PassSoFar(v, heard + [all], settled + 1)
              else IsPass(v, heard + [all], settled)
    ensures SomeFailed(heard + [all]) <==> SomeFailed(heard) || Decision(all).Failed?
  {
    hide Aligned, Decision, IsFinal, SomeFailed, PassSoFar;
    assert (heard + [all])[..settled] == heard;
    MoreFailed(heard, all);
    PassGoesOn(v, heard, all);
  }

  lemma MoreFailed(heard: seq<seq<TxStatus>>, all: seq<TxStatus>)
    ensures SomeFailed(heard + [all]) <==> SomeFailed(heard) || Decision(all).Failed?
  {
    hide Decision;
    var heard' := heard + [all];
    assert forall k :: 0 <= k < |heard| ==> heard'[k] == heard[k];
    assert heard'[|heard|] == all;
  }

  lemma PassGoesOn(v: seq<GroupView>, heard: seq<seq<TxStatus>>, all: seq<TxStatus>)
    requires PassSoFar(v, heard, |heard|) && |heard| < |v| && Aligned(all, v[|heard|].txs)
    ensures PassSoFar(v, heard + [all], if IsFinal(Decision(all)) then |heard| + 1 else |heard|)
  {
    hide Aligned, Decision, IsFinal;
    var heard' := heard + [all];
    forall k | 0 <= k < |heard'|
      ensures Aligned(heard'[k], v[k].txs) && (IsFinal(Decision(heard'[k])) <==> k < |heard| || IsFinal(Decision(all)))
    {
      if k < |heard| { assert heard'[k] == heard[k]; }
    }
  }

  lemma PassIsOver(v: seq<GroupView>, heard: seq<seq<TxStatus>>)
    ensures PassSoFar(v, heard, |v|) ==> IsPass(v, heard, |v|)
  {}

  lemma VerdictMeans(state: TxState, statuses: seq<TxStatus>, txs: seq<TxRow>, mined: map<nat, Receipt>)
    requires Verdict(state, statuses, txs, mined)
    ensures Aligned(statuses, txs) && state == Decision(statuses)
  {}

  /** Why a payer gives no verdict on a group when nothing failed. */
  predicate GroupRefuses(kind: Kind, checkOnly: bool, txs: seq<TxRow>, told: seq<TxStatus>, e: Error) {
    match e
    case ResendAborted => kind.Eth? && checkOnly && ToldDropped(told, txs)
    case OneTransactionOnly => kind.ZkSyncEra? && |txs| != 1 && told == []
    case _ => false
  }

  /** Why checking a group stops the process when nothing failed: no verdict, or a resend that is refused. */
  predicate CheckRefuses(kind: Kind, checkOnly: bool, v: GroupView, told: seq<TxStatus>, e: Error, chain: Chain,
      db: Tables, t: Terms) {
    if e.ResendAborted? || e.OneTransactionOnly? then GroupRefuses(kind, checkOnly, v.txs, told, e)
    else kind.Eth? && !checkOnly && ToldDropped(told, v.txs) && Refused(e, kind, chain, db, v.group, v.nonce, t)
  }

  lemma PayerRefuses(kind: Kind, checkOnly: bool, v: GroupView, told: seq<TxStatus>, e: Error, chain: Chain,
      db: Tables, t: Terms)
    requires GroupRefuses(kind, checkOnly, v.txs, told, e)
    ensures CheckRefuses(kind, checkOnly, v, told, e, chain, db, t)
  {
    hide ToldDropped;
  }

  lemma ResendRefuses(kind: Kind, checkOnly: bool, v: GroupView, told: seq<TxStatus>, e: Error, chain: Chain,
      db: Tables, t: Terms)
    requires kind.Eth? && !checkOnly && Aligned(told, v.txs) && Decision(told).Dropped?
    requires Refused(e, kind, chain, db, v.group, v.nonce, t)
    ensures CheckRefuses(kind, checkOnly, v, told, e, chain, db, t)
  {
    hide Decision, Aligned, FromUSD, SumUSD, InTable;
  }

  predicate StoppedAtDropped(heard: seq<seq<TxStatus>>, settled: nat) {
    settled < |heard| && Decision(heard[settled]).Dropped?
  }

  /**
    How a pass over the groups ends when nothing fails.  Failed transactions end the process after the
    whole pass, or at a dropped group; only a dropped group that is sent again can end it otherwise.
    */
  predicate PassEnds(kind: Kind, v: seq<GroupView>, heard: seq<seq<TxStatus>>, settled: nat, err: Option<Error>,
      chain: Chain, db: Tables, t: Terms) {
    if err.None? then IsPass(v, heard, settled) && !SomeFailed(heard)
    else
      match err.value
      case TransactionsFailed =>
        IsPass(v, heard, settled) && SomeFailed(heard) && !StoppedAtDropped(heard, settled)
      case ResendAborted =>
        kind.Eth? && IsPass(v, heard, settled) && SomeFailed(heard) && StoppedAtDropped(heard, settled)
      case OneTransactionOnly =>
        kind.ZkSyncEra? && PassSoFar(v, heard, settled) && settled == |heard| < |v| && |v[settled].txs| != 1
      case _ =>
        && kind.Eth? && IsPass(v, heard, settled) && !SomeFailed(heard) && StoppedAtDropped(heard, settled)
        && Refused(err.value, kind, chain, db, v[settled].group, v[settled].nonce, t)
  }

  /** A group with several transactions is not even asked about by zkSync Era. */
  function HeardUpTo(heard: seq<seq<TxStatus>>, all: seq<TxStatus>, e: Error): seq<seq<TxStatus>> {
    if e.OneTransactionOnly? then heard else heard + [all]
  }

  lemma PassStops(kind: Kind, v: seq<GroupView>, heard: seq<seq<TxStatus>>, all: seq<TxStatus>, e: Error, chain: Chain,
      db: Tables, t: Terms)
    requires PassSoFar(v, heard, |heard|) && |heard| < |v|
    requires CheckRefuses(kind, SomeFailed(heard), v[|heard|], all, e, chain, db, t)
    ensures var heard' := HeardUpTo(heard, all, e);
            && PassEnds(kind, v, heard', |heard|, Some(e), chain, db, t) && AllHeard(heard') == AllHeard(heard) + all
            && (SomeFailed(heard') <==> SomeFailed(heard))
    ensures !e.TransactionsFailed?
  {
    hide Aligned, Refused, PassSoFar, SomeFailed, IsPass, AllHeard, Decision, IsFinal;
    if !e.OneTransactionOnly? {
      HearsMore(v, heard, |heard|, all);
      DroppedIsNotFinal(all);
    }
    RefusedIsRefusal(e, kind, chain, db, v[|heard|].group, v[|heard|].nonce, t);
  }

  lemma DroppedIsNotFinal(all: seq<TxStatus>)
    ensures Decision(all).Dropped? ==> !IsFinal(Decision(all))
  {
    hide Decision;
  }

  lemma RefusedIsRefusal(e: Error, kind: Kind, chain: Chain, db: Tables, group: int, nonce: nat, t: Terms)
    ensures Refused(e, kind, chain, db, group, nonce, t) ==>
              !e.TransactionsFailed? && !e.StaleNonce? && !e.ResendAborted? && !e.OneTransactionOnly?
  {
    hide FromUSD, SumUSD, InTable;
  }

  lemma PassCompletes(kind: Kind, v: seq<GroupView>, heard: seq<seq<TxStatus>>, settled: nat, chain: Chain, db: Tables,
      t: Terms)
    requires IsPass(v, heard, settled) && (StoppedAtDropped(heard, settled) ==> !SomeFailed(heard))
    ensures PassEnds(kind, v, heard, settled, if SomeFailed(heard) then Some(TransactionsFailed)
              else None, chain, db, t)
  {
    hide PassSoFar, SomeFailed, StoppedAtDropped, Refused;
  }

  /** The first group without a final verdict has no transaction that reached a node. */
  predicate StoppedAtUnsent(v: seq<GroupView>, settled: nat, sent: set<Hash>) {
    settled < |v| && NoneReached(v[settled].txs, sent)
  }

  /**
    Why attaching a group stops the process when nothing failed: the node gave a nonce that is known to be
    used, and nothing was pending, or the transaction is refused.
    */
  ghost predicate AttachStops(kind: Kind, pending: nat, expected: nat, group: int, e: Error, chain: Chain, db: Tables,
      a: Terms, b: Terms) {
    if e.StaleNonce? then
      pending == 0 && b.numbers == a.numbers + [e.nonce] && !AcceptsNonce(expected, e.nonce) && e.atLeast == expected
    else exists nonce, m :: Grew(a, m) && Grew(m, b) && Refused(e, kind, chain, db, group, nonce, Since(m, b))
  }

  lemma StaleStops(kind: Kind, expected: nat, group: int, e: Error, chain: Chain, db: Tables, a: Terms, b: Terms)
    requires e.StaleNonce? && b.numbers == a.numbers + [e.nonce] && !AcceptsNonce(expected, e.nonce)
    requires e.atLeast == expected
    ensures AttachStops(kind, 0, expected, group, e, chain, db, a, b)
  {}

  lemma RefusalStops(kind: Kind, pending: nat, expected: nat, group: int, nonce: nat, e: Error, chain: Chain,
      db: Tables,
      a: Terms, m: Terms, b: Terms)
    requires Grew(a, m) && Grew(m, b) && Refused(e, kind, chain, db, group, nonce, Since(m, b))
    ensures AttachStops(kind, pending, expected, group, e, chain, db, a, b)
  {
    RefusedIsRefusal(e, kind, chain, db, group, nonce, Since(m, b));
    hide Refused;
  }

  /** The same of filling up: some unattached group could not be attached. */
  ghost predicate FillStops(kind: Kind, pending: nat, expected: nat, e: Error, chain: Chain, db: Tables, a: Terms,
      b: Terms) {
    exists group :: Unattached(db, group) && AttachStops(kind, pending, expected, group, e, chain, db, a, b)
  }

  lemma AttachingStops(kind: Kind, pending: nat, expected: nat, group: int, e: Error, chain: Chain, db: Tables,
      a: Terms, b: Terms)
    requires Unattached(db, group) && AttachStops(kind, pending, expected, group, e, chain, db, a, b)
    ensures FillStops(kind, pending, expected, e, chain, db, a, b)
  {}

  /** While something is pending no nonce is asked for. */
  lemma StopsLater(kind: Kind, pending: nat, expected: nat, pending': nat, expected': nat, e: Error, chain: Chain,
      db: Tables, a: Terms, m: Terms, b: Terms)
    requires pending' > 0 && Grew(a, m) && FillStops(kind, pending', expected', e, chain, db, m, b)
    ensures FillStops(kind, pending, expected, e, chain, db, a, b)
  {
    hide Refused, Unattached;
    var group :| Unattached(db, group) && AttachStops(kind, pending', expected', group, e, chain, db, m, b);
    var nonce, m' :| Grew(m, m') && Grew(m', b) && Refused(e, kind, chain, db, group, nonce, Since(m', b));
    RefusalStops(kind, pending, expected, group, nonce, e, chain, db, a, m', b);
  }

  /** A process that nothing else stopped reports failed transactions exactly if it finalized a group as failed. */
  predicate FailureStops(noFailure: bool, err: Option<Error>) {
    && (err.Some? && (err.value.TransactionsFailed? || err.value.ResendAborted?) ==> !noFailure)
    && (!noFailure ==>
          err.Some? && (err.value.TransactionsFailed? || err.value.ResendAborted? || err.value.OneTransactionOnly?))
  }

  lemma PassFailureStops(kind: Kind, v: seq<GroupView>, heard: seq<seq<TxStatus>>, settled: nat, err: Option<Error>,
      chain: Chain, db: Tables, t: Terms)
    requires PassEnds(kind, v, heard, settled, err, chain, db, t)
    ensures FailureStops(!SomeFailed(heard), err)
  {
    hide IsPass, PassSoFar, SomeFailed, Refused, StoppedAtDropped;
  }

  lemma LogGoesOn(kind: Kind, genesis: State, a: seq<Event>, b: seq<Event>, c: seq<Event>)
    requires a <= b <= c && ActsAs(kind, genesis, b, |a|) && ActsAs(kind, genesis, c, |b|)
    requires NoFailure(b, |a|) && QuietAfterFailure(c, |b|)
    ensures a <= c && ActsAs(kind, genesis, c, |a|) && QuietAfterFailure(c, |a|)
    ensures NoFailure(c, |a|) <==> NoFailure(c, |b|)
  {
    hide ActsAs;
    NoFailureThenQuiet(b, c, |a|);
    GoesOnAs(kind, genesis, b, c, |a|);
  }

  /** What the second half of a step tells, when nothing failed. */
  predicate StepEnds(kind: Kind, step: StepTrace, settled: nat, err: Option<Error>, told: seq<TxStatus>,
      told': seq<TxStatus>, chain: Chain, db: Tables, said: Terms, noFailure: bool) {
    && Grew(step.said, said) && told' == told + AllHeard(step.heard)
    && PassEnds(kind, step.filled, step.heard, settled, err, chain, db, Since(step.said, said))
    && (noFailure <==> !SomeFailed(step.heard))
  }

  lemma StepFailureStops(kind: Kind, step: StepTrace, settled: nat, err: Option<Error>, told: seq<TxStatus>,
      told': seq<TxStatus>, chain: Chain, db: Tables, said: Terms, noFailure: bool)
    requires StepEnds(kind, step, settled, err, told, told', chain, db, said, noFailure)
    ensures FailureStops(noFailure, err)
  {
    hide PassEnds, SomeFailed, AllHeard;
    PassFailureStops(kind, step.filled, step.heard, settled, err, chain, db, Since(step.said, said));
  }

  lemma FillNeverFails(kind: Kind, pending: nat, expected: nat, e: Error, chain: Chain, db: Tables, a: Terms, b: Terms)
    requires FillStops(kind, pending, expected, e, chain, db, a, b)
    ensures FailureStops(true, Some(e))
  {
    hide Unattached;
    var group :| Unattached(db, group) && AttachStops(kind, pending, expected, group, e, chain, db, a, b);
    if !e.StaleNonce? {
      var nonce, m :| Grew(a, m) && Grew(m, b) && Refused(e, kind, chain, db, group, nonce, Since(m, b));
      RefusedIsRefusal(e, kind, chain, db, group, nonce, Since(m, b));
    }
  }

  lemma HonestLately(a: seq<LookedUp>, b: seq<LookedUp>, c: seq<LookedUp>)
    requires a <= b <= c
    ensures AllHonest(c[|a|..]) ==> AllHonest(c[|b|..])
  {
    assert c[|b|..] == c[|a|..][|b| - |a|..];
  }

  predicate NoneReached(txs: seq<TxRow>, sent: set<Hash>) {
    forall m :: 0 <= m < |txs| ==> txs[m].hash !in sent
  }

  lemma HonestlyDropped(lookups: seq<LookedUp>, told: seq<TxStatus>, txs: seq<TxRow>, sent: set<Hash>)
    requires HonestMeans(lookups, told, sent) && Aligned(told, txs) && Decision(told).Dropped?
    ensures AllHonest(lookups) ==> NoneReached(txs, sent)
  {
    hide Decision, AllHonest;
    DroppedMeaning(told);
  }

  predicate Rising(nonces: seq<nat>) {
    forall i, j :: 0 <= i < j < |nonces| ==> nonces[i] < nonces[j]
  }

  /** No groups but the former ones and new ones. */
  twostate predicate OnlyNew(groups: seq<NonceGroup>, new groups': seq<NonceGroup>) {
    forall g <- groups' :: g in groups || fresh(g)
  }

  class Pipeline {
    const kind: Kind
    const net: Network
    const limit: int
    const drain: bool
    var expectedNonce: nat
    var nonceGroups: seq<NonceGroup>
    /** How many leading groups are settled, and the nonces this process took from the node. */
    ghost var settled: nat
    ghost var chainNonces: seq<nat>

    constructor (kind: Kind, net: Network, limit: int, drain: bool)
      ensures this.kind == kind && this.net == net && this.drain == drain
      ensures this.limit == if limit == 0 then 16 else limit
      ensures nonceGroups == [] && expectedNonce == 0 && NoncesRise()
    {
      this.kind, this.net, this.drain := kind, net, drain;
      this.limit := if limit == 0 then DEFAULT_LIMIT else limit;
      expectedNonce, nonceGroups, settled, chainNonces := 0, [], 0, [];
    }

    ghost function View(): seq<GroupView>
      reads this, nonceGroups
    {
      Views(nonceGroups)
    }

    /** Nonces taken from the node strictly increase within a process, however stale the node is. */
    ghost predicate NoncesRise()
      reads this
    {
      && Rising(chainNonces)
      && (chainNonces != [] ==> expectedNonce == chainNonces[|chainNonces| - 1] + 1)
    }

    /** The groups in memory are the pending rows of the database, after the settled ones. */
    ghost predicate Ready()
      reads this, net, net.db, nonceGroups
    {
      && net.Valid() && Distinct(nonceGroups) && NoncesRise()
      && Follows(View(), net.db.txs, settled)
    }

    /** Groups that are not settled yet. */
    ghost function Pending(): nat
      reads this
    {
      if settled <= |nonceGroups| then |nonceGroups| - settled else 0
    }

    /** Records the verdict on the first unsettled group and empties it. */
    method FinalizeGroup(i: nat, state: TxState, all: seq<TxStatus>) returns (ok: bool)
      requires Ready() && i == settled < |nonceGroups| && (state.Confirmed? || state.Failed?)
      requires Verdict(state, all, nonceGroups[settled].txs, net.chain.mined)
      modifies this`settled, net`log, net.db, nonceGroups[settled], net.db.faults
      ensures net.Valid()
      ensures ok ==> Ready() && settled == old(settled) + 1
      ensures ok && state.Confirmed? ==> UnattachedSet(net.db.State()) == old(UnattachedSet(net.db.State()))
      ensures ok ==> |net.log| == |old(net.log)| + 1 && old(net.log) <= net.log
                     && net.log[|old(net.log)|].Finalize? && net.log[|old(net.log)|].statuses == all
                     && (IsFailure(net.log[|old(net.log)|]) <==> state.Failed?)
      ensures !ok ==> net.log == old(net.log) && settled == old(settled)
      ensures net.Faults() == if ok then old(net.Faults()) else old(net.Faults()) + 1
    {
      hide Legal, IsGenesis, Replay, Follows, Verdict, CanFinalize, ApplyStatuses, Inv, IsFailure, Views, UnattachedSet;
      var group := nonceGroups[i];
      ghost var s, v := net.World(), View();
      LegalInv(net.genesis, net.log);
      ghost var w := MayFinalize(s, v, settled, state, all);
      SettledFollows(v, s.db, settled, s.chain.mined[v[settled].nonce]);
      if state.Confirmed? { ConfirmLeavesUnattached(s, v, settled, s.chain.mined[v[settled].nonce]); }
      ok := net.db.FinalizeNonceGroup(group.payoutGroupID, all);
      if !ok { return; }
      net.Record(Finalize(group.nonce, group.payoutGroupID, all, w));
      group.txs := [];
      settled := settled + 1;
      assert View() == v[settled - 1 := v[settled - 1].(txs := [])];
    }

    /** Sends another transaction for the first unsettled group. */
    method Resend(i: nat) returns (err: Option<Error>)
      requires kind.Eth? && Ready() && i == settled < |nonceGroups|
      requires forall m :: 0 <= m < |nonceGroups[settled].txs| ==>
                 nonceGroups[settled].txs[m].createdAt + NOT_DROPPED_UNTIL <= net.now
      modifies net`log, net`chain, net`now, net`numbers, net`prices, net`fees, net`met, net`submitted, net.db,
          nonceGroups[settled], net.db.faults
      ensures net.Valid() && old(net.log) <= net.log && NoFailure(net.log, |old(net.log)|)
      ensures ActsAs(kind, net.genesis, net.log, |old(net.log)|)
      ensures err.None? ==> SentAgain(old(nonceGroups[settled].View()), nonceGroups[settled].View(),
                old(net.submitted), net.submitted)
      ensures Grew(old(net.Said()), net.Said())
      ensures err.Some? && !IsFault(err.value) ==>
                Refused(err.value, kind, net.chain, net.db.State(), old(nonceGroups[settled].payoutGroupID),
                  old(nonceGroups[settled].nonce), Since(old(net.Said()), net.Said()))
      ensures net.Faults() == old(net.Faults()) + FaultIn(err)
      ensures err.None? ==> Ready() && UnattachedSet(net.db.State()) == old(UnattachedSet(net.db.State()))
    {
      hide ActsAs;
      hide Legal, IsGenesis, Replay, Follows, Inv, MayUse, InTable, Views, UnattachedSet, Refused, Affordable,
        CanBeSent, DraftedOn, JustMet;
      var group := nonceGroups[i];
      ghost var s, v := net.World(), View();
      LegalInv(net.genesis, net.log);
      MayResend(s, v, settled);
      var tx := SendTransaction(kind, net, group.payoutGroupID, group.nonce);
      if tx.Err? { return Some(tx.error); }
      ResentFollows(v, s.db.txs, settled, tx.value);
      ResendLeavesUnattached(s.db, v, settled, tx.value);
      group.txs := group.txs + [tx.value];
      assert View() == v[settled := v[settled].(txs := v[settled].txs + [tx.value])];
      return None;
    }

    /** A dropped group is sent again, unless one of its transactions is too young to be believed dropped. */
    method ResendIfOld(i: nat) returns (err: Option<Error>)
      requires kind.Eth? && Ready() && i == settled < |nonceGroups| && nonceGroups[settled].txs != []
      modifies net`log, net`chain, net`now, net`numbers, net`prices, net`fees, net`met, net`submitted, net.db,
          nonceGroups[settled], net.db.faults
      ensures net.Valid() && old(net.log) <= net.log && NoFailure(net.log, |old(net.log)|)
      ensures ActsAs(kind, net.genesis, net.log, |old(net.log)|)
      ensures err.None? ==> Resent(old(nonceGroups[settled].View()), nonceGroups[settled].View(), old(net.now),
                old(net.submitted), net.submitted)
      ensures Grew(old(net.Said()), net.Said())
      ensures err.Some? && !IsFault(err.value) ==>
                Refused(err.value, kind, net.chain, net.db.State(), old(nonceGroups[settled].payoutGroupID),
                  old(nonceGroups[settled].nonce), Since(old(net.Said()), net.Said()))
      ensures net.Faults() == old(net.Faults()) + FaultIn(err)
      ensures err.None? ==> Ready() && UnattachedSet(net.db.State()) == old(UnattachedSet(net.db.State()))
    {
      hide ActsAs;
      hide Legal, IsGenesis, Replay, Follows, Views, UnattachedSet, Refused;
      NothingAdded(net.log);
      NothingDone(kind, net.genesis, net.log);
      var youngest := YoungestTransactionTime(nonceGroups[i].txs);
      if net.now < youngest + NOT_DROPPED_UNTIL { return None; }
      err := Resend(i);
    }

    /** What the node says about the first unsettled group, as one verdict. */
    method Ask(i: nat, checkOnly: bool) returns (r: Result<(TxState, seq<TxStatus>), Error>)
      requires Ready() && i == settled < |nonceGroups|
      modifies net`log, net`chain, net`now, net`told, net`lookups, net`receipts, net.db.faults
      ensures Ready() && old(net.log) <= net.log && OnlyEnvironment(net.log, |old(net.log)|) && old(net.now) <= net.now
      ensures net.Valid() && nonceGroups[settled].txs != []
      ensures r.Ok? ==> Verdict(r.value.0, r.value.1, nonceGroups[settled].txs, net.chain.mined)
      ensures r.Ok? ==> r.value.0 == Decision(r.value.1) && Aligned(r.value.1, nonceGroups[settled].txs)
      ensures r.Ok? ==> net.told == old(net.told) + r.value.1 && (r.value.0.Dropped? ==> !checkOnly && kind.Eth?)
      ensures r.Ok? && kind.ZkSyncEra? ==> |r.value.1| == 1
      ensures old(net.lookups) <= net.lookups && old(net.told) <= net.told && net.chain.sent == old(net.chain.sent)
      ensures r.Ok? || r.error.ResendAborted? ==>
                HonestMeans(net.lookups[|old(net.lookups)|..], net.told[|old(net.told)|..], net.chain.sent)
      ensures r.Err? && !IsFault(r.error) ==>
                GroupRefuses(kind, checkOnly, nonceGroups[settled].txs, net.told[|old(net.told)|..], r.error)
      ensures net.Faults() == if r.Err? && IsFault(r.error) then old(net.Faults()) + 1 else old(net.Faults())
    {
      hide Legal, IsGenesis, Replay, Follows, Views, Verdict, ToldDropped, HonestMeans;
      OnlySettledAreEmpty(View(), net.db.txs, i, i);
      var killed := net.Interfere();
      if killed { return Err(Interrupted); }
      r := CheckNonceGroup(kind, net, nonceGroups[i].txs, checkOnly);
      if r.Ok? { VerdictMeans(r.value.0, r.value.1, nonceGroups[i].txs, net.chain.mined); }
    }

    /** Checks the first unsettled group, and settles it or sends it again as the verdict demands. */
    method CheckGroup(i: nat, checkOnly: bool) returns (r: Result<TxState, Error>, ghost all: seq<TxStatus>)
      requires Ready() && i == settled < |nonceGroups|
      modifies this`settled, net, net.db, nonceGroups[settled], net.db.faults
      ensures net.Valid() && old(net.log) <= net.log
      ensures ActsAs(kind, net.genesis, net.log, |old(net.log)|)
      ensures GoesOn(net.log, |old(net.log)|, checkOnly)
      ensures r.Ok? && !r.value.Failed? ==>
                UnattachedSet(net.db.State()) == old(UnattachedSet(net.db.State()))
      ensures r.Ok? ==> Ready()
      ensures settled == if r.Ok? && IsFinal(r.value) then i + 1 else i
      ensures r.Ok? && IsFinal(r.value) ==> old(net.now) <= net.now
      ensures r.Ok? ==> && r.value == Decision(all) && Aligned(all, old(nonceGroups[settled].txs))
                        && net.told == old(net.told) + all && (r.value.Dropped? ==> !checkOnly)
      ensures r.Ok? ==> if r.value.Dropped?
                        then Resent(old(nonceGroups[settled].View()), nonceGroups[settled].View(), old(net.now),
                            old(net.submitted), net.submitted)
                        else net.submitted == old(net.submitted)
      ensures r.Ok? && r.value.Pending? ==> nonceGroups[settled].View() == old(nonceGroups[settled].View())
      ensures r.Ok? && r.value.Failed? <==> !NoFailure(net.log, |old(net.log)|)
      ensures net.Faults() == if r.Err? && IsFault(r.error) then old(net.Faults()) + 1 else old(net.Faults())
      ensures Grew(old(net.Said()), net.Said())
      ensures r.Ok? && !r.value.Dropped? ==> net.Said() == old(net.Said()) && net.chain.sent == old(net.chain.sent)
      ensures r.Err? && !IsFault(r.error) ==>
                && net.told == old(net.told) + all
                && CheckRefuses(kind, checkOnly, old(nonceGroups[settled].View()), all, r.error, net.chain,
                     net.db.State(), Since(old(net.Said()), net.Said()))
      ensures old(net.lookups) <= net.lookups
      ensures AllHonest(net.lookups[|old(net.lookups)|..]) && net.submitted != old(net.submitted) ==>
                NoneReached(old(nonceGroups[settled].txs), old(net.chain.sent))
    {
      hide ActsAs;
      hide Legal, IsGenesis, Replay, Follows, Views, Verdict, NoFailure, NothingSent, OnlyEnvironment, IsFailure,
        UnattachedSet, Resent, Aligned, Decision, AllHonest, NoneReached, CheckRefuses, GroupRefuses,
        Refused, HonestMeans, ToldDropped, Distinct;
      ghost var log0, now0, group, said := net.log, net.now, nonceGroups[i].View(), net.Said();
      all := [];
      NothingAdded(log0);
      NothingDone(kind, net.genesis, log0);
      hide Ready;
      var checked := Ask(i, checkOnly);
      EnvironmentSendsNothing(net.log, |log0|);
      EnvironmentActsAs(kind, net.genesis, log0, net.log, |log0|);
      if checked.Err? {
        if !IsFault(checked.error) {
          all := net.told[|old(net.told)|..];
          PayerRefuses(kind, checkOnly, group, all, checked.error, net.chain, net.db.State(), Since(said, said));
        }
        return Err(checked.error), all;
      }
      var (state, statuses) := checked.value;
      all := statuses;
      match state {
      case Dropped =>
        ghost var log1, now1 := net.log, net.now;
        assert net.told[|old(net.told)|..] == all;
        HonestlyDropped(net.lookups[|old(net.lookups)|..], all, group.txs, net.chain.sent);
        var err := ResendIfOld(i);
        NoFailureThenNoFailure(log1, net.log, |log0|);
        GoesOnAs(kind, net.genesis, log1, net.log, |log0|);
        if err.Some? {
          if !IsFault(err.value) {
            ResendRefuses(kind, checkOnly, group, all, err.value, net.chain, net.db.State(), Since(said, net.Said()));
          }
          return Err(err.value), all;
        }
        ResentEarlier(group, nonceGroups[i].View(), now0, now1, old(net.submitted), net.submitted);
      case Pending =>
      case _ =>
        ghost var log1 := net.log;
        var ok := FinalizeGroup(i, state, statuses);
        if !ok { return Err(DatabaseError), all; }
        FinalizeSendsNothing(log1, net.log, |log0|);
        FinalizesAs(kind, net.genesis, log1, net.log, |log0|);
        FailureSeen(net.log, |log0|, |log1|);
      }
      return Ok(state), all;
    }

    /**
      Checks the groups in nonce order until one is unresolved.  A failure stops the process at the end
      of the pass: later groups are still finalized, but nothing is sent any more.
      */
    method CheckNonceGroups() returns (err: Option<Error>, ghost heard: seq<seq<TxStatus>>)
      requires Ready() && settled == 0
      modifies this`settled, net, net.db, nonceGroups, net.db.faults
      ensures net.Valid() && old(net.log) <= net.log && QuietAfterFailure(net.log, |old(net.log)|)
      ensures ActsAs(kind, net.genesis, net.log, |old(net.log)|)
      ensures err.None? ==> Ready() && NoFailure(net.log, |old(net.log)|) && settled <= |nonceGroups|
      ensures err.None? ==> UnattachedSet(net.db.State()) == old(UnattachedSet(net.db.State()))
      ensures net.Faults() == old(net.Faults()) + FaultIn(err)
      ensures Grew(old(net.Said()), net.Said())
      ensures FaultIn(err) == 0 ==>
                && net.told == old(net.told) + AllHeard(heard)
                && PassEnds(kind, old(View()), heard, settled, err, net.chain, net.db.State(),
                     Since(old(net.Said()), net.Said()))
      ensures FaultIn(err) == 0 ==> (NoFailure(net.log, |old(net.log)|) <==> !SomeFailed(heard))
      ensures err.None? ==>
                ResendRule(old(View()), View(), heard, settled, old(net.now), old(net.submitted), net.submitted)
      ensures err == Some(TransactionsFailed) ==> net.submitted == old(net.submitted)
      ensures old(net.lookups) <= net.lookups
      ensures AllHonest(net.lookups[|old(net.lookups)|..]) && net.submitted != old(net.submitted) ==>
                StoppedAtUnsent(old(View()), settled, old(net.chain.sent))
    {
      hide Legal, IsGenesis, Replay, Follows, Views, NoFailure, QuietAfterFailure, GoesOn, UnattachedSet, ActsAs,
        Resent, ResendRule, Aligned, Decision, AllHeard, IsPass, SomeFailed, PassSoFar, CheckRefuses, PassEnds,
        NoneReached, AllHonest;
      var failed := 0;
      assert !IsFault(TransactionsFailed);
      hide IsFault, Since, IsFinal, HeardUpTo;
      ghost var log0, v0, now0, said := net.log, View(), net.now, net.Said();
      heard := [];
      NothingAdded(log0);
      NothingDone(kind, net.genesis, log0);
      NothingHeard(v0);
      assert Distinct(nonceGroups) && net.Valid();
      hide Ready;
      for i := 0 to |nonceGroups|
        invariant Ready() && net.Valid() && settled == i == |heard| && log0 <= net.log && now0 <= net.now
        invariant ActsAs(kind, net.genesis, net.log, |log0|)
        invariant QuietAfterFailure(net.log, |log0|) && (failed == 0 <==> NoFailure(net.log, |log0|))
        invariant failed == 0 ==> UnattachedSet(net.db.State()) == old(UnattachedSet(net.db.State()))
        invariant PassSoFar(v0, heard, i) && net.told == old(net.told) + AllHeard(heard)
        invariant (failed == 0 <==> !SomeFailed(heard)) && net.submitted == old(net.submitted)
        invariant forall k :: i <= k < |v0| ==> nonceGroups[k].View() == v0[k]
        invariant net.Said() == said && net.Faults() == old(net.Faults()) && net.chain.sent == old(net.chain.sent)
        invariant old(net.lookups) <= net.lookups
      {
        ghost var log1, now1, lookups1 := net.log, net.now, net.lookups;
        var state;
        ghost var all;
        state, all := CheckGroup(i, failed > 0);
        QuietGoesOn(log1, net.log, |log0|, failed);
        GoesOnAs(kind, net.genesis, log1, net.log, |log0|);
        if state.Err? || state.value.Dropped? { HonestLately(old(net.lookups), lookups1, net.lookups); }
        if state.Err? {
          if !IsFault(state.error) {
            PassStops(kind, v0, heard, all, state.error, net.chain, net.db.State(), Since(said, net.Said()));
            heard := HeardUpTo(heard, all, state.error);
          }
          return Some(state.error), heard;
        }
        HearsMore(v0, heard, i, all);
        heard := heard + [all];
        if state.value.Dropped? {
          ResentEarlier(v0[i], nonceGroups[i].View(), now0, now1, old(net.submitted), net.submitted);
          ResendAllowed(v0, View(), heard, i, now0, old(net.submitted), net.submitted);
          break;
        }
        if state.value.Pending? {
          NothingResent(v0, View(), heard, i, now0, net.submitted);
          break;
        }
        if state.value.Failed? { failed := failed + 1; }
      }
      if settled == |v0| {
        PassIsOver(v0, heard);
        if failed == 0 { NothingResent(v0, View(), heard, settled, now0, net.submitted); }
      }
      PassCompletes(kind, v0, heard, settled, net.chain, net.db.State(), Since(said, net.Said()));
      if failed > 0 { return Some(TransactionsFailed), heard; }
      return None, heard;
    }

    /** Whatever state a crash left behind, the rows of a nonce agree on their group and load as a pipeline. */
    method LoadPending() returns (r: Result<seq<NonceGroup>, Error>)
      requires net.Valid()
      modifies net.db.faults
      ensures net.Valid()
      ensures net.Faults() == if r.Err? then old(net.Faults()) + 1 else old(net.Faults())
      ensures r.Ok? ==> Distinct(r.value) && fresh(r.value) && Follows(Views(r.value), net.db.txs, 0)
      ensures r.Ok? ==> IsGrouping(Views(r.value), net.db.txs)
      ensures r.Err? ==> r.error.DatabaseError?
    {
      hide Legal, IsGenesis, Replay, Follows, Inv, IsGrouping, Conflicting, HashesDistinct, Views;
      LegalInv(net.genesis, net.log);
      NeverConflicting(net.World());
      r := net.db.FetchUnfinishedTransactionsSortedIntoNonceGroups();
      if r.Ok? { LoadedFollows(net.World(), Views(r.value)); }
    }

    /** Loads the pending transactions and checks them once. */
    method InitPayout() returns (err: Option<Error>, ghost loaded: seq<GroupView>, ghost heard: seq<seq<TxStatus>>)
      requires net.Valid() && NoncesRise()
      modifies this, net, net.db, net.db.faults
      ensures net.Valid() && old(net.log) <= net.log && QuietAfterFailure(net.log, |old(net.log)|)
      ensures ActsAs(kind, net.genesis, net.log, |old(net.log)|)
      ensures err.None? ==> Ready() && NoFailure(net.log, |old(net.log)|) && fresh(nonceGroups)
      ensures net.Faults() == old(net.Faults()) + FaultIn(err)
      ensures Grew(old(net.Said()), net.Said())
      ensures FaultIn(err) == 0 ==>
                && IsGrouping(loaded, old(net.db.txs)) && net.told == old(net.told) + AllHeard(heard)
                && PassEnds(kind, loaded, heard, settled, err, net.chain, net.db.State(),
                     Since(old(net.Said()), net.Said()))
      ensures FaultIn(err) == 0 ==> (NoFailure(net.log, |old(net.log)|) <==> !SomeFailed(heard))
      ensures err.None? ==> UnattachedSet(net.db.State()) == old(UnattachedSet(net.db.State()))
      ensures old(net.lookups) <= net.lookups
      ensures AllHonest(net.lookups[|old(net.lookups)|..]) && net.submitted != old(net.submitted) ==>
                StoppedAtUnsent(loaded, settled, old(net.chain.sent))
      ensures err.None? ==> ResendRule(loaded, View(), heard, settled, old(net.now), old(net.submitted), net.submitted)
    {
      hide ActsAs, UnattachedSet;
      hide Legal, IsGenesis, Replay, Follows, Views, NoFailure, QuietAfterFailure, IsGrouping, IsPass, PassEnds,
        AllHeard, ResendRule, SomeFailed, StoppedAtUnsent, AllHonest;
      NothingAdded(net.log);
      NothingDone(kind, net.genesis, net.log);
      loaded, heard := [], [];
      var groups := LoadPending();
      if groups.Err? { return Some(groups.error), loaded, heard; }
      var unstarted := net.db.CountUnfinishedUnattachedPayoutGroup();
      if unstarted.Err? { return Some(unstarted.error), loaded, heard; }
      nonceGroups, settled := groups.value, 0;
      loaded := View();
      err, heard := CheckNonceGroups();
    }

    /** Drops the first group, which is settled. */
    method TrimFirst()
      requires Ready() && |nonceGroups| > 0 && nonceGroups[0].txs == []
      modifies this`nonceGroups, this`settled
      ensures Ready() && settled + 1 == old(settled) && View() == old(View())[1..]
                && nonceGroups == old(nonceGroups)[1..]
    {
      hide Legal, IsGenesis, Replay, Follows, Views;
      ghost var v := View();
      SomethingToTrim(v, net.db.txs, settled);
      TrimmedFollows(v, net.db.txs, settled);
      nonceGroups := nonceGroups[1..];
      settled := settled - 1;
      assert View() == v[1..];
    }

    /** Drops the settled groups, which are always in front. */
    method TrimSettled()
      requires Ready()
      modifies this`nonceGroups, this`settled
      ensures Ready() && settled == 0
      ensures forall g <- nonceGroups :: g in old(nonceGroups)
      ensures View() == old(View())[old(settled)..]
    {
      hide Legal, IsGenesis, Replay, Follows, Views;
      SettledInRange(View(), net.db.txs, settled);
      ghost var v, settled0 := View(), settled;
      hide Ready;
      while |nonceGroups| > 0 && nonceGroups[0].txs == []
        invariant Ready() && forall g <- nonceGroups :: g in old(nonceGroups)
        invariant settled <= settled0 <= |v| && View() == v[settled0 - settled..]
        decreases |nonceGroups|
      {
        TrimFirst();
      }
      AllTrimmed();
    }

    lemma AllTrimmed()
      requires Ready() && (|nonceGroups| > 0 ==> nonceGroups[0].txs != [])
      ensures settled == 0
    {
      hide Legal, IsGenesis, Replay, Follows, Views;
      NothingToTrim(View(), net.db.txs, settled);
    }

    /** Chooses the nonce: after the last group, or from the node if it is not known to be used. */
    method NextNonce() returns (r: Result<nat, Error>)
      requires Ready()
      modifies this`expectedNonce, this`chainNonces, net`numbers, net.db.faults
      ensures Ready() && NoncesRise() && old(chainNonces) <= chainNonces && old(net.numbers) <= net.numbers
      ensures r.Ok? && |nonceGroups| > 0 ==>
                && r.value == nonceGroups[|nonceGroups| - 1].nonce + 1
                && chainNonces == old(chainNonces)
      ensures r.Ok? && |nonceGroups| == 0 ==>
                AcceptsNonce(old(expectedNonce), r.value) && chainNonces == old(chainNonces) + [r.value]
      ensures r.Ok? && |nonceGroups| == 0 ==>
                net.numbers == old(net.numbers) + [r.value] && expectedNonce == r.value + 1
      ensures r.Ok? && |nonceGroups| > 0 ==> net.numbers == old(net.numbers)
      ensures r.Err? ==> && nonceGroups == [] && expectedNonce == old(expectedNonce)
                         && (r.error.NodeError?
                             || (r.error.StaleNonce? && !AcceptsNonce(expectedNonce, r.error.nonce)
                                 && r.error.atLeast == expectedNonce
                                 && net.numbers == old(net.numbers) + [r.error.nonce]))
      ensures net.Faults() == if r.Err? && r.error.NodeError? then old(net.Faults()) + 1 else old(net.Faults())
    {
      hide Legal, IsGenesis, Replay, Follows, Views;
      if |nonceGroups| > 0 { return Ok(nonceGroups[|nonceGroups| - 1].nonce + 1); }
      r := net.AnyNumber();
      if r.Err? { return; }
      if expectedNonce > 0 && r.value < expectedNonce { return Err(StaleNonce(r.value, expectedNonce)); }
      expectedNonce := r.value + 1;
      chainNonces := chainNonces + [r.value];
    }

    /** Attaches one unattached payout group under the next nonce. */
    method AttachGroup(payoutGroup: int) returns (err: Option<Error>)
      requires Ready() && settled == 0 && Unattached(net.db.State(), payoutGroup)
      modifies this, net`log, net`chain, net`now, net`numbers, net`prices, net`fees, net`met, net`submitted, net.db,
          net.db.faults
      ensures net.Valid() && old(net.log) <= net.log && NoFailure(net.log, |old(net.log)|)
      ensures ActsAs(kind, net.genesis, net.log, |old(net.log)|)
      ensures err.None? ==>
                && Ready() && settled == 0 && |nonceGroups| == |old(nonceGroups)| + 1
                && old(nonceGroups) <= nonceGroups
      ensures err.None? ==> IsAttached(old(View()), View(), payoutGroup, old(net.submitted), net.submitted)
      ensures err.None? && old(nonceGroups) == [] ==>
                expectedNonce == View()[0].nonce + 1 && AcceptsNonce(old(expectedNonce), View()[0].nonce)
                && |old(net.numbers)| < |net.numbers| && View()[0].nonce == net.numbers[|old(net.numbers)|]
      ensures net.Faults() == old(net.Faults()) + FaultIn(err)
      ensures Grew(old(net.Said()), net.Said())
      ensures err.Some? && !IsFault(err.value) ==>
                && net.db.State() == old(net.db.State())
                && AttachStops(kind, |old(nonceGroups)|, old(expectedNonce), payoutGroup, err.value, net.chain,
                     net.db.State(), old(net.Said()), net.Said())
      ensures err.None? ==> UnattachedSet(net.db.State()) == old(UnattachedSet(net.db.State())) - {payoutGroup}
      ensures err.None? ==> fresh(nonceGroups[|old(nonceGroups)|])
    {
      hide ActsAs;
      hide Legal, IsGenesis, Replay, Follows, Views, MayUse, InTable, NoFailure, OnlyEnvironment, Unattached,
        UnattachedSet, IsAttached, AcceptsNonce, Affordable, Refused, CanBeSent, DraftedOn, AttachStops, JustMet;
      ghost var log0, v, said := net.log, View(), net.Said();
      NothingAdded(log0);
      NothingDone(kind, net.genesis, log0);
      var killed := net.Interfere();
      EnvironmentIsQuiet(log0, net.log, |log0|);
      EnvironmentActsAs(kind, net.genesis, log0, net.log, |log0|);
      if killed { return Some(Interrupted); }
      ghost var log1, s := net.log, net.World();
      var nonce := NextNonce();
      if nonce.Err? {
        if !nonce.error.NodeError? {
          StaleStops(kind, expectedNonce, payoutGroup, nonce.error, net.chain, net.db.State(), said, net.Said());
        }
        return Some(nonce.error);
      }
      ghost var asked := net.Said();
      MayAttach(kind, s, v, payoutGroup, nonce.value);
      var tx := SendTransaction(kind, net, payoutGroup, nonce.value);
      NoFailureThenNoFailure(log1, net.log, |log0|);
      GoesOnAs(kind, net.genesis, log1, net.log, |log0|);
      if tx.Err? {
        if !IsFault(tx.error) {
          RefusalStops(kind, |v|, old(expectedNonce), payoutGroup, nonce.value, tx.error, net.chain, net.db.State(),
            said, asked, net.Said());
        }
        return Some(tx.error);
      }
      AttachedFollows(v, s.db.txs, tx.value);
      AttachShrinks(s.db, tx.value);
      AppendGroup(tx.value);
      OneAttached(v, View(), tx.value, old(net.submitted), net.submitted);
      return None;
    }

    /** Appends the group of a transaction that was just recorded. */
    method AppendGroup(tx: TxRow)
      requires net.Valid() && Distinct(nonceGroups) && NoncesRise()
      requires Follows(View() + [GroupView(tx.nonce, tx.group, [tx])], net.db.txs, settled)
      modifies this`nonceGroups
      ensures Ready() && View() == old(View()) + [GroupView(tx.nonce, tx.group, [tx])]
      ensures |nonceGroups| == |old(nonceGroups)| + 1 && old(nonceGroups) <= nonceGroups
                && fresh(nonceGroups[|old(nonceGroups)|])
    {
      hide Legal, IsGenesis, Replay, Follows, Views;
      ghost var v := View();
      var group := new NonceGroup(tx.nonce, tx.group, [tx]);
      nonceGroups := nonceGroups + [group];
      assert View() == v + [group.View()];
    }

    /** Groups that are unfinished and not attached. */
    ghost function Left(): nat
      reads this, net, net.db
    {
      |UnattachedSet(net.db.State())|
    }

    /** Attaches one more payout group, if there is any left. */
    method AttachNext() returns (err: Option<Error>, attached: bool)
      requires Ready() && settled == 0
      modifies this, net`log, net`chain, net`now, net`numbers, net`prices, net`fees, net`met, net`submitted, net.db,
          net.db.faults
      ensures net.Valid() && old(net.log) <= net.log && NoFailure(net.log, |old(net.log)|)
      ensures ActsAs(kind, net.genesis, net.log, |old(net.log)|)
      ensures err.None? ==> Ready() && settled == 0 && old(nonceGroups) <= nonceGroups
      ensures err.None? ==> |nonceGroups| == |old(nonceGroups)| + (if attached then 1 else 0)
      ensures err.None? ==> Left() + |nonceGroups| == old(Left()) + |old(nonceGroups)|
      ensures err.None? && attached ==> fresh(nonceGroups[|old(nonceGroups)|])
      ensures err.None? && !attached ==> UnattachedSet(net.db.State()) == {} && old(Left()) == 0
      ensures err.None? ==> IsFilled(old(View()), View(), old(net.submitted), net.submitted)
      ensures net.Faults() == old(net.Faults()) + FaultIn(err)
      ensures Grew(old(net.Said()), net.Said())
      ensures err.Some? && !IsFault(err.value) ==>
                FillStops(kind, |old(nonceGroups)|, old(expectedNonce), err.value, net.chain, net.db.State(),
                  old(net.Said()), net.Said())
    {
      hide Legal, IsGenesis, Replay, Follows, Views, NoFailure, ActsAs, IsFilled, IsAttached, UnattachedSet,
        AttachStops, FillStops, Unattached;
      NothingAdded(net.log);
      NothingDone(kind, net.genesis, net.log);
      NothingFilled(View(), net.submitted);
      assert net.Valid();
      hide Ready;
      ghost var v, submitted := View(), net.submitted;
      var payoutGroup := net.db.FetchFirstUnfinishedUnattachedPayoutGroup();
      if payoutGroup.Err? { return Some(payoutGroup.error), false; }
      if payoutGroup.value.None? { return None, false; }
      err := AttachGroup(payoutGroup.value.value);
      if err.Some? {
        if !IsFault(err.value) {
          AttachingStops(kind, |v|, old(expectedNonce), payoutGroup.value.value, err.value, net.chain, net.db.State(),
            old(net.Said()), net.Said());
        }
        return err, false;
      }
      FilledMore(v, v, View(), payoutGroup.value.value, submitted, submitted, net.submitted);
      attached := true;
    }

    /** Fills the pipeline up to the limit; it stops early only when no group is left to attach. */
    method FillUp() returns (err: Option<Error>, added: bool)
      requires Ready() && settled == 0
      modifies this, net`log, net`chain, net`now, net`numbers, net`prices, net`fees, net`met, net`submitted, net.db,
          net.db.faults
      ensures net.Valid() && old(net.log) <= net.log && NoFailure(net.log, |old(net.log)|)
      ensures ActsAs(kind, net.genesis, net.log, |old(net.log)|)
      ensures err.None? ==> Ready() && settled == 0 && old(nonceGroups) <= nonceGroups
      ensures err.None? ==> forall k :: |old(nonceGroups)| <= k < |nonceGroups| ==> fresh(nonceGroups[k])
      ensures err.None? ==> IsFilled(old(View()), View(), old(net.submitted), net.submitted)
      ensures net.Faults() == old(net.Faults()) + FaultIn(err)
      ensures Grew(old(net.Said()), net.Said())
      ensures err.Some? && !IsFault(err.value) ==>
                FillStops(kind, |old(nonceGroups)|, old(expectedNonce), err.value, net.chain, net.db.State(),
                  old(net.Said()), net.Said())
      ensures err.None? ==> (added <==> |nonceGroups| > |old(nonceGroups)|)
      ensures err.None? ==> Left() + |nonceGroups| == old(Left()) + |old(nonceGroups)|
      ensures err.None? ==> drain || |nonceGroups| >= limit || UnattachedSet(net.db.State()) == {}
      ensures err.None? && (drain || limit <= 0) ==> nonceGroups == old(nonceGroups)
      ensures err.None? && !drain && limit >= 0 ==> |nonceGroups| == Filled(|old(nonceGroups)|, old(Left()), limit)
    {
      hide Legal, IsGenesis, Replay, Follows, Views, NoFailure, ActsAs, UnattachedSet, IsFilled, Left, FillStops;
      NothingAdded(net.log);
      NothingDone(kind, net.genesis, net.log);
      NothingFilled(View(), net.submitted);
      ghost var log0 := net.log;
      added := false;
      assert net.Valid();
      hide Ready;
      while |nonceGroups| < limit && !drain
        invariant Ready() && net.Valid() && settled == 0 && log0 <= net.log && NoFailure(net.log, |log0|)
        invariant old(nonceGroups) <= nonceGroups
        invariant forall k :: |old(nonceGroups)| <= k < |nonceGroups| ==> fresh(nonceGroups[k])
        invariant |nonceGroups| <= limit || nonceGroups == old(nonceGroups)
        invariant ActsAs(kind, net.genesis, net.log, |log0|)
        invariant drain || limit <= 0 ==> nonceGroups == old(nonceGroups)
        invariant IsFilled(old(View()), View(), old(net.submitted), net.submitted)
        invariant added <==> |nonceGroups| > |old(nonceGroups)|
        invariant net.Faults() == old(net.Faults()) && Grew(old(net.Said()), net.Said())
        invariant !added ==> expectedNonce == old(expectedNonce) && net.Said() == old(net.Said())
        invariant Left() + |nonceGroups| == old(Left()) + |old(nonceGroups)|
        decreases limit - |nonceGroups|
      {
        ghost var log1, v1, submitted1, expected1, said1 := net.log, View(), net.submitted, expectedNonce, net.Said();
        var attached;
        err, attached := AttachNext();
        NoFailureThenNoFailure(log1, net.log, |log0|);
        GoesOnAs(kind, net.genesis, log1, net.log, |log0|);
        if err.Some? {
          if !IsFault(err.value) && added {
            StopsLater(kind, |old(nonceGroups)|, old(expectedNonce), |v1|, expected1, err.value, net.chain,
              net.db.State(), old(net.Said()), said1, net.Said());
          }
          return;
        }
        FilledOn(old(View()), v1, View(), old(net.submitted), submitted1, net.submitted);
        if !attached { break; }
        added := true;
      }
      err := None;
    }

    method TrimAndFill() returns (err: Option<Error>, added: bool)
      requires Ready()
      modifies this, net`log, net`chain, net`now, net`numbers, net`prices, net`fees, net`met, net`submitted, net.db,
          net.db.faults
      ensures net.Valid() && old(net.log) <= net.log && NoFailure(net.log, |old(net.log)|)
      ensures ActsAs(kind, net.genesis, net.log, |old(net.log)|)
      ensures err.None? ==> Ready() && settled == 0 && old(settled) <= |old(View())|
      ensures err.None? ==> IsFilled(old(View())[old(settled)..], View(), old(net.submitted), net.submitted)
      ensures err.None? ==> (added <==> |nonceGroups| > old(Pending()))
      ensures net.Faults() == old(net.Faults()) + FaultIn(err)
      ensures Grew(old(net.Said()), net.Said())
      ensures err.Some? && !IsFault(err.value) ==>
                FillStops(kind, old(Pending()), old(expectedNonce), err.value, net.chain, net.db.State(),
                  old(net.Said()), net.Said())
      ensures err.None? ==> OnlyNew(old(nonceGroups), nonceGroups)
      ensures err.None? ==> Left() + |nonceGroups| == old(Left()) + old(Pending())
      ensures err.None? ==> drain || |nonceGroups| >= limit || UnattachedSet(net.db.State()) == {}
      ensures err.None? && (drain || limit <= 0) ==> |nonceGroups| == old(Pending())
      ensures err.None? && !drain && limit >= 0 ==> |nonceGroups| == Filled(old(Pending()), old(Left()), limit)
    {
      hide Legal, IsGenesis, Replay, Follows, Views, NoFailure, UnattachedSet, Filled, IsFilled, ActsAs, FillStops;
      SettledInRange(View(), net.db.txs, settled);
      ghost var v, groups := View(), nonceGroups;
      hide Ready;
      TrimSettled();
      hide Left;
      assert |nonceGroups| == |View()| == |v| - old(settled);
      err, added := FillUp();
    }

    /** The second half of a step: report the progress, and check the groups. */
    method ReportAndCheck(added: bool) returns (err: Option<Error>, ghost step: StepTrace)
      requires Ready() && settled == 0
      modifies this`settled, net, net.db, nonceGroups, net.db.faults
      ensures net.Valid() && old(net.log) <= net.log && QuietAfterFailure(net.log, |old(net.log)|)
      ensures ActsAs(kind, net.genesis, net.log, |old(net.log)|)
      ensures err.None? ==> Ready() && settled <= |nonceGroups|
      ensures err.None? || !step.checked ==> NoFailure(net.log, |old(net.log)|)
      ensures err.None? ==> UnattachedSet(net.db.State()) == old(UnattachedSet(net.db.State()))
      ensures net.Faults() == old(net.Faults()) + FaultIn(err)
      ensures step == StepTrace(step.checked, old(View()), step.heard, old(net.now), old(net.Said()),
                old(net.submitted))
      ensures err.None? ==> ResendRule(old(View()), View(), step.heard, settled, old(net.now), old(net.submitted),
                net.submitted)
      ensures FaultIn(err) == 0 ==> step.checked
      ensures FaultIn(err) == 0 ==>
                StepEnds(kind, step, settled, err, old(net.told), net.told, net.chain, net.db.State(), net.Said(),
                  NoFailure(net.log, |old(net.log)|))
    {
      NothingAdded(net.log);
      NothingDone(kind, net.genesis, net.log);
      assert net.Valid();
      hide Legal, IsGenesis, Replay, Follows, Views, NoFailure, QuietAfterFailure, UnattachedSet, ActsAs, IsPass, Ready,
        SomeFailed, AllHeard, ResendRule, PassEnds, StoppedAtUnsent, AllHonest, Since, Grew;
      ghost var filled, since, said, submitted, told := View(), net.now, net.Said(), net.submitted, net.told;
      step := StepTrace(false, filled, [], since, said, submitted);
      if added {
        var progress := net.db.FetchPayoutProgress();
        if progress.Err? { return Some(progress.error), step; }
      }
      ghost var heard := [];
      assert View() == filled && net.Said() == said && net.told == told;
      err, heard := CheckNonceGroups();
      step := StepTrace(true, filled, heard, since, said, submitted);
    }

    /** One step: trim, fill up, check.  Done without an error means that nothing is pending. */
    method PayoutStep() returns (done: bool, err: Option<Error>, ghost step: StepTrace)
      requires Ready()
      modifies this, net, net.db, nonceGroups, net.db.faults
      ensures net.Valid() && old(net.log) <= net.log && QuietAfterFailure(net.log, |old(net.log)|)
      ensures ActsAs(kind, net.genesis, net.log, |old(net.log)|)
      ensures err.Some? ==> done
      ensures err.None? ==> Ready() && NoFailure(net.log, |old(net.log)|)
      ensures err.None? ==> OnlyNew(old(nonceGroups), nonceGroups)
      ensures !done ==>
                && |step.filled| > 0
                && ResendRule(step.filled, View(), step.heard, settled, step.since, step.submitted, net.submitted)
      ensures net.Faults() == old(net.Faults()) + FaultIn(err)
      ensures !step.checked ==> NoFailure(net.log, |old(net.log)|)
      ensures !step.checked && err.Some? && !IsFault(err.value) ==>
                FillStops(kind, old(Pending()), old(expectedNonce), err.value, net.chain, net.db.State(),
                  old(net.Said()), net.Said())
      ensures step.checked && FaultIn(err) == 0 ==>
                && old(settled) <= |old(View())|
                && IsFilled(old(View())[old(settled)..], step.filled, old(net.submitted), step.submitted)
                && StepEnds(kind, step, settled, err, old(net.told), net.told, net.chain, net.db.State(), net.Said(),
                     NoFailure(net.log, |old(net.log)|))
      ensures err.None? && (drain || limit <= 0) ==>
                Left() == old(Left())
      ensures done && err.None? ==> !AnyInFlight(net.db.txs)
      ensures done && err.None? && !drain && limit > 0 ==>
                AllFinished(net.db.State()) && old(Pending()) == 0 && old(UnattachedSet(net.db.State())) == {}
      ensures !done && !drain && limit > 0 ==>
                var r := StepRecord(old(Pending()), old(Left()), |nonceGroups|, settled);
                IsStep(r, limit) && Pending() == PendingAfter(r) && Left() == UnattachedAfter(r)
    {
      hide Legal, IsGenesis, Replay, Follows, Views, NoFailure, QuietAfterFailure, UnattachedSet, IsFailure,
        AnyInFlight, AllFinished, Filled, ActsAs, IsFilled, IsPass, PassEnds, SomeFailed, StoppedAtUnsent, AllHonest,
        FillStops, Grew, Since, StepEnds, AllHeard, ResendRule;
      ghost var log0 := net.log;
      step := StepTrace(false, [], [], 0, net.Said(), []);
      var added: bool;
      err, added := TrimAndFill();
      NoFailureIsQuiet(net.log, |log0|);
      if err.Some? { return true, err, step; }
      if |nonceGroups| == 0 {
        EmptyFollows(View(), net.db.txs);
        if !drain && limit > 0 {
          FilledZero(old(Pending()), old(UnattachedSet(net.db.State())), limit);
          NothingLeft(net.db.State());
        }
        return true, None, step;
      }
      assert net.Valid();
      hide Ready;
      ghost var log1 := net.log;
      assert forall k :: 0 <= k < |nonceGroups| ==> nonceGroups[k] in old(nonceGroups) || fresh(nonceGroups[k]);
      err, step := ReportAndCheck(added);
      LogGoesOn(kind, net.genesis, log0, log1, net.log);
      done := err.Some?;
    }

    /** Waits for the next step. */
    method Poll() returns (killed: bool)
      requires Ready()
      modifies net`log, net`chain, net`now, net.db.faults
      ensures Ready() && net.Valid() && old(net.log) <= net.log && OnlyEnvironment(net.log, |old(net.log)|)
      ensures net.Faults() == if killed then old(net.Faults()) + 1 else old(net.Faults())
    {
      hide Legal, IsGenesis, Replay, Follows, Views;
      killed := net.Interfere();
    }

    /**
      Runs steps until done or until an error, but not beyond `steps` polls: not ended means that the
      process is still running then.  The records list the unfinished steps.
      */
    method RunSteps(steps: nat) returns (ended: bool, err: Option<Error>, ghost records: seq<StepRecord>)
      requires Ready()
      modifies this, net, net.db, nonceGroups, net.db.faults
      ensures net.Valid() && old(net.log) <= net.log && QuietAfterFailure(net.log, |old(net.log)|)
      ensures ActsAs(kind, net.genesis, net.log, |old(net.log)|)
      ensures net.Faults() == old(net.Faults()) + FaultIn(err)
      ensures FaultIn(err) == 0 ==> FailureStops(NoFailure(net.log, |old(net.log)|), err)
      ensures !ended ==> err.None? && |records| == steps
      ensures ended && err.None? ==> !AnyInFlight(net.db.txs) && (!drain && limit > 0 ==> AllFinished(net.db.State()))
      ensures ended && err.None? && (drain || limit <= 0) ==>
                Left() == old(Left())
      ensures !drain && limit > 0 ==> IsRun(records, old(Pending()), old(Left()), limit)
      ensures ended && err.None? && !drain && limit > 0 ==>
                && RunPending(records, old(Pending())) == 0
                && RunUnattached(records, old(Left())) == 0
    {
      hide Legal, IsGenesis, Replay, Follows, Views, NoFailure, QuietAfterFailure, IsFailure, AnyInFlight, AllFinished,
        OnlyEnvironment, UnattachedSet, IsStep, IsRun, RunPending, RunUnattached, PendingAfter, UnattachedAfter, ActsAs,
        IsFilled, ResendRule, StepEnds, FillStops;
      ghost var log0, pending0, unattached0 := net.log, Pending(), Left();
      NothingAdded(log0);
      NothingDone(kind, net.genesis, log0);
      records, err := [], None;
      NoStepsYet(pending0, unattached0, limit);
      hide Ready, Left;
      for k := 0 to steps
        invariant Ready() && net.Valid() && log0 <= net.log && NoFailure(net.log, |log0|)
        invariant ActsAs(kind, net.genesis, net.log, |log0|) && |records| == k && err.None?
        invariant net.Faults() == old(net.Faults())
        invariant forall k :: 0 <= k < |nonceGroups| ==> nonceGroups[k] in old(nonceGroups) || fresh(nonceGroups[k])
        invariant drain || limit <= 0 ==> Left() == old(Left())
        invariant !drain && limit > 0 ==>
                    && IsRun(records, pending0, unattached0, limit)
                    && Pending() == RunPending(records, pending0)
                    && Left() == RunUnattached(records, unattached0)
      {
        ghost var log1, groups := net.log, nonceGroups;
        ghost var pending1, unattached1 := Pending(), Left();
        var done: bool;
        ghost var step;
        ghost var expected1, told1, said1 := expectedNonce, net.told, net.Said();
        done, err, step := PayoutStep();
        NoFailureThenQuiet(log1, net.log, |log0|);
        GoesOnAs(kind, net.genesis, log1, net.log, |log0|);
        if done {
          if FaultIn(err) == 0 && step.checked {
            StepFailureStops(kind, step, settled, err, told1, net.told, net.chain, net.db.State(), net.Said(),
              NoFailure(net.log, |log1|));
          } else if FaultIn(err) == 0 && err.Some? {
            FillNeverFails(kind, pending1, expected1, err.value, net.chain, net.db.State(), said1, net.Said());
          }
          return true, err, records;
        }
        ghost var r := StepRecord(pending1, unattached1, |nonceGroups|, settled);
        if !drain && limit > 0 { RunExtends(records, pending0, unattached0, limit, r); }
        records := records + [r];
        assert forall g <- groups :: g in old(nonceGroups) || fresh(g);
        ghost var log2 := net.log;
        var killed := Poll();
        EnvironmentIsQuiet(log2, net.log, |log0|);
        EnvironmentActsAs(kind, net.genesis, log2, net.log, |log0|);
        if killed {
          NoFailureIsQuiet(net.log, |log0|);
          return true, Some(Interrupted), records;
        }
      }
      NoFailureIsQuiet(net.log, |log0|);
      ended := false;
    }

    /** One process from its start to its end, after `steps` polls at the latest. */
    method ProcessPayouts(steps: nat) returns (err: Option<Error>)
      requires net.Valid() && NoncesRise()
      modifies this, net, net.db, net.db.faults
      ensures net.Valid() && old(net.log) <= net.log && QuietAfterFailure(net.log, |old(net.log)|)
      ensures ActsAs(kind, net.genesis, net.log, |old(net.log)|)
      ensures net.Faults() == old(net.Faults()) + FaultIn(err)
      ensures FaultIn(err) == 0 ==> FailureStops(NoFailure(net.log, |old(net.log)|), err)
      ensures err.None? ==> !AnyInFlight(net.db.txs) && (!drain && limit > 0 ==> AllFinished(net.db.State()))
      ensures err.None? && (drain || limit <= 0) ==>
                (AllFinished(net.db.State()) <==> old(UnattachedSet(net.db.State())) == {})
    {
      hide Legal, IsGenesis, Replay, Follows, Views, NoFailure, QuietAfterFailure, AnyInFlight, AllFinished,
        UnattachedSet, IsRun, ActsAs, PassEnds, SomeFailed, IsGrouping, ResendRule, IsPass, StoppedAtUnsent, AllHonest;
      ghost var log0 := net.log;
      ghost var loaded, heard;
      err, loaded, heard := InitPayout();
      if FaultIn(err) == 0 {
        PassFailureStops(kind, loaded, heard, settled, err, net.chain, net.db.State(),
          Since(old(net.Said()), net.Said()));
      }
      if err.Some? { return; }
      ghost var log1 := net.log;
      ghost var records;
      var ended;
      ended, err, records := RunSteps(steps);
      NoFailureThenQuiet(log1, net.log, |log0|);
      GoesOnAs(kind, net.genesis, log1, net.log, |log0|);
      if !ended {
        net.Die();
        return Some(Interrupted);
      }
      if err.None? { NothingLeft(net.db.State()); }
    }
  }

  lemma NoStepsYet(pending: nat, n: nat, limit: int)
    ensures limit >= 0 ==> IsRun([], pending, n, limit)
    ensures RunPending([], pending) == pending && RunUnattached([], n) == n
  {}

  lemma SettledInRange(v: seq<GroupView>, txs: seq<TxRow>, settled: nat)
    requires Follows(v, txs, settled)
    ensures settled <= |v|
  {}

  lemma SomethingToTrim(v: seq<GroupView>, txs: seq<TxRow>, settled: nat)
    requires Follows(v, txs, settled) && |v| > 0 && v[0].txs == []
    ensures settled > 0
  {
    if settled == 0 { FirstIsHeld(v, txs, 0); }
  }

  lemma NothingToTrim(v: seq<GroupView>, txs: seq<TxRow>, settled: nat)
    requires Follows(v, txs, settled) && (|v| > 0 ==> v[0].txs != [])
    ensures settled == 0
  {}

  lemma EmptyFollows(v: seq<GroupView>, txs: seq<TxRow>)
    requires Follows(v, txs, 0) && v == []
    ensures !AnyInFlight(txs)
  {
    hide IsPipelineOf;
    assert v[0..] == v;
    EmptyPipeline(v, txs);
  }

  lemma NoFailureThenNoFailure(a: seq<Event>, b: seq<Event>, from: nat)
    requires a <= b && from <= |a| && NoFailure(a, from) && NoFailure(b, |a|)
    ensures NoFailure(b, from) && QuietAfterFailure(b, from)
  {
    NoFailureIsQuiet(b, |a|);
    NoFailureThenQuiet(a, b, from);
  }
}
