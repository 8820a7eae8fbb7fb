/** Short histories, step by step, that end where a promise of the program fails. */
module Histories {
  import opened Wrappers
  import opened Money
  import opened Tables
  import opened Protocol
  import opened Safety
  import opened Nonces
  import opened Network
  import opened Conduct
  import opened Settling
  import opened Recovery
  import opened Help
  import opened Stuck
  import Ledger

  const USD := Decimal(1, 0)
  /** At this price, and with eight decimals, one USD is one token unit. */
  const PRICE := Decimal(1, 8)
  const OWNER: Address := 5

  function Payee(group: int): Address
    requires group > 0
  {
    group + 10
  }

  function ThreePayouts(): seq<Payout> {
    [Payout(2, Payee(1), USD, 1), Payout(3, Payee(2), USD, 2), Payout(4, Payee(3), USD, 3)]
  }

  /** Three groups to pay one unit each, from an account that holds ten. */
  function Start(): State {
    State(Tables(ThreePayouts(), map[1 := None, 2 := None, 3 := None], []),
          Chain(OWNER, OWNER, 8, 0, {}, map[], Ledger.Ledger(map[OWNER := 10], map[], 10, 0, OWNER, 0, 0, 10)),
          0)
  }

  function Row(nonce: nat, group: int): TxRow
    requires group > 0
  {
    TxRow(HashOf(TxBody(nonce, Payee(group), 1, 0)), nonce, group, PRICE, 1, 0, Pending, None)
  }

  function Verdict(row: TxRow): Event {
    Finalize(row.nonce, row.group, [TxStatus(row.hash, Confirmed, Some(Receipt(row.hash, true)))], 0)
  }

  /** A batch of two, attached under the nonces 0 and 1 and confirmed. */
  function Batch(): seq<Event> {
    var a, b := Row(0, 1), Row(1, 2);
    [Create(a), Broadcast(a.hash), Create(b), Broadcast(b.hash), Mine(a.hash, true), Mine(b.hash, true), Verdict(a),
        Verdict(b)]
  }

  lemma StartIsGenesis()
    ensures IsGenesis(Start())
  {
    var empty: map<Address, nat> := map[];
    Ledger.TotalUpdate(empty, OWNER, 10);
    assert empty[OWNER := 10] == map[OWNER := 10];
  }

  lemma OnePayoutEach(group: int)
    requires 1 <= group <= 3
    ensures PayoutsOf(ThreePayouts(), group) == [Payout(group + 1, Payee(group), USD, group)]
  {
    var p := ThreePayouts();
    assert p[..3] == p && p[..2][..1] == p[..1] && p[..2] == p[..1] + [p[1]] && p == p[..2] + [p[2]];
    assert p[..1][..0] == [];
    assert PayoutsOf(p[..1], group) == if group == 1 then [p[0]] else [];
    assert PayoutsOf(p[..2], group) == if group == 1 then [p[0]] else if group == 2 then [p[1]] else [];
  }

  lemma OneUnitEach()
    ensures FromUSD(USD, PRICE, 8) == Some(1)
  {
    assert PowerOfTen(0) == 1;
  }

  lemma RowPays(s: State, nonce: nat, group: int)
    requires s.db.payouts == ThreePayouts() && s.chain.decimals == 8 && 1 <= group <= 3
    ensures RowPaysPayout(s, Row(nonce, group))
  {
    OnePayoutEach(group);
    OneUnitEach();
  }

  lemma Next(log: seq<Event>, s: State, e: Event)
    requires Legal(Start(), log) && Replay(Start(), log) == s && Enabled(s, e)
    ensures Legal(Start(), log + [e]) && Replay(Start(), log + [e]) == Apply(s, e)
  {
    hide Legal, Replay, Enabled, Apply;
    LogGrows(Start(), log, e);
  }

  lemma Began()
    ensures Legal(Start(), []) && Replay(Start(), []) == Start()
  {}

  /** The next row of the batch can be recorded: right above the last one, for a group not yet attached. */
  lemma CanAdd(s: State, nonce: nat, group: int)
    requires s.db.payouts == ThreePayouts() && s.chain.decimals == 8 && 1 <= group <= 3 && s.now == 0
    requires Unfinished(s.db, group) && !InTable(s.db.txs, Row(nonce, group).hash) && IsAttach(s, group, nonce)
    ensures Enabled(s, Create(Row(nonce, group)))
  {
    hide RowPaysPayout, InTable, IsAttach;
    RowPays(s, nonce, group);
  }

  lemma RecordAndSend(log: seq<Event>, s: State, nonce: nat, group: int)
    requires group > 0 && Legal(Start(), log) && s == Replay(Start(), log) && Enabled(s, Create(Row(nonce, group)))
    ensures var row := Row(nonce, group);
            var log' := log + [Create(row), Broadcast(row.hash)];
            && Legal(Start(), log')
            && Replay(Start(), log') == s.(db := s.db.(txs := s.db.txs + [row]),
                                           chain := s.chain.(sent := s.chain.sent + {row.hash}))
  {
    hide Legal, Replay, CanCreate;
    var row := Row(nonce, group);
    Next(log, s, Create(row));
    var s1 := Apply(s, Create(row));
    assert s1.db.txs[|s.db.txs|] == row;
    Next(log + [Create(row)], s1, Broadcast(row.hash));
    assert log + [Create(row)] + [Broadcast(row.hash)] == log + [Create(row), Broadcast(row.hash)];
  }

  lemma FirstTwo() returns (s: State)
    ensures var log := Batch()[..4]; Legal(Start(), log) && s == Replay(Start(), log)
    ensures s == Start().(db := Start().db.(txs := [Row(0, 1), Row(1, 2)]),
                          chain := Start().chain.(sent := {Row(0, 1).hash, Row(1, 2).hash}))
  {
    hide Legal, Replay, ThreePayouts, Enabled;
    var a, b := Row(0, 1), Row(1, 2);
    Began();
    CanAdd(Start(), 0, 1);
    RecordAndSend([], Start(), 0, 1);
    var log2 := [] + [Create(a), Broadcast(a.hash)];
    var s2 := Replay(Start(), log2);
    assert s2.db.txs == [a] && s2.db.txs[0] == a;
    CanAdd(s2, 1, 2);
    RecordAndSend(log2, s2, 1, 2);
    s := Replay(Start(), log2 + [Create(b), Broadcast(b.hash)]);
    assert log2 + [Create(b), Broadcast(b.hash)] == Batch()[..4];
    assert s2.db.txs + [b] == [a, b];
  }

  /** Both transfers go through. */
  lemma BothMined() returns (s: State)
    ensures var log := Batch()[..6]; Legal(Start(), log) && s == Replay(Start(), log)
    ensures s.db == Start().db.(txs := [Row(0, 1), Row(1, 2)]) && s.now == 0
    ensures s.chain.next == 2 && s.chain.decimals == 8
    ensures s.chain.mined == map[0 := Receipt(Row(0, 1).hash, true), 1 := Receipt(Row(1, 2).hash, true)]
  {
    hide Legal, Replay, ThreePayouts;
    var a, b := Row(0, 1), Row(1, 2);
    var s4 := FirstTwo();
    Next(Batch()[..4], s4, Mine(a.hash, true));
    var s5 := Apply(s4, Mine(a.hash, true));
    assert Batch()[..4] + [Mine(a.hash, true)] == Batch()[..5];
    Next(Batch()[..5], s5, Mine(b.hash, true));
    s := Apply(s5, Mine(b.hash, true));
    assert Batch()[..5] + [Mine(b.hash, true)] == Batch()[..6];
  }

  function Settled(row: TxRow): TxRow {
    row.(state := Confirmed, receipt := Some(Receipt(row.hash, true)))
  }

  /** Confirming one row of the table, the lowest pending one. */
  lemma ConfirmOne(s: State, row: TxRow, before: seq<TxRow>, after: seq<TxRow>)
    requires s.db.txs == before + [row] + after && row.state.Pending? && row.nonce in s.chain.mined
    requires s.chain.mined[row.nonce] == Receipt(row.hash, true)
    requires forall r <- before :: !r.state.Pending? && r.hash != row.hash
    requires forall r <- after :: r.state.Pending? && r.nonce > row.nonce && r.hash != row.hash
    requires row.group in s.db.finals
    ensures Enabled(s, Verdict(row))
    ensures Apply(s, Verdict(row)) == s.(db := s.db.(txs := before + [Settled(row)] + after,
                                                     finals := s.db.finals[row.group := Some(row.hash)]))
  {
    var txs, w := s.db.txs, |before|;
    var status := TxStatus(row.hash, Confirmed, Some(Receipt(row.hash, true)));
    forall i | 0 <= i < |txs|
      ensures if i < w then txs[i] in before else if i == w then txs[i] == row else txs[i] in after
    {}
    assert [status][0].hash == row.hash;
    assert CoversNonce(s.db, row.nonce, [status]);
    assert OneWinner([status], 0, s.chain.mined[row.nonce]);
    assert [status][..0] == [];
    assert ApplyStatuses(s.db, row.group, [status]) == ApplyStatus(s.db, row.group, status);
    assert SetStatus(txs, status) == before + [Settled(row)] + after;
  }

  /** The batch is done: two groups finished, nothing pending, the account's next nonce is 2. */
  lemma BatchConfirmed() returns (s: State)
    ensures Legal(Start(), Batch()) && s == Replay(Start(), Batch())
    ensures s.db == Tables(ThreePayouts(), map[1 := Some(Row(0, 1).hash), 2 := Some(Row(1, 2).hash), 3 := None],
                           [Settled(Row(0, 1)), Settled(Row(1, 2))])
    ensures s.now == 0 && s.chain.next == 2 && s.chain.decimals == 8
  {
    hide Legal, Replay, ThreePayouts, Enabled, Apply;
    var a, b := Row(0, 1), Row(1, 2);
    var s6 := BothMined();
    assert s6.db.txs == [] + [a] + [b];
    ConfirmOne(s6, a, [], [b]);
    Next(Batch()[..6], s6, Verdict(a));
    var s7 := Apply(s6, Verdict(a));
    assert Batch()[..6] + [Verdict(a)] == Batch()[..7];
    assert s7.db.txs == [Settled(a)] + [b] + [];
    ConfirmOne(s7, b, [Settled(a)], []);
    Next(Batch()[..7], s7, Verdict(b));
    s := Apply(s7, Verdict(b));
    assert s.db.txs == [Settled(a), Settled(b)];
    assert Batch()[..7] + [Verdict(b)] == Batch();
  }

  /** After the batch the third group can be recorded under any nonce the guard lets through. */
  lemma ThirdGroup(nonce: nat) returns (s: State)
    requires nonce < 2
    ensures Legal(Start(), Batch()) && s == Replay(Start(), Batch()) && s.chain.next == 2 && |s.db.txs| == 2
    ensures !AnyInFlight(s.db.txs) && Enabled(s, Create(Row(nonce, 3)))
  {
    hide Legal, Replay, ThreePayouts;
    s := BatchConfirmed();
    assert !InTable(s.db.txs, Row(nonce, 3).hash);
    CanAdd(s, nonce, 3);
  }

  /**
    In a running process, which expects 1 after a batch that began at nonce 0: a node that still answers 1
    is believed, and the third payee's row stays pending for ever.
    */
  lemma StuckInARunningProcess()
    ensures var log := Batch() + [Create(Row(1, 3))];
            && IsGenesis(Start()) && Legal(Start(), log)
            && AcceptsNonce(Row(0, 1).nonce + 1, 1) && StaysPending(Start(), log, 2)
  {
    hide IsGenesis, Legal, Replay, StaysPending, AnyInFlight, Enabled, Row;
    StartIsGenesis();
    var s := ThirdGroup(1);
    RowAt(0, 1);
    RowAt(1, 3);
    NonceDecides(Start(), Batch(), Row(1, 3));
    StaleAnswerSlipsThrough(Start(), Batch(), 1, Row(1, 3));
  }

  /** After a restart, which expects nothing: even the first nonce of the batch is believed. */
  lemma StuckAfterARestart()
    ensures var log := Batch() + [Create(Row(0, 3))];
            && IsGenesis(Start()) && Legal(Start(), log)
            && AcceptsNonce(0, 0) && StaysPending(Start(), log, 2)
  {
    hide IsGenesis, Legal, Replay, StaysPending, AnyInFlight, Enabled, Row;
    StartIsGenesis();
    var s := ThirdGroup(0);
    RowAt(0, 3);
    NonceDecides(Start(), Batch(), Row(0, 3));
    StaleAnswerSlipsThrough(Start(), Batch(), 0, Row(0, 3));
  }

  lemma RowAt(nonce: nat, group: int)
    requires group > 0
    ensures Row(nonce, group).nonce == nonce && Row(nonce, group).group == group
  {}

  /** One row recorded, and the process dies. */
  lemma Crashed()
    ensures IsGenesis(Start()) && Legal(Start(), [Create(Row(0, 1))]) && Enabled(Start(), Create(Row(0, 1)))
    ensures Replay(Start(), [Create(Row(0, 1))]) == Start().(db := Start().db.(txs := [Row(0, 1)]))
    ensures IsAttach(Start(), 1, 0)
  {
    hide Legal, Replay, ThreePayouts;
    StartIsGenesis();
    Began();
    CanAdd(Start(), 0, 1);
    Next([], Start(), Create(Row(0, 1)));
    assert [] + [Create(Row(0, 1))] == [Create(Row(0, 1))];
    assert Start().db.txs + [Row(0, 1)] == [Row(0, 1)];
  }

  /** Killed between recording and sending, a zkSync Era payout of this table never finishes. */
  lemma StuckAfterACrash(log: seq<Event>)
    requires [Create(Row(0, 1))] <= log && Legal(Start(), log) && ActsAs(ZkSyncEra, Start(), log, 1)
    ensures IsGenesis(Start()) && Legal(Start(), [Create(Row(0, 1))])
              && ActsAs(ZkSyncEra, Start(), [Create(Row(0, 1))], 0)
    ensures AnyInFlight(Replay(Start(), log).db.txs) && Unfinished(Replay(Start(), log).db, 1)
  {
    hide Legal, Replay, ActsAs, IsGenesis, Enabled, IsAttach, Row;
    Crashed();
    RowAt(0, 1);
    Began();
    NothingDone(ZkSyncEra, Start(), []);
    assert [] + [Create(Row(0, 1))] == [Create(Row(0, 1))];
    CrashBeforeSend(Start(), [], Row(0, 1), log);
    assert log[..1] == [Create(Row(0, 1))];
    RowsSettleOnce(Start(), log, 1, 0);
    LegalInv(Start(), log);
    PendingIsUnfinished(Replay(Start(), log), 0);
  }

  lemma PendingIsUnfinished(s: State, i: nat)
    requires Inv(s) && IsPending(s, i)
    ensures AnyInFlight(s.db.txs) && Unfinished(s.db, s.db.txs[i].group)
  {
    hide RowsInv, TruthInv, FinalsInv, ContiguousInv, ChainInv, DroppedInv, SpacedInv;
  }

  /** Thirty seconds after that crash the row may be sent again, but not at the same price and fees. */
  lemma RefusedResend()
    ensures var log := [Create(Row(0, 1)), Tick(NOT_DROPPED_UNTIL)];
            var s := Replay(Start(), log);
            var again := Row(0, 1).(createdAt := Truncate(s.now));
            && IsGenesis(Start()) && Legal(Start(), log)
            && IsResend(s, 1, 0) && RowPaysPayout(s, again) && !CanCreate(s, again)
  {
    hide Legal, Replay, IsGenesis, IsResend, RowPaysPayout, CanCreate, ThreePayouts, Inv, PaysInv;
    Crashed();
    var log1 := [Create(Row(0, 1))];
    var s1 := Replay(Start(), log1);
    LegalInv(Start(), log1);
    LegalPays(Start(), log1);
    assert s1.db.txs[0] == Row(0, 1);
    SameTermsAreRefused(s1, 0);
    Next(log1, s1, Tick(NOT_DROPPED_UNTIL));
    assert log1 + [Tick(NOT_DROPPED_UNTIL)] == [Create(Row(0, 1)), Tick(NOT_DROPPED_UNTIL)];
  }

  // ---------------------------------------------------------------- an owner without tokens

  /** The owner burns all the tokens there are. */
  function BurntOut(): seq<Event> {
    [Create(Row(0, 1)), External(OWNER, Ledger.Burn(10))]
  }

  lemma Burns()
    ensures IsGenesis(Start()) && Legal(Start(), BurntOut())
    ensures var s := Replay(Start(), BurntOut());
            s.db.txs == [Row(0, 1)] && s.chain.sent == {} && s.chain.next == 0 && s.chain.ledger.supply == 0
  {
    hide Legal, Replay, ThreePayouts;
    Crashed();
    var log1, e := [Create(Row(0, 1))], External(OWNER, Ledger.Burn(10));
    Next(log1, Replay(Start(), log1), e);
    assert log1 + [e] == BurntOut();
  }

  /**
    A row was recorded and not sent, and then no token is left: no Ethereum process that is told the true
    balance ever sends it again, whatever the price and whoever would help, and it stays pending.
    */
  lemma StuckWithoutTokens()
    ensures IsGenesis(Start()) && Legal(Start(), BurntOut()) && IsPending(Replay(Start(), BurntOut()), 0)
    ensures !CanBeSettledWithHelp(Start(), BurntOut(), 0)
    ensures forall quote :: !CanBeSettled(Eth, quote, Start(), BurntOut(), 0)
  {
    hide Legal, Replay, IsGenesis, CanBeSettledWithHelp, CanBeSettled, Open;
    Burns();
    var s := Replay(Start(), BurntOut());
    assert s.db.txs[0] == Row(0, 1);
    assert Unsent(s, 0) && InFlight(s.db.txs, 0);
    WithHelpIff(Start(), BurntOut(), 0);
    forall quote ensures !CanBeSettled(Eth, quote, Start(), BurntOut(), 0) {
      HelpIsNoHindrance(quote, Start(), BurntOut(), 0);
    }
  }

  // ---------------------------------------------------------------- from one payer to the other

  /** The row of nonce 0 once more, thirty seconds later and at other fees. */
  function Again(): TxRow {
    Row(0, 1).(hash := HashOf(Row(0, 1).hash.body.(fees := 1)), createdAt := NOT_DROPPED_UNTIL)
  }

  /** An Ethereum process records a transaction and, thirty seconds later, another one for its nonce. */
  function SentTwice(): seq<Event> {
    [Create(Row(0, 1)), Tick(NOT_DROPPED_UNTIL), Create(Again())]
  }

  lemma RecordedTwice()
    ensures IsGenesis(Start()) && Legal(Start(), SentTwice())
    ensures Replay(Start(), SentTwice()).db.txs == [Row(0, 1), Again()]
  {
    hide Legal, Replay, ThreePayouts;
    Crashed();
    var log1, tick := [Create(Row(0, 1))], Tick(NOT_DROPPED_UNTIL);
    var s1 := Replay(Start(), log1);
    Next(log1, s1, tick);
    var s2 := Apply(s1, tick);
    assert s2.db.txs[0] == Row(0, 1);
    RowPays(s2, 0, 1);
    assert RowPaysPayout(s2, Again());
    assert IsResend(s2, 1, 0);
    Next(log1 + [tick], s2, Create(Again()));
    assert log1 + [tick] + [Create(Again())] == SentTwice();
    assert [Row(0, 1)] + [Again()] == [Row(0, 1), Again()];
  }

  /** After that, zkSync Era processes never finish the group. */
  lemma StuckAfterSwitching(log: seq<Event>)
    requires SentTwice() <= log && Legal(Start(), log) && ActsAs(ZkSyncEra, Start(), log, 3)
    ensures IsGenesis(Start()) && Legal(Start(), SentTwice())
    ensures AnyInFlight(Replay(Start(), log).db.txs) && Unfinished(Replay(Start(), log).db, 1)
  {
    hide Legal, Replay, ActsAs, IsGenesis;
    RecordedTwice();
    assert log[..3] == SentTwice();
    var txs := Replay(Start(), SentTwice()).db.txs;
    assert txs[0] == Row(0, 1) && txs[1] == Again();
    TwicePendingBlocks(Start(), 3, log, 0, 0);
    RowsSettleOnce(Start(), log, 3, 0);
    LegalInv(Start(), log);
    PendingIsUnfinished(Replay(Start(), log), 0);
  }
}
