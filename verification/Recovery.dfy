/** How a pending nonce is brought to a verdict, by steps that the program and its environment can take. */
module Recovery {
  import opened Wrappers
  import opened Money
  import opened Tables
  import opened Protocol
  import opened Safety
  import opened Nonces
  import opened Network
  import opened Conduct
  import opened Settling

  // ---------------------------------------------------------------- one more step

  /** A step of processes of the kind that are told the truth, at the quoted prices. */
  predicate MayGoOn(kind: Kind, quote: int -> Decimal, log: seq<Event>, from: nat, s: State, e: Event) {
    && from <= |log| && OnTerms(kind, quote, s, e)
    && (e.Create? ==> && (kind.ZkSyncEra? ==> IsAttach(s, e.row.group, e.row.nonce))
                      && (AnyInFlight(s.db.txs) || e.row.nonce == s.chain.next))
    && (e.Broadcast? ==> CreatedSince(log, from, |log|, e.hash))
    && (e.Finalize? && kind.ZkSyncEra? ==> |e.statuses| == 1)
  }

  /** A history that goes on from `from` by itself, as processes of the kind can make it. */
  predicate Follows(kind: Kind, quote: int -> Decimal, genesis: State, log: seq<Event>, from: nat) {
    && Legal(genesis, log) && from <= |log| && ActsAs(kind, genesis, log, from)
    && LeftToItself(kind, quote, genesis, log, from)
    && (TruthfulNonces(genesis, log[..from]) ==> TruthfulNonces(genesis, log))
  }

  lemma TruthGoesOn(genesis: State, log: seq<Event>, e: Event)
    requires TruthfulNonces(genesis, log)
    requires e.Create? && !AnyInFlight(Replay(genesis, log).db.txs) ==> e.row.nonce == Replay(genesis, log).chain.next
    ensures TruthfulNonces(genesis, log + [e])
  {
    hide AnyInFlight, Replay;
    assert (log + [e])[..|log|] == log;
  }

  lemma GoOn(kind: Kind, quote: int -> Decimal, genesis: State, log: seq<Event>, from: nat, s: State, e: Event)
    requires Follows(kind, quote, genesis, log, from) && s == Replay(genesis, log) && Enabled(s, e)
    requires MayGoOn(kind, quote, log, from, s, e)
    ensures Follows(kind, quote, genesis, log + [e], from) && Replay(genesis, log + [e]) == Apply(s, e)
    ensures e.Create? ==> CreatedSince(log + [e], from, |log| + 1, e.row.hash)
  {
    hide Legal, Replay, Apply, Enabled, TruthfulNonces, AnyInFlight, IsAttach, ActsAs, CreatedSince, LeftToItself,
      OnTerms;
    LogGrows(genesis, log, e);
    assert (log + [e])[..from] == log[..from];
    TermsGoOn(kind, quote, genesis, log, from, e);
    if TruthfulNonces(genesis, log) { TruthGoesOn(genesis, log, e); }
    match e
    case Create(row) => CreatesAs(kind, genesis, log, row, from);
    case Broadcast(hash) => SendsAs(kind, genesis, log, hash, from);
    case Finalize(_, _, _, _) => FinalizesAs(kind, genesis, log, log + [e], from);
    case _ =>
      IdleAs(kind, genesis, log + [e], |log|);
      GoesOnAs(kind, genesis, log, log + [e], from);
  }

  lemma StartsFollowing(kind: Kind, quote: int -> Decimal, genesis: State, log: seq<Event>)
    requires Legal(genesis, log)
    ensures Follows(kind, quote, genesis, log, |log|)
  {
    assert log[..|log|] == log;
    NothingDone(kind, genesis, log);
  }

  // ---------------------------------------------------------------- mining the next nonce

  function FreshFees(txs: seq<TxRow>): (fees: nat)
    ensures forall i :: 0 <= i < |txs| ==> txs[i].hash.body.fees < fees
  {
    if txs == [] then 0
    else
      var rest, last := FreshFees(txs[..|txs| - 1]), txs[|txs| - 1].hash.body.fees;
      if last < rest then rest else last + 1
  }

  /** The payment of a pending row again, at a price of its own and other fees. */
  function ResentRow(s: State, i: nat, price: Decimal): TxRow
    requires i < |s.db.txs|
  {
    var row, tokens := s.db.txs[i], Cost(s, s.db.txs[i].group, price);
    var hash := HashOf(row.hash.body.(tokens := tokens, fees := FreshFees(s.db.txs)));
    TxRow(hash, row.nonce, row.group, price, tokens, Truncate(s.now), Pending, None)
  }

  /** Once its rows are old enough, a pending nonce can be sent again by whoever can pay. */
  lemma CanSendAgain(quote: int -> Decimal, s: State, i: nat)
    requires Inv(s) && PaysInv(s) && IsPending(s, i) && CanPay(s, s.db.txs[i].group, quote(s.db.txs[i].group))
    ensures var s' := Apply(s, Tick(NOT_DROPPED_UNTIL));
            var e := Create(ResentRow(s', i, quote(s.db.txs[i].group)));
            Enabled(s', e) && OnTerms(Eth, quote, s', e)
  {
    hide TruthInv, FinalsInv, ContiguousInv, ChainInv, DroppedInv, FromUSD, PayoutsOf, Affords;
    var s' := Apply(s, Tick(NOT_DROPPED_UNTIL));
    var row := ResentRow(s', i, quote(s.db.txs[i].group));
    assert RowPaysPayout(s, s.db.txs[i]);
    assert RowPaysPayout(s', row);
    assert IsResend(s', row.group, row.nonce);
    assert !InTable(s'.db.txs, row.hash);
  }

  /** Everything but the next nonce is as before, and the next nonce is mined with a pending row. */
  predicate MinedAtNext(s: State, s': State) {
    var n := s.chain.next;
    && s.db.txs <= s'.db.txs && s'.db == s.db.(txs := s'.db.txs)
    && (forall k :: |s.db.txs| <= k < |s'.db.txs| ==> s'.db.txs[k].state.Pending? && s'.db.txs[k].nonce == n)
    && s'.chain == s.chain.(next := n + 1, mined := s'.chain.mined, sent := s'.chain.sent)
    && s.chain.sent <= s'.chain.sent
    && n in s'.chain.mined && s'.chain.mined == s.chain.mined[n := s'.chain.mined[n]]
    && WonByPending(s', n)
  }

  /** A pending transaction at the next nonce that reached a node can be mined; at worst it reverts. */
  lemma MineSent(kind: Kind, quote: int -> Decimal, genesis: State, log: seq<Event>, from: nat, i: nat)
      returns (log': seq<Event>)
    requires IsGenesis(genesis) && Follows(kind, quote, genesis, log, from) && IsPending(Replay(genesis, log), i)
    requires Replay(genesis, log).db.txs[i].nonce == Replay(genesis, log).chain.next
    requires Replay(genesis, log).db.txs[i].hash in Replay(genesis, log).chain.sent
    ensures log <= log' && Follows(kind, quote, genesis, log', from)
              && MinedAtNext(Replay(genesis, log), Replay(genesis, log'))
    ensures Replay(genesis, log').db == Replay(genesis, log).db
  {
    hide IsGenesis, Replay, Follows;
    var s := Replay(genesis, log);
    Lawful(kind, quote, genesis, log, from);
    var e := Mine(s.db.txs[i].hash, false);
    RowHasItsNonce(s, i);
    log' := log + [e];
    GoOn(kind, quote, genesis, log, from, s, e);
    var s' := Apply(s, e);
    assert s'.chain.mined[s.chain.next].hash == s'.db.txs[i].hash;
  }

  lemma Lawful(kind: Kind, quote: int -> Decimal, genesis: State, log: seq<Event>, from: nat)
    requires IsGenesis(genesis) && Follows(kind, quote, genesis, log, from)
    ensures Inv(Replay(genesis, log)) && PaysInv(Replay(genesis, log)) && from <= |log|
  {
    hide IsGenesis, Replay;
    LegalInv(genesis, log);
    LegalPays(genesis, log);
  }

  lemma RowHasItsNonce(s: State, i: nat)
    requires Inv(s) && i < |s.db.txs|
    ensures s.db.txs[i].nonce == s.db.txs[i].hash.body.nonce
  {}

  /** On Ethereum a pending nonce can be sent again by whoever can pay. */
  lemma SendAgain(quote: int -> Decimal, genesis: State, log: seq<Event>, from: nat, i: nat)
    returns (log': seq<Event>, row: TxRow)
    requires IsGenesis(genesis) && Follows(Eth, quote, genesis, log, from) && IsPending(Replay(genesis, log), i)
    requires var s := Replay(genesis, log); CanPay(s, s.db.txs[i].group, quote(s.db.txs[i].group))
    ensures log <= log' && Follows(Eth, quote, genesis, log', from)
    ensures var s, s' := Replay(genesis, log), Replay(genesis, log');
            && s'.db == s.db.(txs := s.db.txs + [row]) && row.state.Pending? && row.nonce == s.db.txs[i].nonce
            && s'.chain == s.chain.(sent := s.chain.sent + {row.hash})
  {
    hide IsGenesis, Replay, Follows, CanPay;
    var s := Replay(genesis, log);
    Lawful(Eth, quote, genesis, log, from);
    CanSendAgain(quote, s, i);
    hide Inv, PaysInv;
    var tick := Tick(NOT_DROPPED_UNTIL);
    GoOn(Eth, quote, genesis, log, from, s, tick);
    var s1 := Apply(s, tick);
    row := ResentRow(s1, i, quote(s.db.txs[i].group));
    SomePending(s, i);
    GoOn(Eth, quote, genesis, log + [tick], from, s1, Create(row));
    var s2 := Apply(s1, Create(row));
    var log2 := log + [tick] + [Create(row)];
    assert s2.db.txs[|s1.db.txs|] == row;
    GoOn(Eth, quote, genesis, log2, from, s2, Broadcast(row.hash));
    log' := log2 + [Broadcast(row.hash)];
  }

  lemma SomePending(s: State, i: nat)
    requires IsPending(s, i)
    ensures AnyInFlight(s.db.txs)
  {}

  /** The next nonce can be mined if it is pending and can be delivered; at worst it reverts. */
  lemma MineNext(kind: Kind, quote: int -> Decimal, genesis: State, log: seq<Event>, from: nat)
      returns (log': seq<Event>)
    requires IsGenesis(genesis) && Follows(kind, quote, genesis, log, from)
    requires InFlight(Replay(genesis, log).db.txs, Replay(genesis, log).chain.next)
    requires Deliverable(kind, quote, Replay(genesis, log), Replay(genesis, log).chain.next)
    ensures log <= log' && Follows(kind, quote, genesis, log', from)
              && MinedAtNext(Replay(genesis, log), Replay(genesis, log'))
    ensures kind.ZkSyncEra? ==> Replay(genesis, log').db == Replay(genesis, log).db
  {
    hide IsGenesis, Replay, Follows, MinedAtNext, CanPay;
    var s := Replay(genesis, log);
    if Unsent(s, s.chain.next) {
      var i :| 0 <= i < |s.db.txs| && s.db.txs[i].state.Pending? && s.db.txs[i].nonce == s.chain.next;
      var log1, row := SendAgain(quote, genesis, log, from, i);
      assert Replay(genesis, log1).db.txs[|s.db.txs|] == row;
      log' := MineSent(kind, quote, genesis, log1, from, |s.db.txs|);
      MinedAfterResend(s, Replay(genesis, log1), Replay(genesis, log'), row);
    } else {
      var k :| 0 <= k < |s.db.txs| && s.db.txs[k].state.Pending? && s.db.txs[k].nonce == s.chain.next
        && s.db.txs[k].hash in s.chain.sent;
      log' := MineSent(kind, quote, genesis, log, from, k);
    }
  }

  lemma MinedAfterResend(s: State, s1: State, s': State, row: TxRow)
    requires s1.db == s.db.(txs := s.db.txs + [row]) && row.state.Pending? && row.nonce == s.chain.next
    requires s1.chain == s.chain.(sent := s.chain.sent + {row.hash}) && MinedAtNext(s1, s')
    ensures MinedAtNext(s, s')
  {
    hide WonByPending;
    forall k | |s.db.txs| <= k < |s'.db.txs| ensures s'.db.txs[k].state.Pending? && s'.db.txs[k].nonce == s.chain.next {
      if k == |s.db.txs| { assert s'.db.txs[k] == s1.db.txs[k] == row; }
    }
  }

  // ---------------------------------------------------------------- finalizing a won nonce

  /** The verdict on a row, once its nonce was mined. */
  function StatusOf(row: TxRow, receipt: Receipt): TxStatus {
    if row.hash != receipt.hash then TxStatus(row.hash, Dropped, None)
    else TxStatus(row.hash, if receipt.success then Confirmed else Failed, Some(receipt))
  }

  /** The verdicts on the pending rows of a nonce. */
  function StatusesOf(txs: seq<TxRow>, n: nat, receipt: Receipt): seq<TxStatus> {
    if txs == [] then []
    else
      var rest, row := StatusesOf(txs[..|txs| - 1], n, receipt), txs[|txs| - 1];
      if row.state.Pending? && row.nonce == n then rest + [StatusOf(row, receipt)] else rest
  }

  predicate HashesUnique(txs: seq<TxRow>) {
    forall i, j :: 0 <= i < j < |txs| ==> txs[i].hash != txs[j].hash
  }

  predicate IsRowOfNonce(txs: seq<TxRow>, n: nat, hash: Hash) {
    exists i :: 0 <= i < |txs| && txs[i].state.Pending? && txs[i].nonce == n && txs[i].hash == hash
  }

  lemma {:induction false} StatusesCover(txs: seq<TxRow>, n: nat, receipt: Receipt)
    requires HashesUnique(txs)
    ensures var statuses := StatusesOf(txs, n, receipt);
            && DistinctHashes(statuses)
            && (forall hash :: Covers(statuses, hash) <==> IsRowOfNonce(txs, n, hash))
            && (forall k :: 0 <= k < |statuses| ==>
                  statuses[k].hash != receipt.hash ==> statuses[k].state.Dropped? && statuses[k].receipt.None?)
            && (forall k :: 0 <= k < |statuses| && statuses[k].hash == receipt.hash ==>
                  statuses[k] == TxStatus(receipt.hash, if receipt.success then Confirmed else Failed, Some(receipt)))
  {
    if txs != [] {
      var init, row := txs[..|txs| - 1], txs[|txs| - 1];
      StatusesCover(init, n, receipt);
      var rest := StatusesOf(init, n, receipt);
      MoreRows(init, row, n);
      if row.state.Pending? && row.nonce == n {
        assert txs == init + [row];
        assert !IsRowOfNonce(init, n, row.hash);
        MoreStatuses(rest, StatusOf(row, receipt));
      } else {
        assert txs == init + [row];
      }
    }
  }

  lemma MoreRows(txs: seq<TxRow>, row: TxRow, n: nat)
    ensures forall hash :: IsRowOfNonce(txs + [row], n, hash) <==>
              IsRowOfNonce(txs, n, hash) || (row.state.Pending? && row.nonce == n && row.hash == hash)
  {
    var txs' := txs + [row];
    assert txs'[|txs|] == row && forall i :: 0 <= i < |txs| ==> txs'[i] == txs[i];
  }

  lemma MoreStatuses(statuses: seq<TxStatus>, status: TxStatus)
    requires DistinctHashes(statuses) && !Covers(statuses, status.hash)
    ensures DistinctHashes(statuses + [status])
    ensures forall hash :: Covers(statuses + [status], hash) <==> Covers(statuses, hash) || hash == status.hash
  {
    var statuses' := statuses + [status];
    assert statuses'[|statuses|] == status && forall i :: 0 <= i < |statuses| ==> statuses'[i] == statuses[i];
  }

  predicate IsLowest(txs: seq<TxRow>, n: nat) {
    InFlight(txs, n) && forall i :: 0 <= i < |txs| && txs[i].state.Pending? ==> n <= txs[i].nonce
  }

  /** The lowest pending nonce can be finalized as soon as one of its rows was mined. */
  lemma CanFinalizeWon(s: State, n: nat) returns (e: Event)
    requires Inv(s) && IsLowest(s.db.txs, n) && WonByPending(s, n)
    ensures e.Finalize? && e.nonce == n && Enabled(s, e) && (!Doubled(s, n) ==> |e.statuses| == 1)
  {
    hide TruthInv, FinalsInv, ContiguousInv, SpacedInv, DroppedInv, CoversNonce, OneWinner, ChainInv, RowsInv;
    var i :| 0 <= i < |s.db.txs| && s.db.txs[i].state.Pending? && s.db.txs[i].nonce == n;
    var winner := StatusesDecide(s, n);
    if !Doubled(s, n) { SingleStatus(s, n); }
    e := Finalize(n, s.db.txs[i].group, StatusesOf(s.db.txs, n, s.chain.mined[n]), winner);
  }

  /** A nonce with a single pending row gets a single verdict. */
  lemma SingleStatus(s: State, n: nat)
    requires Inv(s) && WonByPending(s, n) && !Doubled(s, n)
    ensures |StatusesOf(s.db.txs, n, s.chain.mined[n])| == 1
  {
    var txs, receipt := s.db.txs, s.chain.mined[n];
    var statuses := StatusesOf(txs, n, receipt);
    WinnerIsRow(s, n);
    StatusesCover(txs, n, receipt);
    hide Inv, WonByPending, StatusesOf;
    assert Covers(statuses, receipt.hash);
    if |statuses| > 1 {
      assert Covers(statuses, statuses[0].hash) && Covers(statuses, statuses[1].hash);
      assert IsRowOfNonce(txs, n, statuses[0].hash) && IsRowOfNonce(txs, n, statuses[1].hash);
      TwoRows(s, n, statuses[0].hash, statuses[1].hash);
    }
  }

  lemma TwoRows(s: State, n: nat, a: Hash, b: Hash)
    requires IsRowOfNonce(s.db.txs, n, a) && IsRowOfNonce(s.db.txs, n, b) && a != b
    ensures Doubled(s, n)
  {}

  lemma StatusesDecide(s: State, n: nat) returns (winner: nat)
    requires RowsInv(s.db) && ChainInv(s.db.txs, s.chain) && WonByPending(s, n)
    ensures var statuses := StatusesOf(s.db.txs, n, s.chain.mined[n]);
            CoversNonce(s.db, n, statuses) && OneWinner(statuses, winner, s.chain.mined[n])
  {
    var txs, receipt := s.db.txs, s.chain.mined[n];
    var statuses := StatusesOf(txs, n, receipt);
    WinnerIsRow(s, n);
    StatusesCover(txs, n, receipt);
    RowsOfNonce(txs, n);
    hide RowsInv, ChainInv, WonByPending, IsRowOfNonce, HashesUnique, StatusesOf;
    assert Covers(statuses, receipt.hash);
    winner :| 0 <= winner < |statuses| && statuses[winner].hash == receipt.hash;
  }

  lemma WinnerIsRow(s: State, n: nat)
    requires RowsInv(s.db) && ChainInv(s.db.txs, s.chain) && WonByPending(s, n)
    ensures HashesUnique(s.db.txs) && IsRowOfNonce(s.db.txs, n, s.chain.mined[n].hash)
  {}

  lemma RowsOfNonce(txs: seq<TxRow>, n: nat)
    requires HashesUnique(txs)
    ensures forall i :: 0 <= i < |txs| ==>
              (IsRowOfNonce(txs, n, txs[i].hash) <==> txs[i].state.Pending? && txs[i].nonce == n)
  {}

  // ---------------------------------------------------------------- one nonce after the other

  /** The lowest pending nonce was settled: nothing else changed, but for the account's next nonce and what was sent. */
  predicate Advanced(s: State, s': State, n: nat) {
    && |s.db.txs| <= |s'.db.txs|
    && (forall i :: 0 <= i < |s.db.txs| && s.db.txs[i].state.Pending? && s.db.txs[i].nonce == n ==>
        !s'.db.txs[i].state.Pending?)
    && (forall i :: 0 <= i < |s.db.txs| && !(s.db.txs[i].state.Pending? && s.db.txs[i].nonce == n) ==>
        s'.db.txs[i] == s.db.txs[i])
    && (forall i :: |s.db.txs| <= i < |s'.db.txs| ==> !s'.db.txs[i].state.Pending?)
    && s'.db.payouts == s.db.payouts
    && s'.chain == s.chain.(next := s'.chain.next, mined := s'.chain.mined, sent := s'.chain.sent)
    && s'.chain.next == (if s.chain.next <= n then n + 1 else s.chain.next) && s.chain.sent <= s'.chain.sent
    && (forall m <- s'.chain.mined :: m == n || m in s.chain.mined)
    && (forall m <- s.chain.mined :: m in s'.chain.mined && s'.chain.mined[m] == s.chain.mined[m])
    && s'.db.finals.Keys == s.db.finals.Keys
    && (forall g <- s.db.finals :: s.db.finals[g].Some? ==> s'.db.finals[g] == s.db.finals[g])
  }

  lemma FinalizeWon(kind: Kind, quote: int -> Decimal, genesis: State, log: seq<Event>, from: nat, n: nat)
      returns (log': seq<Event>)
    requires IsGenesis(genesis) && Follows(kind, quote, genesis, log, from)
    requires IsLowest(Replay(genesis, log).db.txs, n) && WonByPending(Replay(genesis, log), n)
               && n < Replay(genesis, log).chain.next
    requires kind.ZkSyncEra? ==> !Doubled(Replay(genesis, log), n)
    ensures log <= log' && Follows(kind, quote, genesis, log', from)
              && Advanced(Replay(genesis, log), Replay(genesis, log'), n)
  {
    hide IsGenesis, Replay, Follows, Doubled;
    var s := Replay(genesis, log);
    Lawful(kind, quote, genesis, log, from);
    var e := CanFinalizeWon(s, n);
    log' := log + [e];
    GoOn(kind, quote, genesis, log, from, s, e);
    hide Inv, PaysInv, Enabled, WonByPending, IsLowest, Advanced;
    FinalizeAdvances(s, e);
  }

  lemma FinalizeAdvances(s: State, e: Event)
    requires Inv(s) && e.Finalize? && Enabled(s, e) && e.nonce < s.chain.next
    ensures Advanced(s, Apply(s, e), e.nonce)
  {
    FinalizeEffect(s, e);
    FinalizeKeepsChain(s, e);
    FinalizeFinals(s, e);
    hide Inv, Enabled, Apply;
  }

  lemma FinalizeFinals(s: State, e: Event)
    requires Inv(s) && e.Finalize? && Enabled(s, e)
    ensures Apply(s, e).db.finals.Keys == s.db.finals.Keys
    ensures forall g <- s.db.finals :: s.db.finals[g].Some? ==> Apply(s, e).db.finals[g] == s.db.finals[g]
  {
    hide RowsInv, ContiguousInv, SpacedInv, DroppedInv, TruthInv, FinalsInv, ChainInv, CoversNonce, OneWinner;
    FinalizeSettles(s, e.nonce, e.group, e.statuses, e.winner);
    var w := WinnerRow(s, e.nonce, e.group, e.statuses, e.winner);
  }

  /** Settles the lowest pending nonce. */
  lemma SettleLowest(kind: Kind, quote: int -> Decimal, genesis: State, log: seq<Event>, from: nat, n: nat)
      returns (log': seq<Event>)
    requires IsGenesis(genesis) && Follows(kind, quote, genesis, log, from) && IsLowest(Replay(genesis, log).db.txs, n)
    requires n <= Replay(genesis, log).chain.next && !UsedUp(Replay(genesis, log), n)
    requires Deliverable(kind, quote, Replay(genesis, log), n)
    ensures log <= log' && Follows(kind, quote, genesis, log', from)
              && Advanced(Replay(genesis, log), Replay(genesis, log'), n)
  {
    hide IsGenesis, Replay, Follows, WonByPending, MinedAtNext, Advanced, Unsent, Doubled, CanResend;
    var s := Replay(genesis, log);
    Lawful(kind, quote, genesis, log, from);
    hide Inv, PaysInv;
    if n < s.chain.next {
      log' := FinalizeWon(kind, quote, genesis, log, from, n);
    } else {
      var log1 := MineNext(kind, quote, genesis, log, from);
      StillLowest(s, Replay(genesis, log1), n);
      SameDoubled(s, Replay(genesis, log1), n);
      log' := FinalizeWon(kind, quote, genesis, log1, from, n);
      AdvancedAfterMining(s, Replay(genesis, log1), Replay(genesis, log'), n);
    }
  }

  lemma SameDoubled(s: State, s1: State, n: nat)
    ensures s1.db == s.db ==> (Doubled(s1, n) <==> Doubled(s, n))
  {}

  lemma StillLowest(s: State, s1: State, n: nat)
    requires IsLowest(s.db.txs, n) && n == s.chain.next && MinedAtNext(s, s1)
    ensures IsLowest(s1.db.txs, n) && WonByPending(s1, n) && n < s1.chain.next
  {
    hide WonByPending;
    var txs, txs' := s.db.txs, s1.db.txs;
    assert forall i :: 0 <= i < |txs| ==> txs'[i] == txs[i];
    var i :| 0 <= i < |txs| && txs[i].state.Pending? && txs[i].nonce == n;
    assert txs'[i].state.Pending? && txs'[i].nonce == n;
  }

  lemma AdvancedAfterMining(s: State, s1: State, s': State, n: nat)
    requires n == s.chain.next && MinedAtNext(s, s1) && Advanced(s1, s', n)
    requires Inv(s)
    ensures Advanced(s, s', n)
  {
    hide WonByPending, RowsInv, PendingInv, ContiguousInv, SpacedInv, DroppedInv, TruthInv, FinalsInv;
    var txs, txs1 := s.db.txs, s1.db.txs;
    assert forall i :: 0 <= i < |txs| ==> txs1[i] == txs[i];
    assert n !in s.chain.mined;
  }

  // ---------------------------------------------------------------- exactly when a row can be settled

  ghost function PendingSet(txs: seq<TxRow>): set<nat> {
    set i | 0 <= i < |txs| && txs[i].state.Pending?
  }

  lemma AdvancedShrinks(s: State, s': State, n: nat)
    requires Advanced(s, s', n) && InFlight(s.db.txs, n)
    ensures PendingSet(s'.db.txs) < PendingSet(s.db.txs)
    ensures |PendingSet(s'.db.txs)| < |PendingSet(s.db.txs)|
  {
    var i :| 0 <= i < |s.db.txs| && s.db.txs[i].state.Pending? && s.db.txs[i].nonce == n;
    assert i in PendingSet(s.db.txs) && i !in PendingSet(s'.db.txs);
    assert PendingSet(s'.db.txs) <= PendingSet(s.db.txs);
    SmallerSet(PendingSet(s'.db.txs), PendingSet(s.db.txs));
  }

  lemma SmallerSet(a: set<nat>, b: set<nat>)
    requires a < b
    ensures |a| < |b|
  {
    var rest := b - a;
    assert b == a + rest && a !! rest;
    assert rest != {};
  }

  lemma {:induction false} LowestPending(txs: seq<TxRow>, i: nat) returns (n: nat)
    requires i < |txs| && txs[i].state.Pending?
    ensures IsLowest(txs, n) && n <= txs[i].nonce
    decreases txs[i].nonce
  {
    if j :| 0 <= j < |txs| && txs[j].state.Pending? && txs[j].nonce < txs[i].nonce {
      n := LowestPending(txs, j);
    } else {
      n := txs[i].nonce;
    }
  }

  /** Settling the lowest nonce leaves every higher one settleable that was. */
  lemma AdvancedSettleable(kind: Kind, quote: int -> Decimal, s: State, s': State, n: nat, i: nat)
    requires Inv(s) && Advanced(s, s', n) && IsLowest(s.db.txs, n) && IsPending(s, i) && n < s.db.txs[i].nonce
    requires Settleable(kind, quote, s, s.db.txs[i].nonce)
    ensures s'.db.txs[i] == s.db.txs[i] && Settleable(kind, quote, s', s.db.txs[i].nonce)
  {
    hide RowsInv, PendingInv, SpacedInv, DroppedInv, TruthInv, FinalsInv, ChainInv, Deliverable, UsedUp;
    var top := s.db.txs[i].nonce;
    forall m: nat | m <= top && InFlight(s'.db.txs, m) ensures !UsedUp(s', m) && Deliverable(kind, quote, s', m) {
      hide ContiguousInv;
      HigherPending(s, s', n, m);
      NotUsedUpLater(s, s', n, m);
      DeliverableLater(kind, quote, s, s', n, m);
    }
    if s'.chain.next <= top {
      var next := s'.chain.next;
      if s.chain.next <= n {
        var j :| 0 <= j < |s.db.txs| && s.db.txs[j].state.Pending? && s.db.txs[j].nonce == n;
        assert InFlight(s.db.txs, n + 1);
      }
      assert InFlight(s.db.txs, next);
      StillInFlight(s, s', n, next);
    }
  }

  lemma StillInFlight(s: State, s': State, n: nat, m: nat)
    requires Advanced(s, s', n) && m != n
    ensures InFlight(s'.db.txs, m) <==> InFlight(s.db.txs, m)
  {
    if InFlight(s.db.txs, m) {
      var j :| 0 <= j < |s.db.txs| && s.db.txs[j].state.Pending? && s.db.txs[j].nonce == m;
      assert s'.db.txs[j] == s.db.txs[j];
    }
  }

  /** What can be delivered still can after a lower nonce was settled. */
  lemma DeliverableLater(kind: Kind, quote: int -> Decimal, s: State, s': State, n: nat, m: nat)
    requires Advanced(s, s', n) && n < m && Deliverable(kind, quote, s, m)
    ensures Deliverable(kind, quote, s', m)
  {
    hide CanPay;
    SameCanPay(s, s');
    if !Unsent(s, m) { SentLater(s, s', n, m); }
    forall k | 0 <= k < |s'.db.txs| && s'.db.txs[k].state.Pending?
        ensures k < |s.db.txs| && s'.db.txs[k] == s.db.txs[k] {}
  }

  lemma HigherPending(s: State, s': State, n: nat, m: nat)
    requires Advanced(s, s', n) && IsLowest(s.db.txs, n) && InFlight(s'.db.txs, m)
    ensures InFlight(s.db.txs, m) && n < m
  {
    var j :| 0 <= j < |s'.db.txs| && s'.db.txs[j].state.Pending? && s'.db.txs[j].nonce == m;
    assert s'.db.txs[j] == s.db.txs[j];
  }

  lemma NotUsedUpLater(s: State, s': State, n: nat, m: nat)
    requires Inv(s) && Advanced(s, s', n) && n < m && !UsedUp(s, m)
    ensures !UsedUp(s', m)
  {
    hide PendingInv, ContiguousInv, SpacedInv, DroppedInv, TruthInv, FinalsInv;
    if m < s'.chain.next {
      var w :| 0 <= w < |s.db.txs| && s.db.txs[w].state.Pending? && s.db.txs[w].hash == s.chain.mined[m].hash;
      assert s.db.txs[w].nonce == m && s'.db.txs[w] == s.db.txs[w];
    }
  }

  lemma SentLater(s: State, s': State, n: nat, m: nat)
    requires Advanced(s, s', n) && n < m && !Unsent(s, m)
    ensures !Unsent(s', m)
  {
    if s'.chain.next <= m {
      var k :| 0 <= k < |s.db.txs| && s.db.txs[k].state.Pending? && s.db.txs[k].nonce == m
          && s.db.txs[k].hash in s.chain.sent;
      assert s'.db.txs[k] == s.db.txs[k];
    }
  }

  /** Settles the nonces up to that of a settleable row, one after the other. */
  lemma {:induction false} SettleUpTo(kind: Kind, quote: int -> Decimal, genesis: State, log: seq<Event>, from: nat,
      i: nat)
    returns (log': seq<Event>)
    requires IsGenesis(genesis) && Follows(kind, quote, genesis, log, from) && IsPending(Replay(genesis, log), i)
    requires Settleable(kind, quote, Replay(genesis, log), Replay(genesis, log).db.txs[i].nonce)
    ensures log <= log' && Follows(kind, quote, genesis, log', from)
    ensures i < |Replay(genesis, log').db.txs| && !IsPending(Replay(genesis, log'), i)
    decreases |PendingSet(Replay(genesis, log).db.txs)|
  {
    hide IsGenesis, Replay, Follows, UsedUp, Deliverable;
    var s := Replay(genesis, log);
    Lawful(kind, quote, genesis, log, from);
    hide Inv, PaysInv;
    var n := LowestPending(s.db.txs, i);
    assert n <= s.chain.next;
    log' := SettleLowest(kind, quote, genesis, log, from, n);
    if n < s.db.txs[i].nonce {
      hide Settleable, IsLowest;
      var log1 := log';
      AdvancedSettleable(kind, quote, s, Replay(genesis, log1), n, i);
      AdvancedShrinks(s, Replay(genesis, log1), n);
      log' := SettleUpTo(kind, quote, genesis, log1, from, i);
    }
  }

  /** Processes of the kind, told true balances and the quoted prices, can bring the row to a verdict by themselves. */
  ghost predicate CanBeSettled(kind: Kind, quote: int -> Decimal, genesis: State, log: seq<Event>, i: nat) {
    exists log' :: log <= log' && Legal(genesis, log') && ActsAs(kind, genesis, log', |log|)
                   && LeftToItself(kind, quote, genesis, log', |log|)
                   && i < |Replay(genesis, log').db.txs| && !IsPending(Replay(genesis, log'), i)
  }

  /**
    A pending row can be settled iff the account gets to its nonce without a gap and no pending nonce up to
    it is used up, and each of those can be delivered: on Ethereum one of its rows was handed over or
    another one can be paid at the quoted price, on zkSync Era its only row was handed over.
    */
  lemma SettleableIff(kind: Kind, quote: int -> Decimal, genesis: State, log: seq<Event>, i: nat)
    requires IsGenesis(genesis) && Legal(genesis, log) && IsPending(Replay(genesis, log), i)
    ensures CanBeSettled(kind, quote, genesis, log, i) <==>
              Settleable(kind, quote, Replay(genesis, log), Replay(genesis, log).db.txs[i].nonce)
  {
    hide IsGenesis, Legal, Replay, Open, Deliverable, ActsAs, LeftToItself, InFlight;
    var s := Replay(genesis, log);
    var n := s.db.txs[i].nonce;
    if Settleable(kind, quote, s, n) {
      StartsFollowing(kind, quote, genesis, log);
      var log' := SettleUpTo(kind, quote, genesis, log, |log|, i);
    } else if CanBeSettled(kind, quote, genesis, log, i) {
      var log' :| log <= log' && Legal(genesis, log') && ActsAs(kind, genesis, log', |log|)
        && LeftToItself(kind, quote, genesis, log', |log|)
        && i < |Replay(genesis, log').db.txs| && !IsPending(Replay(genesis, log'), i);
      assert log'[..|log|] == log;
      if Open(s, n) {
        var m :| 0 <= m <= n && InFlight(s.db.txs, m) && !Deliverable(kind, quote, s, m);
        UndeliverableStaysPending(kind, quote, genesis, |log|, log', m, i);
      } else {
        DeadRowsStayPending(genesis, |log|, log', i);
      }
    }
  }

  // ---------------------------------------------------------------- with true nonces

  /** The account has used every nonce it started below, and waits at most for the lowest pending one. */
  predicate ReachedInv(start: nat, s: State) {
    && start <= s.chain.next
    && (forall n :: start <= n < s.chain.next ==> n in s.chain.mined)
    && (forall i :: 0 <= i < |s.db.txs| && s.db.txs[i].state.Pending? ==> start <= s.db.txs[i].nonce)
    && (AnyInFlight(s.db.txs) ==>
          exists i :: 0 <= i < |s.db.txs| && s.db.txs[i].state.Pending? && s.db.txs[i].nonce <= s.chain.next)
  }

  lemma CreateKeepsReached(start: nat, s: State, row: TxRow)
    requires ReachedInv(start, s) && Enabled(s, Create(row)) && (AnyInFlight(s.db.txs) || row.nonce == s.chain.next)
    ensures ReachedInv(start, Apply(s, Create(row)))
  {
    hide RowPaysPayout;
    var txs' := s.db.txs + [row];
    assert txs'[|s.db.txs|] == row && forall i :: 0 <= i < |s.db.txs| ==> txs'[i] == s.db.txs[i];
  }

  lemma FinalizeKeepsReached(start: nat, s: State, e: Event)
    requires Inv(s) && ReachedInv(start, s) && e.Finalize? && Enabled(s, e)
    ensures ReachedInv(start, Apply(s, e))
  {
    FinalizeEffect(s, e);
    FinalizedIsWon(s, e);
    FinalizeKeepsChain(s, e);
    WonIsInFlight(s, e.nonce);
    hide Enabled, Apply, RowsInv, PendingInv, SpacedInv, DroppedInv, TruthInv, FinalsInv, ChainInv, WonByPending;
    SettledReached(start, s, Apply(s, e), e.nonce);
  }

  /** The next pending nonce follows the settled one, so the account has got there. */
  lemma SettledReached(start: nat, s: State, s': State, n: nat)
    requires ContiguousInv(s.db.txs) && ReachedInv(start, s) && IsLowest(s.db.txs, n) && n < s.chain.next
    requires SettlesNonce(s.db.txs, s'.db.txs, n) && s'.chain == s.chain
    ensures ReachedInv(start, s')
  {
    if AnyInFlight(s'.db.txs) {
      var i :| 0 <= i < |s'.db.txs| && s'.db.txs[i].state.Pending?;
      assert s'.db.txs[i] == s.db.txs[i];
      FollowingInFlight(s.db.txs, n, i);
      var j :| 0 <= j < |s.db.txs| && s.db.txs[j].state.Pending? && s.db.txs[j].nonce == n + 1;
      assert s'.db.txs[j] == s.db.txs[j];
    }
    hide ContiguousInv;
    forall i | 0 <= i < |s'.db.txs| && s'.db.txs[i].state.Pending? ensures start <= s'.db.txs[i].nonce {
      assert s'.db.txs[i] == s.db.txs[i];
    }
  }

  lemma FollowingInFlight(txs: seq<TxRow>, n: nat, i: nat)
    requires ContiguousInv(txs) && InFlight(txs, n) && i < |txs| && txs[i].state.Pending? && n < txs[i].nonce
    ensures InFlight(txs, n + 1)
  {
    var j :| 0 <= j < |txs| && txs[j].state.Pending? && txs[j].nonce == n;
  }

  lemma StepKeepsReached(start: nat, s: State, e: Event)
    requires Inv(s) && ReachedInv(start, s) && Enabled(s, e)
    requires e.Create? && !AnyInFlight(s.db.txs) ==> e.row.nonce == s.chain.next
    ensures ReachedInv(start, Apply(s, e))
  {
    hide Inv, CanFinalize, IsAttach, IsResend, RowPaysPayout, AfterMine, AnyInFlight;
    match e
    case Create(row) => CreateKeepsReached(start, s, row);
    case Finalize(_, _, _, _) => FinalizeKeepsReached(start, s, e);
    case _ =>
  }

  lemma {:induction false} TruthfulReached(genesis: State, log: seq<Event>)
    requires IsGenesis(genesis) && Legal(genesis, log) && TruthfulNonces(genesis, log)
    ensures ReachedInv(genesis.chain.next, Replay(genesis, log))
  {
    if log != [] {
      TruthfulReached(genesis, log[..|log| - 1]);
      LegalInv(genesis, log[..|log| - 1]);
      hide Inv, IsGenesis, ReachedInv, Enabled, Apply, AnyInFlight;
      StepKeepsReached(genesis.chain.next, Replay(genesis, log[..|log| - 1]), log[|log| - 1]);
    } else {
      assert genesis.db.txs == [];
    }
  }

  /** With true nonces whatever the account is past was won by a pending row, and it waits for no gap. */
  lemma TruthfulUsable(genesis: State, log: seq<Event>, n: nat)
    requires IsGenesis(genesis) && Legal(genesis, log) && TruthfulNonces(genesis, log)
    requires InFlight(Replay(genesis, log).db.txs, n)
    ensures var s := Replay(genesis, log); !UsedUp(s, n) && !Gap(s, n)
    ensures IsLowest(Replay(genesis, log).db.txs, n) ==> n <= Replay(genesis, log).chain.next
  {
    hide IsGenesis, Legal, Replay, TruthfulNonces;
    var s := Replay(genesis, log);
    LegalInv(genesis, log);
    TruthfulOrdered(genesis, log);
    TruthfulReached(genesis, log);
    UsableWhenReached(genesis.chain.next, s, n);
  }

  lemma UsableWhenReached(start: nat, s: State, n: nat)
    requires Inv(s) && OrderedInv(s) && ReachedInv(start, s) && InFlight(s.db.txs, n)
    ensures !UsedUp(s, n) && !Gap(s, n)
    ensures IsLowest(s.db.txs, n) ==> n <= s.chain.next
  {
    hide PendingInv, SpacedInv, DroppedInv, TruthInv, FinalsInv;
    var i :| 0 <= i < |s.db.txs| && s.db.txs[i].state.Pending? && s.db.txs[i].nonce == n;
    assert AnyInFlight(s.db.txs);
    if n < s.chain.next {
      hide ContiguousInv;
      assert n in s.chain.mined;
      assert InTable(s.db.txs, s.chain.mined[n].hash);
      var w :| 0 <= w < |s.db.txs| && s.db.txs[w].hash == s.chain.mined[n].hash;
      assert s.db.txs[w].nonce == n;
    } else {
      hide RowsInv, ChainInv;
      assert InFlight(s.db.txs, s.chain.next);
    }
  }

  /** With true nonces a pending row can be settled iff each pending nonce up to its own can be delivered. */
  lemma TruthfulSettles(kind: Kind, quote: int -> Decimal, genesis: State, log: seq<Event>, i: nat)
    requires IsGenesis(genesis) && Legal(genesis, log) && TruthfulNonces(genesis, log)
               && IsPending(Replay(genesis, log), i)
    ensures var s := Replay(genesis, log);
            CanBeSettled(kind, quote, genesis, log, i) <==>
              forall m :: 0 <= m <= s.db.txs[i].nonce && InFlight(s.db.txs, m) ==> Deliverable(kind, quote, s, m)
  {
    hide IsGenesis, Legal, Replay, TruthfulNonces, CanBeSettled, UsedUp, Gap, InFlight, Deliverable;
    var s := Replay(genesis, log);
    forall m: nat | InFlight(s.db.txs, m) ensures !UsedUp(s, m) && !Gap(s, m) { TruthfulUsable(genesis, log, m); }
    PendingInFlight(s, i);
    SettleableIff(kind, quote, genesis, log, i);
  }

  lemma PendingInFlight(s: State, i: nat)
    requires IsPending(s, i)
    ensures InFlight(s.db.txs, s.db.txs[i].nonce)
  {}

  /** Every pending row up to a nonce reached a node. */
  predicate AllSent(s: State, n: nat) {
    forall j :: 0 <= j < |s.db.txs| && s.db.txs[j].state.Pending? && s.db.txs[j].nonce <= n ==>
        s.db.txs[j].hash in s.chain.sent
  }

  /** No pending nonce up to n has two rows. */
  predicate NoneDoubled(s: State, n: nat) {
    forall m :: 0 <= m <= n ==> !Doubled(s, m)
  }

  /**
    With true nonces a zkSync Era payout can settle a pending row iff it and all below it were handed over,
    and no nonce up to its own is pending twice.
    */
  lemma TruthfulZkSettles(quote: int -> Decimal, genesis: State, log: seq<Event>, i: nat)
    requires IsGenesis(genesis) && Legal(genesis, log) && TruthfulNonces(genesis, log)
               && IsPending(Replay(genesis, log), i)
    ensures var s := Replay(genesis, log);
            CanBeSettled(ZkSyncEra, quote, genesis, log, i) <==>
              AllSent(s, s.db.txs[i].nonce) && NoneDoubled(s, s.db.txs[i].nonce)
  {
    hide IsGenesis, Legal, Replay, TruthfulNonces, CanBeSettled, UsedUp, Gap, InFlight, Deliverable, AllSent,
      NoneDoubled;
    var s := Replay(genesis, log);
    forall m: nat | InFlight(s.db.txs, m) ensures !UsedUp(s, m) { TruthfulUsable(genesis, log, m); }
    TruthfulSettles(ZkSyncEra, quote, genesis, log, i);
    LegalInv(genesis, log);
    SentIff(quote, s, s.db.txs[i].nonce);
  }

  lemma SentIff(quote: int -> Decimal, s: State, n: nat)
    requires Inv(s) && forall m: nat :: InFlight(s.db.txs, m) ==> !UsedUp(s, m)
    ensures (forall m :: 0 <= m <= n && InFlight(s.db.txs, m) ==> Deliverable(ZkSyncEra, quote, s, m))
              <==> AllSent(s, n) && NoneDoubled(s, n)
  {
    hide Inv, UsedUp;
    if forall m :: 0 <= m <= n && InFlight(s.db.txs, m) ==> Deliverable(ZkSyncEra, quote, s, m) {
      forall j | 0 <= j < |s.db.txs| && s.db.txs[j].state.Pending? && s.db.txs[j].nonce <= n
        ensures s.db.txs[j].hash in s.chain.sent
      {
        assert InFlight(s.db.txs, s.db.txs[j].nonce);
        LoneIsSent(s, j);
      }
      forall m: nat | m <= n ensures !Doubled(s, m) {
        if Doubled(s, m) { DoubledIsInFlight(s, m); }
      }
    }
    if AllSent(s, n) && NoneDoubled(s, n) {
      forall m: nat | m <= n && InFlight(s.db.txs, m) ensures Deliverable(ZkSyncEra, quote, s, m) {}
    }
  }

  lemma DoubledIsInFlight(s: State, m: nat)
    requires Doubled(s, m)
    ensures InFlight(s.db.txs, m)
  {}

  lemma LoneIsSent(s: State, j: nat)
    requires Inv(s) && IsPending(s, j)
    requires var m := s.db.txs[j].nonce; !UsedUp(s, m) && !Unsent(s, m) && !Doubled(s, m)
    ensures s.db.txs[j].hash in s.chain.sent
  {
    hide PendingInv, ContiguousInv, SpacedInv, DroppedInv, TruthInv, FinalsInv;
    var m := s.db.txs[j].nonce;
    if s.chain.next <= m {
      var k :| 0 <= k < |s.db.txs| && s.db.txs[k].state.Pending? && s.db.txs[k].nonce == m
               && s.db.txs[k].hash in s.chain.sent;
      assert k == j;
    } else {
      var w :| 0 <= w < |s.db.txs| && s.db.txs[w].state.Pending? && s.db.txs[w].hash == s.chain.mined[m].hash;
      assert s.db.txs[w].nonce == m && w == j;
    }
  }

  // ---------------------------------------------------------------- clearing the pipeline

  /** Nothing changed for the accounts, and final hashes were only added. */
  predicate Cleared(s: State, s': State) {
    && s'.chain.owner == s.chain.owner && s'.chain.spender == s.chain.spender && s'.chain.decimals == s.chain.decimals
    && s'.chain.ledger == s.chain.ledger && s'.db.payouts == s.db.payouts
    && s'.db.finals.Keys == s.db.finals.Keys
    && (forall g <- s.db.finals :: s.db.finals[g].Some? ==> s'.db.finals[g] == s.db.finals[g])
    && (forall m <- s.chain.mined :: m in s'.chain.mined && s'.chain.mined[m] == s.chain.mined[m])
    && |s.db.txs| <= |s'.db.txs|
    && (forall i :: 0 <= i < |s.db.txs| ==> SameTransaction(s.db.txs[i], s'.db.txs[i]))
  }

  /** Every pending nonce can be delivered. */
  predicate AllDeliverable(kind: Kind, quote: int -> Decimal, s: State) {
    forall i :: 0 <= i < |s.db.txs| && s.db.txs[i].state.Pending? ==> Deliverable(kind, quote, s, s.db.txs[i].nonce)
  }

  lemma AdvancedStep(kind: Kind, quote: int -> Decimal, s: State, s1: State, n: nat)
    requires Advanced(s, s1, n) && IsLowest(s.db.txs, n) && AllDeliverable(kind, quote, s)
    ensures AllDeliverable(kind, quote, s1)
  {
    hide Deliverable;
    forall i | 0 <= i < |s1.db.txs| && s1.db.txs[i].state.Pending?
        ensures Deliverable(kind, quote, s1, s1.db.txs[i].nonce) {
      assert s1.db.txs[i] == s.db.txs[i] && s.db.txs[i].nonce > n;
      DeliverableLater(kind, quote, s, s1, n, s.db.txs[i].nonce);
    }
  }

  lemma ClearedStep(s: State, s1: State, s': State, n: nat)
    requires Advanced(s, s1, n) && Cleared(s1, s')
    requires forall i :: 0 <= i < |s.db.txs| ==> SameTransaction(s.db.txs[i], s1.db.txs[i])
    ensures Cleared(s, s')
  {}

  /**
    With true nonces a history, however it stopped, goes on to one with nothing pending if every pending
    nonce can be delivered.  No token moves on the way.
    */
  lemma {:induction false} ClearPending(kind: Kind, quote: int -> Decimal, genesis: State, log: seq<Event>, from: nat)
      returns (log': seq<Event>)
    requires IsGenesis(genesis) && Follows(kind, quote, genesis, log, from) && TruthfulNonces(genesis, log[..from])
    requires AllDeliverable(kind, quote, Replay(genesis, log))
    ensures log <= log' && Follows(kind, quote, genesis, log', from)
    ensures !AnyInFlight(Replay(genesis, log').db.txs) && Cleared(Replay(genesis, log), Replay(genesis, log'))
    decreases |PendingSet(Replay(genesis, log).db.txs)|
  {
    hide IsGenesis, Replay, WonByPending, Legal, ActsAs, TruthfulNonces, AllDeliverable, Cleared, UsedUp, Gap,
      Deliverable, LeftToItself;
    var s := Replay(genesis, log);
    if !AnyInFlight(s.db.txs) {
      Unchanged(s);
      return log;
    }
    var i :| 0 <= i < |s.db.txs| && s.db.txs[i].state.Pending?;
    var n := LowestPending(s.db.txs, i);
    TruthfulUsable(genesis, log, n);
    LowestDeliverable(kind, quote, s, n);
    hide Follows, AnyInFlight, IsLowest;
    var log1 := SettleLowest(kind, quote, genesis, log, from, n);
    var s1 := Replay(genesis, log1);
    LowestIsInFlight(s.db.txs, n);
    AdvancedShrinks(s, s1, n);
    AdvancedStep(kind, quote, s, s1, n);
    hide Advanced;
    FollowedFrom(kind, quote, genesis, log1, from);
    FollowedFrom(kind, quote, genesis, log, from);
    assert log1[..from] == log[..from];
    RowsKept(kind, quote, genesis, log, log1, from);
    log' := ClearPending(kind, quote, genesis, log1, from);
    ClearedStep(s, s1, Replay(genesis, log'), n);
  }

  lemma Unchanged(s: State)
    ensures Cleared(s, s)
  {}

  lemma LowestIsInFlight(txs: seq<TxRow>, n: nat)
    requires IsLowest(txs, n)
    ensures InFlight(txs, n)
  {}

  lemma LowestDeliverable(kind: Kind, quote: int -> Decimal, s: State, n: nat)
    requires IsLowest(s.db.txs, n) && AllDeliverable(kind, quote, s)
    ensures Deliverable(kind, quote, s, n)
  {}

  lemma FollowedActs(kind: Kind, quote: int -> Decimal, genesis: State, log: seq<Event>, from: nat)
    requires Follows(kind, quote, genesis, log, from)
    ensures Legal(genesis, log) && ActsAs(kind, genesis, log, from) && LeftToItself(kind, quote, genesis, log, from)
  {}

  lemma FollowedFrom(kind: Kind, quote: int -> Decimal, genesis: State, log: seq<Event>, from: nat)
    requires Follows(kind, quote, genesis, log, from)
    ensures from <= |log| && Legal(genesis, log)
  {}

  lemma RowsKept(kind: Kind, quote: int -> Decimal, genesis: State, log: seq<Event>, log1: seq<Event>, from: nat)
    requires IsGenesis(genesis) && Follows(kind, quote, genesis, log1, from) && log <= log1
    ensures |Replay(genesis, log).db.txs| <= |Replay(genesis, log1).db.txs|
    ensures forall i :: 0 <= i < |Replay(genesis, log).db.txs| ==>
              SameTransaction(Replay(genesis, log).db.txs[i], Replay(genesis, log1).db.txs[i])
  {
    hide IsGenesis, Replay, Legal, SameTransaction;
    assert log1[..|log|] == log;
    forall i | 0 <= i < |Replay(genesis, log).db.txs|
      ensures i < |Replay(genesis, log1).db.txs|
              && SameTransaction(Replay(genesis, log).db.txs[i], Replay(genesis, log1).db.txs[i])
    {
      RowsSettleOnce(genesis, log1, |log|, i);
    }
    var n := |Replay(genesis, log).db.txs|;
    if n > 0 { RowsSettleOnce(genesis, log1, |log|, n - 1); }
  }
}
