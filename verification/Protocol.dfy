/**
  The payout protocol as a state machine: the database, the chain and the clock, the atomic steps that
  the program and its environment take, and the invariant that every step keeps.  A crash is not a step:
  what survives it is the state, so whatever holds after every log of steps holds after every crash.
  */
module Protocol {
  import opened Wrappers
  import opened Money
  import opened Tables
  import Ledger

  const MILLISECOND: nat := 1_000_000
  const NOT_DROPPED_UNTIL: nat := 30_000_000_000

  /** `sent` are the transactions that ever reached a node; `mined` the receipt at each mined nonce. */
  datatype Chain = Chain(
    owner: Address, spender: Address, decimals: int,
    next: nat, sent: set<Hash>, mined: map<nat, Receipt>, ledger: Ledger.Ledger)

  datatype State = State(db: Tables, chain: Chain, now: nat)

  datatype Event =
    | Create(row: TxRow)
    | Broadcast(hash: Hash)
    | Mine(hash: Hash, success: bool)
    | Finalize(nonce: nat, group: int, statuses: seq<TxStatus>, winner: nat)
    | Tick(ns: nat)
    | External(sender: Address, call: Ledger.Call)

  function Truncate(t: nat): nat {
    t - t % MILLISECOND
  }

  /** The token call inside a payout transaction. */
  function PayoutCall(chain: Chain, body: TxBody): Ledger.Call
    requires body.tokens >= 0
  {
    if chain.owner == chain.spender then Ledger.Transfer(body.payee, body.tokens)
    else Ledger.TransferFrom(chain.owner, body.payee, body.tokens)
  }

  /** The ledger after the payout call went through; a reverted transaction leaves it alone. */
  function AfterMine(chain: Chain, hash: Hash, success: bool): Option<Ledger.Ledger> {
    if !success then Some(chain.ledger)
    else if hash.body.tokens < 0 then None
    else Ledger.Exec(chain.ledger, chain.spender, PayoutCall(chain, hash.body))
  }

  /** A new row is recorded now, pending, and repeats its transaction's contents. */
  predicate RowIsFresh(s: State, row: TxRow) {
    && row.state.Pending? && row.receipt.None?
    && row.nonce == row.hash.body.nonce && row.tokens == row.hash.body.tokens && row.tokens > 0
    && row.createdAt == Truncate(s.now)
    && !InTable(s.db.txs, row.hash)
    && Unfinished(s.db, row.group)
  }

  /** The transaction pays the one payout of its group, at the recorded price. */
  predicate RowPaysPayout(s: State, row: TxRow) {
    var payouts := PayoutsOf(s.db.payouts, row.group);
    && |payouts| == 1
    && row.hash.body.payee == payouts[0].payee
    && FromUSD(payouts[0].usd, row.price, s.chain.decimals) == Some(row.tokens)
  }

  /** A group without pending row is attached, right above the pending nonces if there are any. */
  predicate IsAttach(s: State, group: int, nonce: nat) {
    && !Attached(s.db.txs, group)
    && (forall i :: 0 <= i < |s.db.txs| && s.db.txs[i].state.Pending? ==> s.db.txs[i].nonce < nonce)
    && (AnyInFlight(s.db.txs) ==> nonce > 0 && InFlight(s.db.txs, nonce - 1))
  }

  /** Another transaction for a nonce whose rows are all old enough to count as dropped. */
  predicate IsResend(s: State, group: int, nonce: nat) {
    && (exists i :: 0 <= i < |s.db.txs| && s.db.txs[i].state.Pending?
          && s.db.txs[i].nonce == nonce && s.db.txs[i].group == group)
    && (forall i :: 0 <= i < |s.db.txs| && s.db.txs[i].state.Pending? && s.db.txs[i].nonce == nonce ==>
          s.db.txs[i].createdAt + NOT_DROPPED_UNTIL <= s.now)
  }

  predicate CanCreate(s: State, row: TxRow) {
    RowIsFresh(s, row) && RowPaysPayout(s, row)
        && (IsAttach(s, row.group, row.nonce) || IsResend(s, row.group, row.nonce))
  }

  /** The lowest pending nonce is settled with a receipt of the chain. */
  predicate CanFinalize(s: State, nonce: nat, group: int, statuses: seq<TxStatus>, winner: nat) {
    && nonce in s.chain.mined
    && CoversNonce(s.db, nonce, statuses) && OneWinner(statuses, winner, s.chain.mined[nonce])
    && (forall i :: 0 <= i < |s.db.txs| && s.db.txs[i].state.Pending? ==>
          nonce <= s.db.txs[i].nonce && (s.db.txs[i].nonce == nonce ==> s.db.txs[i].group == group))
  }

  predicate Enabled(s: State, e: Event) {
    match e
    case Create(row) => CanCreate(s, row)
    case Broadcast(hash) => InTable(s.db.txs, hash)
    case Mine(hash, success) =>
      hash in s.chain.sent && hash.body.nonce == s.chain.next && AfterMine(s.chain, hash, success).Some?
    case Finalize(nonce, group, statuses, winner) => CanFinalize(s, nonce, group, statuses, winner)
    case Tick(_) => true
    case External(sender, call) => Ledger.Exec(s.chain.ledger, sender, call).Some?
  }

  function MineOn(chain: Chain, hash: Hash, success: bool): Chain {
    chain.(next := chain.next + 1,
           mined := chain.mined[chain.next := Receipt(hash, success)],
           ledger := match AfterMine(chain, hash, success) case Some(l) => l case None => chain.ledger)
  }

  function Apply(s: State, e: Event): State {
    match e
    case Create(row) => s.(db := s.db.(txs := s.db.txs + [row]))
    case Broadcast(hash) => s.(chain := s.chain.(sent := s.chain.sent + {hash}))
    case Mine(hash, success) => s.(chain := MineOn(s.chain, hash, success))
    case Finalize(nonce, group, statuses, winner) => s.(db := ApplyStatuses(s.db, group, statuses))
    case Tick(ns) => s.(now := s.now + ns)
    case External(sender, call) =>
      s.(chain := s.chain.(ledger := Ledger.Step(s.chain.ledger, sender, call)))
  }

  function Replay(genesis: State, log: seq<Event>): State {
    if log == [] then genesis else Apply(Replay(genesis, log[..|log| - 1]), log[|log| - 1])
  }

  /** Every step of the log was possible when it was taken. */
  predicate Legal(genesis: State, log: seq<Event>) {
    log == [] || (Legal(genesis, log[..|log| - 1]) && Enabled(Replay(genesis, log[..|log| - 1]), log[|log| - 1]))
  }

  /** A freshly imported database and an account that never sent a payout. */
  ghost predicate IsGenesis(s: State) {
    && s.db.txs == [] && (forall g <- s.db.finals :: s.db.finals[g].None?)
    && s.chain.sent == {} && s.chain.mined == map[]
    && (forall i :: 0 <= i < |s.db.payouts| ==> s.db.payouts[i].usd.coef > 0 && s.db.payouts[i].group in s.db.finals)
    && Ledger.Conserved(s.chain.ledger)
  }

  // ---------------------------------------------------------------- the invariant

  /** UNIQUE(hash), and each row repeats the contents of its transaction. */
  predicate RowsInv(db: Tables) {
    && (forall i, j :: 0 <= i < j < |db.txs| ==> db.txs[i].hash != db.txs[j].hash)
    && (forall i :: 0 <= i < |db.txs| ==>
          && db.txs[i].nonce == db.txs[i].hash.body.nonce
          && db.txs[i].tokens == db.txs[i].hash.body.tokens > 0
          && db.txs[i].group in db.finals
          && (db.txs[i].state.Pending? ==> db.txs[i].receipt.None?))
  }

  /** What the chain knows about a row that left "pending". */
  predicate RowTruth(row: TxRow, mined: map<nat, Receipt>) {
    match row.state
    case Pending => true
    case Confirmed => row.nonce in mined && mined[row.nonce] == Receipt(row.hash, true)
        && row.receipt == Some(mined[row.nonce])
    case Failed => row.nonce in mined && mined[row.nonce] == Receipt(row.hash, false)
        && row.receipt == Some(mined[row.nonce])
    case Dropped => row.nonce in mined && mined[row.nonce].hash != row.hash
  }

  predicate TruthInv(txs: seq<TxRow>, mined: map<nat, Receipt>) {
    forall i :: 0 <= i < |txs| ==> RowTruth(txs[i], mined)
  }

  predicate ConfirmedRow(txs: seq<TxRow>, group: int, hash: Hash) {
    exists i :: 0 <= i < |txs| && txs[i].state.Confirmed? && txs[i].group == group && txs[i].hash == hash
  }

  /** A group has a final hash iff it has a confirmed row, which carries that hash. */
  predicate FinalsInv(db: Tables) {
    && (forall i :: 0 <= i < |db.txs| && db.txs[i].state.Confirmed? && db.txs[i].group in db.finals ==>
          db.finals[db.txs[i].group] == Some(db.txs[i].hash))
    && (forall g <- db.finals :: db.finals[g].Some? ==> ConfirmedRow(db.txs, g, db.finals[g].value))
  }

  /** Pending rows pay unfinished groups, and rows of one nonce are the rows of one group. */
  predicate PendingInv(db: Tables) {
    && (forall i :: 0 <= i < |db.txs| && db.txs[i].state.Pending? ==> Unfinished(db, db.txs[i].group))
    && (forall i, j :: 0 <= i < |db.txs| && 0 <= j < |db.txs|
                       && db.txs[i].state.Pending? && db.txs[j].state.Pending? ==>
          (db.txs[i].nonce == db.txs[j].nonce <==> db.txs[i].group == db.txs[j].group))
  }

  /** The pending nonces leave no gap. */
  predicate ContiguousInv(txs: seq<TxRow>) {
    forall i, j, n: nat :: (0 <= i < |txs| && 0 <= j < |txs| && txs[i].state.Pending? && txs[j].state.Pending?
                            && txs[i].nonce <= n <= txs[j].nonce) ==> InFlight(txs, n)
  }

  /** Only recorded transactions are sent, only sent ones are mined, each at its own nonce. */
  predicate ChainInv(txs: seq<TxRow>, chain: Chain) {
    && (forall h <- chain.sent :: InTable(txs, h))
    && (forall n <- chain.mined ::
          n < chain.next && chain.mined[n].hash in chain.sent && chain.mined[n].hash.body.nonce == n)
  }

  /** A dropped row lost its nonce to a settled row of the same group. */
  predicate DroppedInv(txs: seq<TxRow>, mined: map<nat, Receipt>) {
    forall i, j :: (0 <= i < |txs| && 0 <= j < |txs| && txs[i].state.Dropped? && txs[i].nonce in mined
                    && mined[txs[i].nonce].hash == txs[j].hash) ==>
                        txs[j].group == txs[i].group && !txs[j].state.Pending?
  }

  /** Transactions that are pending for one nonce were recorded at least 30 seconds apart. */
  predicate SpacedInv(txs: seq<TxRow>, now: nat) {
    && (forall i :: 0 <= i < |txs| ==> txs[i].createdAt <= now && txs[i].createdAt % MILLISECOND == 0)
    && (forall i, j :: 0 <= i < j < |txs| && txs[i].nonce == txs[j].nonce
                       && txs[i].state.Pending? && txs[j].state.Pending? ==>
          txs[i].createdAt + NOT_DROPPED_UNTIL <= txs[j].createdAt)
  }

  predicate Inv(s: State) {
    && RowsInv(s.db) && TruthInv(s.db.txs, s.chain.mined) && FinalsInv(s.db) && PendingInv(s.db)
    && ContiguousInv(s.db.txs) && ChainInv(s.db.txs, s.chain) && DroppedInv(s.db.txs, s.chain.mined)
    && SpacedInv(s.db.txs, s.now)
  }

  // ---------------------------------------------------------------- a new row

  lemma CreateKeepsRows(db: Tables, row: TxRow)
    requires RowsInv(db) && !InTable(db.txs, row.hash) && row.group in db.finals
    requires row.nonce == row.hash.body.nonce && row.tokens == row.hash.body.tokens > 0 && row.receipt.None?
    ensures RowsInv(db.(txs := db.txs + [row]))
  {}

  lemma CreateKeepsFinals(db: Tables, row: TxRow)
    requires FinalsInv(db) && row.state.Pending?
    ensures FinalsInv(db.(txs := db.txs + [row]))
  {
    var db' := db.(txs := db.txs + [row]);
    forall g <- db'.finals | db'.finals[g].Some? ensures ConfirmedRow(db'.txs, g, db'.finals[g].value) {
      var i :| 0 <= i < |db.txs| && db.txs[i].state.Confirmed? && db.txs[i].group == g
          && db.txs[i].hash == db.finals[g].value;
      assert db'.txs[i] == db.txs[i];
    }
  }

  lemma CreateKeepsPending(s: State, row: TxRow)
    requires PendingInv(s.db) && row.state.Pending? && Unfinished(s.db, row.group)
    requires IsAttach(s, row.group, row.nonce) || IsResend(s, row.group, row.nonce)
    ensures PendingInv(s.db.(txs := s.db.txs + [row]))
  {}

  lemma InFlightGrows(txs: seq<TxRow>, row: TxRow, n: nat)
    requires InFlight(txs, n)
    ensures InFlight(txs + [row], n)
  {
    var i :| 0 <= i < |txs| && txs[i].state.Pending? && txs[i].nonce == n;
    assert (txs + [row])[i] == txs[i];
  }

  lemma CreateKeepsContiguous(s: State, row: TxRow)
    requires ContiguousInv(s.db.txs) && row.state.Pending?
               && (IsAttach(s, row.group, row.nonce) || IsResend(s, row.group, row.nonce))
    ensures ContiguousInv(s.db.txs + [row])
  {
    var txs := s.db.txs;
    var txs' := txs + [row];
    forall i, j, n: nat | 0 <= i < |txs'| && 0 <= j < |txs'| && txs'[i].state.Pending? && txs'[j].state.Pending?
      && txs'[i].nonce <= n <= txs'[j].nonce
      ensures InFlight(txs', n)
    {
      if n == row.nonce {
        assert txs'[|txs|] == row;
      } else if IsResend(s, row.group, row.nonce) {
        var k :| 0 <= k < |txs| && txs[k].state.Pending? && txs[k].nonce == row.nonce;
        assert InFlight(txs, n) by {
          var i', j' := if i < |txs| then i else k, if j < |txs| then j else k;
          assert txs[i'].nonce <= n <= txs[j'].nonce;
        }
        InFlightGrows(txs, row, n);
      } else {
        assert i < |txs|;
        var k :| 0 <= k < |txs| && txs[k].state.Pending? && txs[k].nonce == row.nonce - 1;
        assert txs[i].nonce <= n <= txs[k].nonce;
        InFlightGrows(txs, row, n);
      }
    }
  }

  lemma InTableGrows(txs: seq<TxRow>, row: TxRow, h: Hash)
    requires InTable(txs, h)
    ensures InTable(txs + [row], h)
  {
    var i :| 0 <= i < |txs| && txs[i].hash == h;
    assert (txs + [row])[i] == txs[i];
  }

  lemma CreateKeepsChain(txs: seq<TxRow>, chain: Chain, row: TxRow)
    requires ChainInv(txs, chain)
    ensures ChainInv(txs + [row], chain)
  {
    forall h <- chain.sent ensures InTable(txs + [row], h) { InTableGrows(txs, row, h); }
  }

  lemma CreateKeepsDropped(txs: seq<TxRow>, chain: Chain, row: TxRow)
    requires ChainInv(txs, chain) && DroppedInv(txs, chain.mined)
    requires row.state.Pending? && !InTable(txs, row.hash)
    ensures DroppedInv(txs + [row], chain.mined)
  {
    assert row.hash !in chain.sent;
  }

  lemma TruncateIsExact(t: nat, now: nat)
    requires t % MILLISECOND == 0 && t + NOT_DROPPED_UNTIL <= now
    ensures t + NOT_DROPPED_UNTIL <= Truncate(now)
  {}

  lemma TruncateBounds(now: nat)
    ensures Truncate(now) <= now && Truncate(now) % MILLISECOND == 0
  {}

  lemma CreateKeepsSpaced(s: State, row: TxRow)
    requires SpacedInv(s.db.txs, s.now) && row.createdAt == Truncate(s.now)
    requires IsAttach(s, row.group, row.nonce) || IsResend(s, row.group, row.nonce)
    ensures SpacedInv(s.db.txs + [row], s.now)
  {
    TruncateBounds(s.now);
    forall i | 0 <= i < |s.db.txs| && s.db.txs[i].state.Pending? && s.db.txs[i].nonce == row.nonce
      ensures s.db.txs[i].createdAt + NOT_DROPPED_UNTIL <= row.createdAt
    {
      assert IsResend(s, row.group, row.nonce);
      TruncateIsExact(s.db.txs[i].createdAt, s.now);
    }
  }

  lemma CreateKeepsInv(s: State, row: TxRow)
    requires Inv(s) && CanCreate(s, row)
    ensures Inv(Apply(s, Create(row)))
  {
    hide IsAttach, IsResend, RowPaysPayout, RowsInv, FinalsInv, PendingInv, ContiguousInv, ChainInv, DroppedInv,
      SpacedInv, InTable;
    CreateKeepsRows(s.db, row);
    CreateKeepsFinals(s.db, row);
    CreateKeepsPending(s, row);
    CreateKeepsContiguous(s, row);
    CreateKeepsChain(s.db.txs, s.chain, row);
    CreateKeepsDropped(s.db.txs, s.chain, row);
    CreateKeepsSpaced(s, row);
  }

  // ---------------------------------------------------------------- a mined transaction

  lemma MineKeepsInv(s: State, hash: Hash, success: bool)
    requires Inv(s) && Enabled(s, Mine(hash, success))
    ensures Inv(Apply(s, Mine(hash, success)))
  {
    hide RowsInv, FinalsInv, PendingInv, ContiguousInv, SpacedInv, InTable, AfterMine;
    var s' := Apply(s, Mine(hash, success));
    assert s.chain.next !in s.chain.mined;
    MineKeepsTruth(s.db.txs, s.chain.mined, s.chain.next, Receipt(hash, success));
    MineKeepsDropped(s.db.txs, s.chain.mined, s.chain.next, Receipt(hash, success));
    MineKeepsChain(s.db.txs, s.chain, hash, success);
  }

  lemma MineKeepsTruth(txs: seq<TxRow>, mined: map<nat, Receipt>, n: nat, receipt: Receipt)
    requires TruthInv(txs, mined) && n !in mined
    ensures TruthInv(txs, mined[n := receipt])
  {}

  lemma MineKeepsDropped(txs: seq<TxRow>, mined: map<nat, Receipt>, n: nat, receipt: Receipt)
    requires TruthInv(txs, mined) && DroppedInv(txs, mined) && n !in mined
    ensures DroppedInv(txs, mined[n := receipt])
  {
    forall i | 0 <= i < |txs| && txs[i].state.Dropped? ensures txs[i].nonce != n { assert RowTruth(txs[i], mined); }
  }

  lemma MineKeepsChain(txs: seq<TxRow>, chain: Chain, hash: Hash, success: bool)
    requires ChainInv(txs, chain) && hash in chain.sent && hash.body.nonce == chain.next
    ensures ChainInv(txs, MineOn(chain, hash, success))
  {
    hide InTable, AfterMine;
  }

  // ---------------------------------------------------------------- a settled nonce

  lemma SettleKeepsRows(db: Tables, nonce: nat, group: int, receipt: Receipt)
    requires RowsInv(db)
    ensures RowsInv(Settle(db, nonce, group, receipt))
  {}

  lemma SettleKeepsTruth(db: Tables, nonce: nat, group: int, mined: map<nat, Receipt>)
    requires TruthInv(db.txs, mined) && nonce in mined
    ensures TruthInv(Settle(db, nonce, group, mined[nonce]).txs, mined)
  {}

  lemma SettleKeepsPending(db: Tables, nonce: nat, group: int, receipt: Receipt)
    requires PendingInv(db)
    requires exists w :: 0 <= w < |db.txs| && db.txs[w].state.Pending? && db.txs[w].nonce == nonce
               && db.txs[w].group == group
    ensures PendingInv(Settle(db, nonce, group, receipt))
  {}

  lemma SettleKeepsContiguous(db: Tables, nonce: nat, group: int, receipt: Receipt)
    requires ContiguousInv(db.txs)
    requires forall i :: 0 <= i < |db.txs| && db.txs[i].state.Pending? ==> nonce <= db.txs[i].nonce
    ensures ContiguousInv(Settle(db, nonce, group, receipt).txs)
  {
    var txs, txs' := db.txs, Settle(db, nonce, group, receipt).txs;
    forall i, j, n: nat | 0 <= i < |txs'| && 0 <= j < |txs'| && txs'[i].state.Pending? && txs'[j].state.Pending?
      && txs'[i].nonce <= n <= txs'[j].nonce
      ensures InFlight(txs', n)
    {
      assert txs[i] == txs'[i] && txs[j] == txs'[j];
      assert InFlight(txs, n);
      var k :| 0 <= k < |txs| && txs[k].state.Pending? && txs[k].nonce == n;
      assert txs'[k] == txs[k];
    }
  }

  lemma SettleKeepsInTable(db: Tables, nonce: nat, group: int, receipt: Receipt, h: Hash)
    requires InTable(db.txs, h)
    ensures InTable(Settle(db, nonce, group, receipt).txs, h)
  {
    var i :| 0 <= i < |db.txs| && db.txs[i].hash == h;
    assert Settle(db, nonce, group, receipt).txs[i].hash == h;
  }

  lemma SettleKeepsChain(db: Tables, nonce: nat, group: int, receipt: Receipt, chain: Chain)
    requires ChainInv(db.txs, chain)
    ensures ChainInv(Settle(db, nonce, group, receipt).txs, chain)
  {
    forall h <- chain.sent ensures InTable(Settle(db, nonce, group, receipt).txs, h) {
      SettleKeepsInTable(db, nonce, group, receipt, h);
    }
  }

  lemma SettleKeepsDropped(db: Tables, nonce: nat, group: int, mined: map<nat, Receipt>)
    requires DroppedInv(db.txs, mined) && RowsInv(db) && PendingInv(db) && nonce in mined
    requires exists w :: 0 <= w < |db.txs| && db.txs[w].state.Pending? && db.txs[w].nonce == nonce
               && db.txs[w].hash == mined[nonce].hash
    ensures DroppedInv(Settle(db, nonce, group, mined[nonce]).txs, mined)
  {
    var txs, txs' := db.txs, Settle(db, nonce, group, mined[nonce]).txs;
    var w :| 0 <= w < |txs| && txs[w].state.Pending? && txs[w].nonce == nonce && txs[w].hash == mined[nonce].hash;
    forall i, j | 0 <= i < |txs'| && 0 <= j < |txs'| && txs'[i].state.Dropped? && txs'[i].nonce in mined
      && mined[txs'[i].nonce].hash == txs'[j].hash
      ensures txs'[j].group == txs'[i].group && !txs'[j].state.Pending?
    {
      if txs[i].state.Pending? { assert j == w; }
    }
  }

  lemma SettleKeepsSpaced(db: Tables, nonce: nat, group: int, receipt: Receipt, now: nat)
    requires SpacedInv(db.txs, now)
    ensures SpacedInv(Settle(db, nonce, group, receipt).txs, now)
  {}

  lemma SettleKeepsConfirmed(db: Tables, nonce: nat, group: int, receipt: Receipt, g: int, h: Hash)
    requires ConfirmedRow(db.txs, g, h)
    ensures ConfirmedRow(Settle(db, nonce, group, receipt).txs, g, h)
  {
    var i :| 0 <= i < |db.txs| && db.txs[i].state.Confirmed? && db.txs[i].group == g && db.txs[i].hash == h;
    assert Settle(db, nonce, group, receipt).txs[i] == db.txs[i];
  }

  lemma SettleKeepsFinals(db: Tables, nonce: nat, group: int, receipt: Receipt, w: nat)
    requires FinalsInv(db) && PendingInv(db) && RowsInv(db)
    requires w < |db.txs| && db.txs[w].state.Pending? && db.txs[w].nonce == nonce
    requires db.txs[w].group == group && db.txs[w].hash == receipt.hash
    ensures FinalsInv(Settle(db, nonce, group, receipt))
  {
    var db' := Settle(db, nonce, group, receipt);
    forall g <- db'.finals | db'.finals[g].Some? ensures ConfirmedRow(db'.txs, g, db'.finals[g].value) {
      if receipt.success && g == group {
        assert db'.txs[w].state.Confirmed?;
      } else {
        SettleKeepsConfirmed(db, nonce, group, receipt, g, db.finals[g].value);
      }
    }
    forall i | 0 <= i < |db'.txs| && db'.txs[i].state.Confirmed? && db'.txs[i].group in db'.finals
      ensures db'.finals[db'.txs[i].group] == Some(db'.txs[i].hash)
    {
      if db.txs[i].state.Confirmed? { assert db.txs[i].group != group; }
      else { assert i == w; }
    }
  }

  /** The row of the mined transaction is the pending row that wins. */
  lemma WinnerRow(s: State, nonce: nat, group: int, statuses: seq<TxStatus>, winner: nat) returns (w: nat)
    requires CanFinalize(s, nonce, group, statuses, winner)
    requires Inv(s)
    ensures w < |s.db.txs| && s.db.txs[w].state.Pending? && s.db.txs[w].nonce == nonce
    ensures s.db.txs[w].group == group && s.db.txs[w].hash == s.chain.mined[nonce].hash
  {
    hide RowsInv, FinalsInv, PendingInv, ContiguousInv, DroppedInv, SpacedInv, TruthInv;
    var h := s.chain.mined[nonce].hash;
    assert InTable(s.db.txs, h);
    w :| 0 <= w < |s.db.txs| && s.db.txs[w].hash == h;
    assert statuses[winner].hash == h;
    assert Covers(statuses, s.db.txs[w].hash);
  }

  lemma PendingHasNoReceipt(db: Tables)
    requires RowsInv(db)
    ensures forall i :: 0 <= i < |db.txs| && db.txs[i].state.Pending? ==> db.txs[i].receipt.None?
  {}

  lemma FinalizeSettles(s: State, nonce: nat, group: int, statuses: seq<TxStatus>, winner: nat)
    requires Inv(s) && CanFinalize(s, nonce, group, statuses, winner)
    ensures ApplyStatuses(s.db, group, statuses) == Settle(s.db, nonce, group, s.chain.mined[nonce])
  {
    hide RowsInv, FinalsInv, PendingInv, ContiguousInv, DroppedInv, SpacedInv, TruthInv, ChainInv, CoversNonce,
      OneWinner;
    PendingHasNoReceipt(s.db);
    ApplyStatusesSettles(s.db, nonce, group, statuses, winner, s.chain.mined[nonce]);
  }

  lemma FinalizeKeepsInv(s: State, nonce: nat, group: int, statuses: seq<TxStatus>, winner: nat)
    requires Inv(s) && CanFinalize(s, nonce, group, statuses, winner)
    ensures Inv(Apply(s, Finalize(nonce, group, statuses, winner)))
  {
    hide RowsInv, FinalsInv, PendingInv, ContiguousInv, DroppedInv, SpacedInv, TruthInv, ChainInv, CoversNonce,
      OneWinner, Settle;
    var w := WinnerRow(s, nonce, group, statuses, winner);
    var mined := s.chain.mined;
    FinalizeSettles(s, nonce, group, statuses, winner);
    SettleKeepsRows(s.db, nonce, group, mined[nonce]);
    SettleKeepsTruth(s.db, nonce, group, mined);
    SettleKeepsFinals(s.db, nonce, group, mined[nonce], w);
    SettleKeepsPending(s.db, nonce, group, mined[nonce]);
    SettleKeepsContiguous(s.db, nonce, group, mined[nonce]);
    SettleKeepsChain(s.db, nonce, group, mined[nonce], s.chain);
    SettleKeepsDropped(s.db, nonce, group, mined);
    SettleKeepsSpaced(s.db, nonce, group, mined[nonce], s.now);
  }

  // ---------------------------------------------------------------- all steps

  lemma TickKeepsSpaced(txs: seq<TxRow>, now: nat, ns: nat)
    requires SpacedInv(txs, now)
    ensures SpacedInv(txs, now + ns)
  {}

  lemma BroadcastKeepsChain(txs: seq<TxRow>, chain: Chain, hash: Hash)
    requires ChainInv(txs, chain) && InTable(txs, hash)
    ensures ChainInv(txs, chain.(sent := chain.sent + {hash}))
  {
    hide InTable;
  }

  /** Every step keeps the invariant. */
  lemma StepKeepsInv(s: State, e: Event)
    requires Inv(s) && Enabled(s, e)
    ensures Inv(Apply(s, e))
  {
    match e
    case Create(row) => CreateKeepsInv(s, row);
    case Mine(hash, success) => MineKeepsInv(s, hash, success);
    case Finalize(nonce, group, statuses, winner) => FinalizeKeepsInv(s, nonce, group, statuses, winner);
    case Broadcast(hash) =>
      hide RowsInv, FinalsInv, PendingInv, ContiguousInv, DroppedInv, SpacedInv, TruthInv, ChainInv, InTable;
      BroadcastKeepsChain(s.db.txs, s.chain, hash);
    case Tick(ns) =>
      hide RowsInv, FinalsInv, PendingInv, ContiguousInv, DroppedInv, SpacedInv, TruthInv, ChainInv;
      TickKeepsSpaced(s.db.txs, s.now, ns);
    case External(sender, call) =>
      hide RowsInv, FinalsInv, PendingInv, ContiguousInv, DroppedInv, SpacedInv, TruthInv;
  }

  /** Payouts and the set of groups are as imported. */
  lemma ImportedDataStays(genesis: State, log: seq<Event>)
    ensures Replay(genesis, log).db.payouts == genesis.db.payouts
    ensures Replay(genesis, log).db.finals.Keys == genesis.db.finals.Keys
  {
    hide AfterMine, Ledger.Exec;
    if log != [] { ImportedDataStays(genesis, log[..|log| - 1]); }
  }

  lemma GenesisInv(s: State)
    requires IsGenesis(s)
    ensures Inv(s)
  {}

  /** The invariant holds after every legal log: in every reachable state, crashes and restarts included. */
  lemma {:induction false} LegalInv(genesis: State, log: seq<Event>)
    requires IsGenesis(genesis) && Legal(genesis, log)
    ensures Inv(Replay(genesis, log))
  {
    hide Inv, IsGenesis, Enabled, Apply;
    if log == [] {
      GenesisInv(genesis);
    } else {
      LegalInv(genesis, log[..|log| - 1]);
      StepKeepsInv(Replay(genesis, log[..|log| - 1]), log[|log| - 1]);
    }
  }
}
