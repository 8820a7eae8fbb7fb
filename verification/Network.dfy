/**
  The chain and an unreliable node in front of it.  Between any two instructions of the program the
  environment may act and the process may be killed; answers other than receipts are arbitrary.
  */
module Network {
  import opened Wrappers
  import opened Tables
  import opened Protocol
  import opened Money
  import opened Database

  predicate IsEnvironment(e: Event) {
    e.Mine? || e.Tick? || e.External?
  }

  /** From an index on, the log holds steps of the environment only. */
  predicate OnlyEnvironment(log: seq<Event>, from: nat) {
    forall i :: from <= i < |log| ==> IsEnvironment(log[i])
  }

  /** A later state of the same chain: receipts are final. */
  predicate Later(a: Chain, b: Chain) {
    && a.owner == b.owner && a.spender == b.spender && a.decimals == b.decimals && a.sent <= b.sent
    && forall n <- a.mined :: n in b.mined && b.mined[n] == a.mined[n]
  }

  lemma LaterStill(a: Chain, b: Chain, c: Chain)
    requires Later(a, b) && Later(b, c)
    ensures Later(a, c)
  {}

  lemma OnlyEnvironmentStill(a: seq<Event>, b: seq<Event>, from: nat)
    requires a <= b && from <= |a| && OnlyEnvironment(a, from) && OnlyEnvironment(b, |a|)
    ensures OnlyEnvironment(b, from)
  {
    forall i | from <= i < |a| ensures IsEnvironment(b[i]) { assert b[i] == a[i]; }
  }

  datatype Lookup = RpcError | NotFound | InPool | Known

  /** An answer to a lookup, with what was true of the transaction then: it had reached a node, it was mined. */
  datatype LookedUp = LookedUp(hash: Hash, answer: Lookup, sent: bool, mined: bool)

  /** "Not found" is said of transactions that never reached a node, "in the pool" of unmined ones that did. */
  predicate IsHonest(l: LookedUp) {
    (l.answer.NotFound? ==> !l.sent) && (l.answer.InPool? ==> l.sent && !l.mined)
  }

  predicate AllHonest(lookups: seq<LookedUp>) {
    forall k :: 0 <= k < |lookups| ==> IsHonest(lookups[k])
  }

  predicate IsMined(chain: Chain, hash: Hash) {
    hash.body.nonce in chain.mined && chain.mined[hash.body.nonce].hash == hash
  }

  /** Prices, numbers (balances, allowances and nonces) and fees a node gave. */
  datatype Terms = Terms(prices: seq<Decimal>, numbers: seq<nat>, fees: seq<nat>)

  predicate Grew(a: Terms, b: Terms) {
    a.prices <= b.prices && a.numbers <= b.numbers && a.fees <= b.fees
  }

  function Since(a: Terms, b: Terms): Terms
    requires Grew(a, b)
  {
    Terms(b.prices[|a.prices|..], b.numbers[|a.numbers|..], b.fees[|a.fees|..])
  }

  /** What looking a transaction up says about it; a mined one says nothing before its receipt is seen. */
  function LookupTells(hash: Hash, answer: Lookup): seq<TxStatus> {
    match answer
    case NotFound => [TxStatus(hash, Dropped, None)]
    case InPool => [TxStatus(hash, Pending, None)]
    case _ => []
  }

  function ReceiptTells(hash: Hash, answer: Result<Option<Receipt>, Error>): seq<TxStatus> {
    match answer
    case Err(_) => []
    case Ok(None) => [TxStatus(hash, Pending, None)]
    case Ok(Some(receipt)) => [TxStatus(hash, if receipt.success then Confirmed else Failed, Some(receipt))]
  }

  lemma LogGrows(genesis: State, log: seq<Event>, e: Event)
    ensures Replay(genesis, log + [e]) == Apply(Replay(genesis, log), e)
    ensures Legal(genesis, log + [e]) <==> Legal(genesis, log) && Enabled(Replay(genesis, log), e)
  {
    hide Apply, Enabled;
    assert (log + [e])[..|log|] == log;
  }

  class Network {
    const db: DB
    var chain: Chain
    var now: nat
    /** The state at the first start, and every atomic step since, over all processes. */
    ghost const genesis: State
    ghost var log: seq<Event>
    /**
      The conversation with the node: its answers to lookups and for receipts, the statuses these told, the
      numbers, prices and fees it gave, whether preconditions were met, and the transactions it was handed.
      */
    ghost var lookups: seq<LookedUp>
    ghost var receipts: seq<Option<Receipt>>
    ghost var told: seq<TxStatus>
    ghost var numbers: seq<nat>
    ghost var prices: seq<Decimal>
    ghost var fees: seq<nat>
    ghost var met: seq<bool>
    ghost var submitted: seq<Hash>

    /** What went wrong by itself so far. */
    ghost function Faults(): nat
      reads db.faults
    {
      db.faults.count
    }

    ghost function Said(): Terms
      reads this
    {
      Terms(prices, numbers, fees)
    }

    function World(): State
      reads this, db
    {
      Protocol.State(db.State(), chain, now)
    }

    /** The current state is what the log leads to, and every step of the log was possible. */
    ghost predicate Valid()
      reads this, db
    {
      IsGenesis(genesis) && Legal(genesis, log) && World() == Replay(genesis, log)
    }

    constructor (db: DB, chain: Chain, now: nat)
      requires IsGenesis(Protocol.State(db.State(), chain, now))
      ensures Valid() && this.db == db && this.chain == chain && this.now == now && log == []
    {
      this.db, this.chain, this.now := db, chain, now;
      genesis := Protocol.State(db.State(), chain, now);
      log, lookups, receipts, told, numbers, prices, fees, met, submitted := [], [], [], [], [], [], [], [], [];
    }

    /** Notes a step that was just taken. */
    ghost method Record(e: Event)
      requires IsGenesis(genesis) && Legal(genesis, log) && Enabled(Replay(genesis, log), e)
      requires World() == Apply(Replay(genesis, log), e)
      modifies this`log
      ensures Valid() && log == old(log) + [e]
    {
      hide Apply, Enabled;
      LogGrows(genesis, log, e);
      log := log + [e];
    }

    /** Time passes, transactions are mined, others use the token; perhaps the process dies here. */
    method Interfere() returns (killed: bool)
      requires Valid()
      modifies this`log, this`chain, this`now, db.faults
      ensures Valid() && old(log) <= log && OnlyEnvironment(log, |old(log)|)
      ensures Later(old(chain), chain) && chain.sent == old(chain.sent) && old(now) <= now
      ensures Faults() == if killed then old(Faults()) + 1 else old(Faults())
    {
      var steps: nat := *;
      while steps > 0
        invariant Valid() && old(log) <= log && OnlyEnvironment(log, |old(log)|)
        invariant Later(old(chain), chain) && chain.sent == old(chain.sent) && old(now) <= now
        invariant Faults() == old(Faults())
      {
        var e: Event := *;
        EnvironmentStep(e);
        steps := steps - 1;
      }
      killed := *;
      if killed { db.faults.Add(); }
    }

    method EnvironmentStep(e: Event)
      requires Valid()
      modifies this`log, this`chain, this`now
      ensures Valid() && old(log) <= log && OnlyEnvironment(log, |old(log)|)
      ensures Later(old(chain), chain) && chain.sent == old(chain.sent) && old(now) <= now
    {
      if IsEnvironment(e) && Enabled(World(), e) {
        hide Legal, IsGenesis, Replay, AfterMine;
        EnvironmentKeepsTables(World(), e);
        MinedStays(e);
        var s := Apply(World(), e);
        chain, now := s.chain, s.now;
        Record(e);
      }
    }

    lemma MinedStays(e: Event)
      requires Valid() && IsEnvironment(e) && Enabled(World(), e)
      ensures Later(chain, Apply(World(), e).chain) && now <= Apply(World(), e).now
      ensures Apply(World(), e).chain.sent == chain.sent
    {
      LegalInv(genesis, log);
      hide RowsInv, TruthInv, FinalsInv, PendingInv, ContiguousInv, DroppedInv, SpacedInv, Legal, Replay, IsGenesis,
        AfterMine;
      assert chain.next !in chain.mined;
    }

    lemma EnvironmentKeepsTables(s: State, e: Event)
      requires IsEnvironment(e)
      ensures Apply(s, e).db == s.db
    {}

    /** The transaction may or may not reach a node, whatever is answered. */
    method SendTransaction(hash: Hash) returns (ok: bool)
      requires Valid() && InTable(db.txs, hash)
      modifies this`log, this`chain, this`submitted, db.faults
      ensures Valid() && (log == old(log) || log == old(log) + [Broadcast(hash)])
      ensures Later(old(chain), chain) && now == old(now)
      ensures submitted == old(submitted) + [hash]
      ensures Faults() == if ok then old(Faults()) else old(Faults()) + 1
    {
      hide Legal, IsGenesis, Replay, InTable;
      submitted := submitted + [hash];
      var delivered: bool := *;
      if delivered {
        chain := chain.(sent := chain.sent + {hash});
        Record(Broadcast(hash));
      }
      ok := *;
      if !ok { db.faults.Add(); }
    }

    method TransactionByHash(hash: Hash) returns (answer: Lookup)
      requires Valid()
      modifies this`told, this`lookups, db.faults
      ensures Valid() && told == old(told) + LookupTells(hash, answer)
      ensures lookups == old(lookups) + [LookedUp(hash, answer, hash in chain.sent, IsMined(chain, hash))]
      ensures Faults() == if answer.RpcError? then old(Faults()) + 1 else old(Faults())
    {
      hide Legal, IsGenesis, Replay;
      answer := *;
      told := told + LookupTells(hash, answer);
      lookups := lookups + [LookedUp(hash, answer, hash in chain.sent, IsMined(chain, hash))];
      if answer.RpcError? { db.faults.Add(); }
    }

    /** A receipt may be missing for a mined transaction, but no receipt is ever wrong. */
    method TransactionReceipt(hash: Hash) returns (r: Result<Option<Receipt>, Error>)
      requires Valid()
      modifies this`told, this`receipts, db.faults
      ensures Valid() && told == old(told) + ReceiptTells(hash, r)
      ensures receipts == if r.Ok? then old(receipts) + [r.value] else old(receipts)
      ensures r.Err? ==> r.error.NodeError?
      ensures Faults() == if r.Err? then old(Faults()) + 1 else old(Faults())
      ensures r.Ok? && r.value.Some? ==>
                && r.value.value.hash == hash
                && hash.body.nonce in chain.mined && chain.mined[hash.body.nonce] == r.value.value
    {
      hide Legal, IsGenesis, Replay;
      var fails: bool, hidden: bool := *, *;
      if fails {
        db.faults.Add();
        r := Err(NodeError);
      } else if !hidden && IsMined(chain, hash) {
        r := Ok(Some(chain.mined[hash.body.nonce]));
      } else {
        r := Ok(None);
      }
      told := told + ReceiptTells(hash, r);
      if r.Ok? { receipts := receipts + [r.value]; }
    }

    /** Any number, or an error: a node can lag behind or be wrong. */
    method AnyNumber() returns (r: Result<nat, Error>)
      requires Valid()
      modifies this`numbers, db.faults
      ensures Valid() && numbers == if r.Ok? then old(numbers) + [r.value] else old(numbers)
      ensures r.Err? ==> r.error.NodeError?
      ensures Faults() == if r.Err? then old(Faults()) + 1 else old(Faults())
    {
      hide Legal, IsGenesis, Replay;
      var n: nat := *;
      var fails: bool := *;
      if fails {
        db.faults.Add();
        return Err(NodeError);
      }
      numbers := numbers + [n];
      return Ok(n);
    }

    /** The price of the token in USD, whatever it is. */
    method Quote() returns (r: Result<Decimal, Error>)
      requires Valid()
      modifies this`prices, db.faults
      ensures Valid() && prices == if r.Ok? then old(prices) + [r.value] else old(prices)
      ensures r.Err? ==> r.error.NodeError?
      ensures Faults() == if r.Err? then old(Faults()) + 1 else old(Faults())
    {
      hide Legal, IsGenesis, Replay;
      var price: Decimal := *;
      var fails: bool := *;
      if fails {
        db.faults.Add();
        return Err(NodeError);
      }
      prices := prices + [price];
      return Ok(price);
    }

    /** Whatever else goes into a transaction: gas prices and limits. */
    method Fees() returns (r: Result<nat, Error>)
      requires Valid()
      modifies this`fees, db.faults
      ensures Valid() && fees == if r.Ok? then old(fees) + [r.value] else old(fees)
      ensures r.Err? ==> r.error.NodeError?
      ensures Faults() == if r.Err? then old(Faults()) + 1 else old(Faults())
    {
      hide Legal, IsGenesis, Replay;
      var n: nat := *;
      var fails: bool := *;
      if fails {
        db.faults.Add();
        return Err(NodeError);
      }
      fees := fees + [n];
      return Ok(n);
    }

    /** Whether the preconditions of the payer are met. */
    method PreconditionsMet() returns (r: Result<bool, Error>)
      requires Valid()
      modifies this`met, db.faults
      ensures Valid() && met == if r.Ok? then old(met) + [r.value] else old(met)
      ensures r.Err? ==> r.error.NodeError?
      ensures Faults() == if r.Err? then old(Faults()) + 1 else old(Faults())
    {
      hide Legal, IsGenesis, Replay;
      var met: bool, fails: bool := *, *;
      if fails {
        db.faults.Add();
        return Err(NodeError);
      }
      this.met := this.met + [met];
      return Ok(met);
    }

    /** The process dies here. */
    method Die()
      requires Valid()
      modifies db.faults
      ensures Valid() && Faults() == old(Faults()) + 1
    {
      hide Legal, IsGenesis, Replay;
      db.faults.Add();
    }
  }
}
