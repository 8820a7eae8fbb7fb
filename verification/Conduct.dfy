/**
  What the processes of a payer kind add to the log, whoever started them and however they ended: a
  transaction is handed over only by the process that recorded it, and only the Ethereum payer resends and
  decides about several transactions of a nonce.
  */
module Conduct {
  import opened Money
  import opened Tables
  import opened Protocol
  import Ledger

  datatype Kind = Eth | ZkSyncEra

  /** A step between `from` and k recorded the transaction. */
  predicate CreatedSince(log: seq<Event>, from: nat, k: nat, hash: Hash)
    requires k <= |log|
  {
    exists j :: from <= j < k && log[j].Create? && log[j].row.hash == hash
  }

  /** From an index on, only transactions recorded from there on are handed over. */
  predicate OwnSends(log: seq<Event>, from: nat) {
    forall i :: from <= i < |log| && log[i].Broadcast? ==> CreatedSince(log, from, i, log[i].hash)
  }

  /** From an index on, no nonce is used for a second transaction. */
  predicate OnlyAttaches(genesis: State, log: seq<Event>, from: nat) {
    forall i :: from <= i < |log| && log[i].Create? ==>
      IsAttach(Replay(genesis, log[..i]), log[i].row.group, log[i].row.nonce)
  }

  /** From an index on, only nonces with a single transaction are finalized. */
  predicate SingleVerdicts(log: seq<Event>, from: nat) {
    forall i :: from <= i < |log| && log[i].Finalize? ==> |log[i].statuses| == 1
  }

  /** From an index on, the log holds what processes of the kind and their environment can do. */
  predicate ActsAs(kind: Kind, genesis: State, log: seq<Event>, from: nat) {
    && OwnSends(log, from)
    && (kind.ZkSyncEra? ==> OnlyAttaches(genesis, log, from) && SingleVerdicts(log, from))
  }

  // ---------------------------------------------------------------- what a process can pay

  /** Spending what another account owns takes an allowance. */
  predicate NeedsAllowance(kind: Kind, chain: Chain) {
    kind.Eth? && chain.owner != chain.spender
  }

  /** The balance, and the allowance if one is needed, really cover the amount. */
  predicate Affords(kind: Kind, chain: Chain, tokens: int) {
    && tokens <= Ledger.Bal(chain.ledger, chain.owner)
    && (NeedsAllowance(kind, chain) ==> tokens <= Ledger.Allowance(chain.ledger, chain.owner, chain.spender))
  }

  /**
    From an index on, whoever recorded a transaction could pay it: nodes told no higher balances than the
    true ones.
    */
  predicate ToldTruly(kind: Kind, genesis: State, log: seq<Event>, from: nat) {
    forall i :: from <= i < |log| && log[i].Create? ==>
        Affords(kind, Replay(genesis, log[..i]).chain, log[i].row.tokens)
  }

  /** A transaction is recorded at the quoted price and can be paid, and nobody else calls the token. */
  predicate OnTerms(kind: Kind, quote: int -> Decimal, s: State, e: Event) {
    && !e.External?
    && (e.Create? ==> Affords(kind, s.chain, e.row.tokens) && e.row.price == quote(e.row.group))
  }

  /** From an index on, true balances, the quoted prices, and no token calls but the payouts. */
  predicate LeftToItself(kind: Kind, quote: int -> Decimal, genesis: State, log: seq<Event>, from: nat) {
    forall i :: from <= i < |log| ==> OnTerms(kind, quote, Replay(genesis, log[..i]), log[i])
  }

  lemma TermsGoOn(kind: Kind, quote: int -> Decimal, genesis: State, log: seq<Event>, from: nat, e: Event)
    requires LeftToItself(kind, quote, genesis, log, from) && OnTerms(kind, quote, Replay(genesis, log), e)
    ensures LeftToItself(kind, quote, genesis, log + [e], from)
  {
    hide OnTerms, Replay;
    var log' := log + [e];
    forall i | 0 <= i < |log| ensures log'[i] == log[i] && log'[..i] == log[..i] {}
    assert log'[..|log|] == log;
  }

  lemma TermsAreTrue(kind: Kind, quote: int -> Decimal, genesis: State, log: seq<Event>, from: nat)
    requires LeftToItself(kind, quote, genesis, log, from)
    ensures ToldTruly(kind, genesis, log, from)
  {
    hide Affords, Replay;
    forall i | from <= i < |log| && log[i].Create?
      ensures Affords(kind, Replay(genesis, log[..i]).chain, log[i].row.tokens)
    {
      assert OnTerms(kind, quote, Replay(genesis, log[..i]), log[i]);
    }
  }

  lemma ToldOn(kind: Kind, genesis: State, a: seq<Event>, b: seq<Event>, from: nat)
    requires a <= b && from <= |a| && ToldTruly(kind, genesis, a, from) && ToldTruly(kind, genesis, b, |a|)
    ensures ToldTruly(kind, genesis, b, from)
  {
    hide Affords, Replay;
    forall i | 0 <= i < |a| ensures b[i] == a[i] && b[..i] == a[..i] {}
  }

  /** A payout takes at most its amount from the owner, and exactly its amount from an allowance it needs. */
  lemma PayoutSpends(chain: Chain, body: TxBody)
    requires body.tokens >= 0 && Ledger.Exec(chain.ledger, chain.spender, PayoutCall(chain, body)).Some?
    ensures var l, l' := chain.ledger, Ledger.Exec(chain.ledger, chain.spender, PayoutCall(chain, body)).value;
            && Ledger.Bal(l, chain.owner) - body.tokens <= Ledger.Bal(l', chain.owner) <= Ledger.Bal(l, chain.owner)
            && (chain.owner != chain.spender ==>
                  Ledger.Allowance(l', chain.owner, chain.spender)
                    == Ledger.Allowance(l, chain.owner, chain.spender) - body.tokens)
  {
    Ledger.TransferMovesValue(chain.ledger, chain.spender, PayoutCall(chain, body), chain.owner, chain.owner,
        chain.spender);
  }

  // ---------------------------------------------------------------- one step after the other

  lemma NothingDone(kind: Kind, genesis: State, log: seq<Event>)
    ensures ActsAs(kind, genesis, log, |log|)
  {}

  /** One process after the other acts like either. */
  lemma GoesOnAs(kind: Kind, genesis: State, a: seq<Event>, b: seq<Event>, from: nat)
    requires a <= b && from <= |a| && ActsAs(kind, genesis, a, from) && ActsAs(kind, genesis, b, |a|)
    ensures ActsAs(kind, genesis, b, from)
  {
    hide IsAttach, Replay;
    forall i | from <= i < |b| && b[i].Broadcast? ensures CreatedSince(b, from, i, b[i].hash) {
      if i < |a| {
        assert b[i] == a[i];
        var j :| from <= j < i && a[j].Create? && a[j].row.hash == a[i].hash;
        assert b[j] == a[j];
      } else {
        var j :| |a| <= j < i && b[j].Create? && b[j].row.hash == b[i].hash;
        assert from <= j;
      }
    }
    forall i | from <= i < |a| ensures b[i] == a[i] && b[..i] == a[..i] {}
  }

  /** Steps that neither record, hand over nor decide about a transaction are open to every kind. */
  lemma IdleAs(kind: Kind, genesis: State, log: seq<Event>, from: nat)
    requires forall i :: from <= i < |log| ==> !log[i].Create? && !log[i].Broadcast? && !log[i].Finalize?
    ensures ActsAs(kind, genesis, log, from)
  {}

  lemma CreatesAs(kind: Kind, genesis: State, log: seq<Event>, row: TxRow, from: nat)
    requires from <= |log| && ActsAs(kind, genesis, log, from)
    requires kind.ZkSyncEra? ==> IsAttach(Replay(genesis, log), row.group, row.nonce)
    ensures ActsAs(kind, genesis, log + [Create(row)], from)
    ensures CreatedSince(log + [Create(row)], from, |log| + 1, row.hash)
  {
    hide IsAttach, Replay;
    var log' := log + [Create(row)];
    assert log'[|log|] == Create(row) && log'[..|log|] == log;
    NothingDone(kind, genesis, log);
    forall i | |log| <= i < |log'| && log'[i].Create?
      ensures kind.ZkSyncEra? ==> IsAttach(Replay(genesis, log'[..i]), log'[i].row.group, log'[i].row.nonce)
    {
      assert i == |log|;
    }
    GoesOnAs(kind, genesis, log, log', from);
  }

  lemma SendsAs(kind: Kind, genesis: State, log: seq<Event>, hash: Hash, from: nat)
    requires ActsAs(kind, genesis, log, from) && CreatedSince(log, from, |log|, hash)
    ensures ActsAs(kind, genesis, log + [Broadcast(hash)], from)
  {
    hide IsAttach, Replay;
    var log' := log + [Broadcast(hash)];
    forall i | 0 <= i < |log| ensures log'[i] == log[i] && log'[..i] == log[..i] {}
    forall i | from <= i < |log'| && log'[i].Broadcast? ensures CreatedSince(log', from, i, log'[i].hash) {
      var j :| from <= j < i && log[j].Create? && log[j].row.hash == log'[i].hash;
      assert log'[j] == log[j];
    }
  }

  lemma StillCreated(a: seq<Event>, b: seq<Event>, from: nat, hash: Hash)
    requires a <= b && CreatedSince(a, from, |a|, hash)
    ensures CreatedSince(b, from, |b|, hash)
  {
    var j :| from <= j < |a| && a[j].Create? && a[j].row.hash == hash;
    assert b[j] == a[j];
  }

  lemma FinalizesAs(kind: Kind, genesis: State, a: seq<Event>, b: seq<Event>, from: nat)
    requires a <= b && from <= |a| && ActsAs(kind, genesis, a, from) && |b| == |a| + 1 && b[|a|].Finalize?
    requires kind.ZkSyncEra? ==> |b[|a|].statuses| == 1
    ensures ActsAs(kind, genesis, b, from)
  {
    hide IsAttach, Replay;
    assert ActsAs(kind, genesis, b, |a|);
    GoesOnAs(kind, genesis, a, b, from);
  }
}
