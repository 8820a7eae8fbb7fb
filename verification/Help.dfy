/** What can still be settled when prices are free and anybody may hand tokens to the owner. */
module Help {
  import opened Money
  import opened Tables
  import opened Protocol
  import opened Safety
  import opened Books
  import opened Network
  import opened Conduct
  import opened Settling
  import opened Recovery
  import Ledger

  /**
    Ethereum processes that are told true balances can bring the row to a verdict, at some prices,
    whoever else helps.
    */
  ghost predicate CanBeSettledWithHelp(genesis: State, log: seq<Event>, i: nat) {
    exists log' :: log <= log' && Legal(genesis, log') && ActsAs(Eth, genesis, log', |log|)
                   && ToldTruly(Eth, genesis, log', |log|)
                   && i < |Replay(genesis, log').db.txs| && !IsPending(Replay(genesis, log'), i)
  }

  /** As long as there are tokens at all, somebody may hand them to the owner. */
  predicate SettleableWithHelp(s: State, n: nat) {
    && Open(s, n)
    && forall m :: 0 <= m <= n && InFlight(s.db.txs, m) && Unsent(s, m) ==> s.chain.ledger.supply > 0
  }

  lemma {:induction false} SomeHolder(m: map<Address, nat>) returns (a: Address)
    requires Ledger.Total(m) > 0
    ensures Ledger.Get(m, a) > 0
    decreases |m|
  {
    assert |m| != 0;
    a := Ledger.Picked(m);
    if m[a] == 0 {
      Ledger.Smaller(m, a);
      a := SomeHolder(m - {a});
    }
  }

  /** The owner, and its spender, get hold of one token unit, and nothing else happens. */
  predicate Helped(s: State, s': State) {
    && s' == s.(chain := s.chain.(ledger := s'.chain.ledger))
    && Affords(Eth, s'.chain, 1)
  }

  lemma GetHelp(genesis: State, log: seq<Event>) returns (log': seq<Event>)
    requires Legal(genesis, log) && Ledger.Conserved(Replay(genesis, log).chain.ledger)
    requires Replay(genesis, log).chain.ledger.supply > 0
    ensures log <= log' && Legal(genesis, log') && Helped(Replay(genesis, log), Replay(genesis, log'))
    ensures forall i :: |log| <= i < |log'| ==> log'[i].External?
  {
    hide Legal, Replay, Ledger.Total;
    var s := Replay(genesis, log);
    var c := s.chain;
    log' := log;
    if Ledger.Bal(c.ledger, c.owner) == 0 {
      var a := SomeHolder(c.ledger.balances);
      var e := External(a, Ledger.Transfer(c.owner, 1));
      LogGrows(genesis, log', e);
      log' := log' + [e];
    }
    var s1 := Replay(genesis, log');
    assert s1 == s.(chain := s.chain.(ledger := s1.chain.ledger)) && Ledger.Bal(s1.chain.ledger, c.owner) >= 1;
    if Ledger.Allowance(s1.chain.ledger, c.owner, c.spender) == 0 {
      var e := External(c.owner, Ledger.Approve(c.spender, 1));
      LogGrows(genesis, log', e);
      log' := log' + [e];
    }
  }

  /** At this price the group costs one unit. */
  function UnitPrice(s: State, group: int): Decimal {
    var payouts := PayoutsOf(s.db.payouts, group);
    if payouts == [] then UNIT else Decimal(payouts[0].usd.coef, payouts[0].usd.exp + s.chain.decimals)
  }

  const UNIT := Decimal(1, 0)

  lemma UnitCosts(s: State, group: int)
    requires |PayoutsOf(s.db.payouts, group)| == 1 && PayoutsOf(s.db.payouts, group)[0].usd.coef > 0
    requires MIN_DECIMALS <= s.chain.decimals
    ensures Cost(s, group, UnitPrice(s, group)) == 1
  {
    hide PayoutsOf;
    assert PowerOfTen(0) == 1;
  }

  /** A pending row pays the single payout of its group, whose amount is positive. */
  lemma PendingPays(genesis: State, log: seq<Event>, i: nat)
    requires IsGenesis(genesis) && Legal(genesis, log) && IsPending(Replay(genesis, log), i)
    ensures var s := Replay(genesis, log);
            Cost(s, s.db.txs[i].group, UnitPrice(s, s.db.txs[i].group)) == 1
  {
    hide Legal, Replay;
    var s := Replay(genesis, log);
    LegalPays(genesis, log);
    ImportedDataStays(genesis, log);
    PayoutsAmong(s.db.payouts, s.db.txs[i].group);
    hide IsGenesis, PayoutsOf;
    assert RowPaysPayout(s, s.db.txs[i]);
    UnitCosts(s, s.db.txs[i].group);
  }

  /** With one unit in hand, every pending nonce can be sent again at the right price. */
  lemma HelpedSettles(genesis: State, log: seq<Event>, log1: seq<Event>, n: nat)
    requires IsGenesis(genesis) && Legal(genesis, log) && Open(Replay(genesis, log), n)
    requires Helped(Replay(genesis, log), Replay(genesis, log1))
    ensures var s := Replay(genesis, log);
            Settleable(Eth, (g: int) => UnitPrice(s, g), Replay(genesis, log1), n)
  {
    hide IsGenesis, Legal, Replay;
    var s, s1 := Replay(genesis, log), Replay(genesis, log1);
    var quote := (g: int) => UnitPrice(s, g);
    forall i | 0 <= i < |s1.db.txs| && s1.db.txs[i].state.Pending?
      ensures CanPay(s1, s1.db.txs[i].group, quote(s1.db.txs[i].group))
    {
      PendingPays(genesis, log, i);
      hide UnitPrice, PayoutsOf, FromUSD;
      assert Cost(s1, s1.db.txs[i].group, quote(s1.db.txs[i].group)) == 1;
    }
    hide CanPay, UnitPrice;
    assert Open(s1, n);
  }

  /**
    With any prices, and whoever hands tokens to the owner, a pending row can be settled iff the account
    gets to its nonce, nothing up to it is used up, and there are tokens left or nothing has to be sent
    again.
    */
  lemma WithHelpIff(genesis: State, log: seq<Event>, i: nat)
    requires IsGenesis(genesis) && Legal(genesis, log) && IsPending(Replay(genesis, log), i)
    ensures CanBeSettledWithHelp(genesis, log, i) <==>
              SettleableWithHelp(Replay(genesis, log), Replay(genesis, log).db.txs[i].nonce)
  {
    hide IsGenesis, Legal, Replay, Open, ActsAs, ToldTruly, InFlight, Ledger.Conserved;
    var s := Replay(genesis, log);
    if SettleableWithHelp(s, s.db.txs[i].nonce) {
      SettleWithHelp(genesis, log, i);
    } else if CanBeSettledWithHelp(genesis, log, i) {
      var log' :| log <= log' && Legal(genesis, log') && ActsAs(Eth, genesis, log', |log|)
        && ToldTruly(Eth, genesis, log', |log|)
        && i < |Replay(genesis, log').db.txs| && !IsPending(Replay(genesis, log'), i);
      StuckEvenWithHelp(genesis, log, log', i);
    }
  }

  /** What processes can do by themselves they can do with help. */
  lemma HelpIsNoHindrance(quote: int -> Decimal, genesis: State, log: seq<Event>, i: nat)
    ensures CanBeSettled(Eth, quote, genesis, log, i) ==> CanBeSettledWithHelp(genesis, log, i)
  {
    hide Legal, Replay, ActsAs, LeftToItself, ToldTruly;
    if CanBeSettled(Eth, quote, genesis, log, i) {
      var log' :| log <= log' && Legal(genesis, log') && ActsAs(Eth, genesis, log', |log|)
        && LeftToItself(Eth, quote, genesis, log', |log|)
        && i < |Replay(genesis, log').db.txs| && !IsPending(Replay(genesis, log'), i);
      TermsAreTrue(Eth, quote, genesis, log', |log|);
    }
  }

  lemma SettleWithHelp(genesis: State, log: seq<Event>, i: nat)
    requires IsGenesis(genesis) && Legal(genesis, log) && IsPending(Replay(genesis, log), i)
    requires SettleableWithHelp(Replay(genesis, log), Replay(genesis, log).db.txs[i].nonce)
    ensures CanBeSettledWithHelp(genesis, log, i)
  {
    hide IsGenesis, Legal, Replay, ActsAs, ToldTruly, LeftToItself, Open, InFlight, UnitPrice, Helped, Settleable;
    var s := Replay(genesis, log);
    var n := s.db.txs[i].nonce;
    var quote := (g: int) => UnitPrice(s, g);
    LedgerConserved(genesis, log);
    var log1 := log;
    if s.chain.ledger.supply > 0 {
      log1 := GetHelp(genesis, log);
      HelpedSettles(genesis, log, log1, n);
      SamePending(s, Replay(genesis, log1), i);
    } else {
      SentSettles(quote, s, n);
    }
    StartsFollowing(Eth, quote, genesis, log1);
    var log' := SettleUpTo(Eth, quote, genesis, log1, |log1|, i);
    FollowedActs(Eth, quote, genesis, log', |log1|);
    IdleAs(Eth, genesis, log1, |log|);
    GoesOnAs(Eth, genesis, log1, log', |log|);
    NothingTold(Eth, genesis, log1, |log|);
    TermsAreTrue(Eth, quote, genesis, log', |log1|);
    ToldOn(Eth, genesis, log1, log', |log|);
  }

  lemma NothingTold(kind: Kind, genesis: State, log: seq<Event>, from: nat)
    requires forall i :: from <= i < |log| ==> !log[i].Create?
    ensures ToldTruly(kind, genesis, log, from)
  {}

  lemma SamePending(s: State, s1: State, i: nat)
    requires IsPending(s, i) && Helped(s, s1)
    ensures IsPending(s1, i) && s1.db == s.db
  {}

  lemma SentSettles(quote: int -> Decimal, s: State, n: nat)
    requires SettleableWithHelp(s, n) && s.chain.ledger.supply == 0
    ensures Settleable(Eth, quote, s, n)
  {
    hide Open, Unsent, CanResend;
  }

  lemma StuckEvenWithHelp(genesis: State, log: seq<Event>, log': seq<Event>, i: nat)
    requires IsGenesis(genesis) && Legal(genesis, log) && IsPending(Replay(genesis, log), i)
    requires !SettleableWithHelp(Replay(genesis, log), Replay(genesis, log).db.txs[i].nonce)
    requires log <= log' && Legal(genesis, log') && ActsAs(Eth, genesis, log', |log|)
    requires ToldTruly(Eth, genesis, log', |log|)
    ensures IsPending(Replay(genesis, log'), i)
  {
    hide IsGenesis, Legal, Replay, Open, ActsAs, ToldTruly, Unsent;
    var s := Replay(genesis, log);
    var n := s.db.txs[i].nonce;
    assert log'[..|log|] == log;
    if !Open(s, n) {
      DeadRowsStayPending(genesis, |log|, log', i);
    } else {
      LedgerConserved(genesis, log);
      var m :| 0 <= m <= n && InFlight(s.db.txs, m) && Unsent(s, m) && s.chain.ledger.supply == 0;
      var j :| 0 <= j < |s.db.txs| && s.db.txs[j].state.Pending? && s.db.txs[j].nonce == m;
      BlockStays(genesis, |log|, log', i, NeverSent(j, |s.db.txs|, NoSupply));
    }
  }
}
