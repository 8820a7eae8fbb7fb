/** What a payout costs its owner, against what the preview estimated. */
module Outlay {
  import opened Wrappers
  import opened Money
  import opened Tables
  import opened Protocol
  import opened Safety
  import opened Books
  import opened Nonces
  import opened Stats
  import Ledger

  /** Every group that was unfinished then and has a confirmed row now was paid at the price. */
  predicate PaidAt(db: Tables, txs: seq<TxRow>, price: Decimal) {
    forall i :: 0 <= i < |txs| && txs[i].state.Confirmed? && Unfinished(db, txs[i].group) ==> txs[i].price == price
  }

  // ---------------------------------------------------------------- payouts and their groups

  lemma {:induction false} InPayoutsOf(payouts: seq<Payout>, p: Payout)
    requires p in payouts
    ensures p in PayoutsOf(payouts, p.group)
  {
    var init, last := payouts[..|payouts| - 1], payouts[|payouts| - 1];
    assert payouts == init + [last];
    if p in init { InPayoutsOf(init, p); }
  }

  lemma {:induction false} FromPayoutsOf(payouts: seq<Payout>, group: int, p: Payout)
    requires p in PayoutsOf(payouts, group)
    ensures p in payouts && p.group == group
  {
    if payouts != [] {
      var init, last := payouts[..|payouts| - 1], payouts[|payouts| - 1];
      assert payouts == init + [last];
      if p in PayoutsOf(init, group) { FromPayoutsOf(init, group, p); }
    }
  }

  lemma {:induction false} PendingAreFewer(payouts: seq<Payout>, db: Tables, group: int)
    ensures |PayoutsOf(PendingPayouts(payouts, db), group)| <= |PayoutsOf(payouts, group)|
  {
    if payouts != [] {
      var init, last := payouts[..|payouts| - 1], payouts[|payouts| - 1];
      PendingAreFewer(init, db, group);
      var rest := PendingPayouts(init, db);
      assert (rest + [last])[..|rest|] == rest;
    }
  }

  ghost function GroupsOf(payouts: seq<Payout>): set<int> {
    set p <- payouts :: p.group
  }

  /** Tokens recorded on the confirmed rows of some groups. */
  ghost function ConfirmedIn(txs: seq<TxRow>, groups: set<int>): int {
    if txs == [] then 0
    else
      var last := txs[|txs| - 1];
      ConfirmedIn(txs[..|txs| - 1], groups) + if last.state.Confirmed? && last.group in groups then last.tokens else 0
  }

  lemma {:induction false} OneGroupMore(txs: seq<TxRow>, groups: set<int>, g: int)
    requires g !in groups
    ensures ConfirmedIn(txs, groups + {g}) == ConfirmedIn(txs, groups) + ConfirmedIn(txs, {g})
  {
    if txs != [] { OneGroupMore(txs[..|txs| - 1], groups, g); }
  }

  lemma {:induction false} NoGroups(txs: seq<TxRow>)
    ensures ConfirmedIn(txs, {}) == 0
  {
    if txs != [] { NoGroups(txs[..|txs| - 1]); }
  }

  lemma {:induction false} NoneOf(txs: seq<TxRow>, g: int)
    requires forall i :: 0 <= i < |txs| ==> !(txs[i].state.Confirmed? && txs[i].group == g)
    ensures ConfirmedIn(txs, {g}) == 0
  {
    if txs != [] { NoneOf(txs[..|txs| - 1], g); }
  }

  lemma {:induction false} OnlyRowOf(txs: seq<TxRow>, w: nat)
    requires w < |txs| && txs[w].state.Confirmed? && AtMostOneConfirmed(txs, txs[w].group)
    ensures ConfirmedIn(txs, {txs[w].group}) == txs[w].tokens
  {
    var init := txs[..|txs| - 1];
    if w < |txs| - 1 {
      assert init[w] == txs[w];
      forall i, j | 0 <= i < |init| && 0 <= j < |init| ensures init[i] == txs[i] && init[j] == txs[j] {}
      OnlyRowOf(init, w);
    } else {
      NoneOf(init, txs[w].group);
    }
  }

  /** The confirmed row of a payout's group carries its conversion. */
  lemma RowOfPayout(s: State, p: Payout, price: Decimal) returns (w: nat)
    requires Inv(s) && PaysInv(s) && AllFinished(s.db) && p in s.db.payouts && p.group in s.db.finals
    requires forall i :: 0 <= i < |s.db.txs| && s.db.txs[i].state.Confirmed? && s.db.txs[i].group == p.group ==>
               s.db.txs[i].price == price
    ensures w < |s.db.txs| && s.db.txs[w].state.Confirmed? && s.db.txs[w].group == p.group
    ensures FromUSD(p.usd, price, s.chain.decimals) == Some(s.db.txs[w].tokens)
    ensures |PayoutsOf(s.db.payouts, p.group)| == 1
  {
    hide FromUSD, PayoutsOf, Inv, RowPaysPayout;
    w := FinalRow(s, p.group);
    assert RowPaysPayout(s, s.db.txs[w]);
    OnlyPayout(s, p, w);
  }

  lemma OnlyPayout(s: State, p: Payout, w: nat)
    requires w < |s.db.txs| && RowPaysPayout(s, s.db.txs[w]) && p in s.db.payouts && p.group == s.db.txs[w].group
    ensures |PayoutsOf(s.db.payouts, p.group)| == 1
    ensures FromUSD(p.usd, s.db.txs[w].price, s.chain.decimals) == Some(s.db.txs[w].tokens)
  {
    InPayoutsOf(s.db.payouts, p);
    hide FromUSD, PayoutsOf;
  }

  /** The groups of the given payouts were paid what those convert to, one by one. */
  lemma {:induction false} GroupsPaid(s: State, payouts: seq<Payout>, price: Decimal)
    requires Inv(s) && PaysInv(s) && AllFinished(s.db)
    requires forall p <- payouts :: p in s.db.payouts && p.group in s.db.finals
    requires forall i :: (0 <= i < |s.db.txs| && s.db.txs[i].state.Confirmed?
                          && s.db.txs[i].group in GroupsOf(payouts)) ==>
               s.db.txs[i].price == price
    requires forall g :: |PayoutsOf(payouts, g)| <= 1
    ensures ConfirmedIn(s.db.txs, GroupsOf(payouts)) == SumTokens(AmountsOf(payouts), price, s.chain.decimals)
  {
    hide Inv, PaysInv, AllFinished, FromUSD;
    if payouts == [] {
      NoGroups(s.db.txs);
      assert GroupsOf(payouts) == {};
    } else {
      var init, last := payouts[..|payouts| - 1], payouts[|payouts| - 1];
      assert payouts == init + [last] && last in payouts;
      assert GroupsOf(payouts) == GroupsOf(init) + {last.group};
      FirstOfGroup(payouts);
      GroupsPaid(s, init, price);
      OneGroupMore(s.db.txs, GroupsOf(init), last.group);
      var w := RowOfPayout(s, last, price);
      FinalIffConfirmed(s, last.group);
      OnlyRowOf(s.db.txs, w);
      assert AmountsOf(payouts)[..|init|] == AmountsOf(init);
    }
  }

  /** With one payout for each group the last one's group is new. */
  lemma FirstOfGroup(payouts: seq<Payout>)
    requires payouts != [] && forall g :: |PayoutsOf(payouts, g)| <= 1
    ensures var init, last := payouts[..|payouts| - 1], payouts[|payouts| - 1];
            last.group !in GroupsOf(init) && forall g :: |PayoutsOf(init, g)| <= 1
  {
    var init, last := payouts[..|payouts| - 1], payouts[|payouts| - 1];
    forall p | p in init ensures p.group != last.group {
      InPayoutsOf(init, p);
      assert |PayoutsOf(payouts, last.group)| <= 1;
    }
    forall g ensures |PayoutsOf(init, g)| <= 1 { assert |PayoutsOf(payouts, g)| <= 1; }
  }

  // ---------------------------------------------------------------- what was confirmed since

  /** The total grew by the rows of the groups that had none before. */
  lemma {:induction false} TotalGrows(txs0: seq<TxRow>, txs: seq<TxRow>, groups: set<int>)
    requires |txs0| <= |txs|
    requires forall i :: 0 <= i < |txs0| ==>
               && txs[i].tokens == txs0[i].tokens
               && (txs0[i].state.Confirmed? <==> txs[i].state.Confirmed? && txs[i].group !in groups)
    requires forall i :: |txs0| <= i < |txs| && txs[i].state.Confirmed? ==> txs[i].group in groups
    ensures ConfirmedTotal(txs) == ConfirmedTotal(txs0) + ConfirmedIn(txs, groups)
    decreases |txs|
  {
    if |txs0| < |txs| {
      TotalGrows(txs0, txs[..|txs| - 1], groups);
    } else if txs != [] {
      TotalGrows(txs0[..|txs0| - 1], txs[..|txs| - 1], groups);
    }
  }

  /** A confirmed row of a group that was finished before was there, and confirmed, before. */
  lemma ConfirmedBefore(genesis: State, log: seq<Event>, k: nat, i: nat)
    requires IsGenesis(genesis) && Legal(genesis, log) && k <= |log|
    requires i < |Replay(genesis, log).db.txs| && Replay(genesis, log).db.txs[i].state.Confirmed?
    requires !Unfinished(Replay(genesis, log[..k]).db, Replay(genesis, log).db.txs[i].group)
    ensures i < |Replay(genesis, log[..k]).db.txs| && Replay(genesis, log[..k]).db.txs[i].state.Confirmed?
  {
    hide IsGenesis, Legal, Replay;
    var s0, s := Replay(genesis, log[..k]), Replay(genesis, log);
    LegalPrefix(genesis, log, k);
    LegalInv(genesis, log[..k]);
    LegalInv(genesis, log);
    SameGroups(genesis, log, k);
    RowInGroups(s, i);
    var g := s.db.txs[i].group;
    var j := FinalRow(s0, g);
    RowsSettleOnce(genesis, log, k, j);
    FinalIffConfirmed(s, g);
  }

  lemma RowInGroups(s: State, i: nat)
    requires Inv(s) && i < |s.db.txs|
    ensures s.db.txs[i].group in s.db.finals
  {
    hide TruthInv, FinalsInv, PendingInv, ContiguousInv, ChainInv, DroppedInv, SpacedInv;
  }

  /** The payouts and the groups are those of the import, at any time. */
  lemma SameGroups(genesis: State, log: seq<Event>, k: nat)
    requires k <= |log|
    ensures Replay(genesis, log).db.payouts == Replay(genesis, log[..k]).db.payouts
    ensures Replay(genesis, log).db.finals.Keys == Replay(genesis, log[..k]).db.finals.Keys
    ensures Replay(genesis, log).db.payouts == genesis.db.payouts
    ensures Replay(genesis, log).db.finals.Keys == genesis.db.finals.Keys
  {
    hide Replay;
    ImportedDataStays(genesis, log);
    ImportedDataStays(genesis, log[..k]);
  }

  /** Why a row confirmed since pays one of the payouts that were pending. */
  lemma ConfirmedSince(genesis: State, log: seq<Event>, k: nat, i: nat)
    requires IsGenesis(genesis) && Legal(genesis, log) && k <= |log|
    requires i < |Replay(genesis, log).db.txs| && Replay(genesis, log).db.txs[i].state.Confirmed?
    requires Unfinished(Replay(genesis, log[..k]).db, Replay(genesis, log).db.txs[i].group)
    ensures var db0 := Replay(genesis, log[..k]).db;
            Replay(genesis, log).db.txs[i].group in GroupsOf(PendingPayouts(db0.payouts, db0))
  {
    hide IsGenesis, Legal, Replay;
    var db0, s := Replay(genesis, log[..k]).db, Replay(genesis, log);
    LegalPays(genesis, log);
    SameGroups(genesis, log, k);
    var g := s.db.txs[i].group;
    assert RowPaysPayout(s, s.db.txs[i]);
    hide PayoutsOf, FromUSD;
    var p := PayoutsOf(s.db.payouts, g)[0];
    FromPayoutsOf(s.db.payouts, g, p);
    assert p in PendingPayouts(db0.payouts, db0);
  }

  /** A row confirmed before belongs to a group that was finished, and stays. */
  lemma ConfirmedStays(genesis: State, log: seq<Event>, k: nat, i: nat)
    requires IsGenesis(genesis) && Legal(genesis, log) && k <= |log|
    requires i < |Replay(genesis, log[..k]).db.txs|
    ensures var s0, s := Replay(genesis, log[..k]), Replay(genesis, log);
            && i < |s.db.txs| && s.db.txs[i].tokens == s0.db.txs[i].tokens && s.db.txs[i].group == s0.db.txs[i].group
            && (s0.db.txs[i].state.Confirmed? ==>
                  s.db.txs[i].state.Confirmed? && !Unfinished(s0.db, s0.db.txs[i].group))
  {
    hide IsGenesis, Legal, Replay;
    var s0 := Replay(genesis, log[..k]);
    RowsSettleOnce(genesis, log, k, i);
    LegalPrefix(genesis, log, k);
    LegalInv(genesis, log[..k]);
    RowInGroups(s0, i);
    FinalIffConfirmed(s0, s0.db.txs[i].group);
  }

  /**
    From any moment of a payout to its finish, if every group still unfinished then was paid at one price:
    the tokens recorded on the rows confirmed since are the conversions of the payouts pending then, one by
    one.
    */
  lemma SpentIsConversion(genesis: State, log: seq<Event>, k: nat, price: Decimal)
    requires IsGenesis(genesis) && Legal(genesis, log) && k <= |log| && AllFinished(Replay(genesis, log).db)
    requires PaidAt(Replay(genesis, log[..k]).db, Replay(genesis, log).db.txs, price)
    ensures var s0, s := Replay(genesis, log[..k]), Replay(genesis, log);
            ConfirmedTotal(s.db.txs) - ConfirmedTotal(s0.db.txs)
              == SumTokens(AmountsOf(PendingPayouts(s0.db.payouts, s0.db)), price, s.chain.decimals)
  {
    hide IsGenesis, Legal, Replay, AllFinished;
    var s0, s := Replay(genesis, log[..k]), Replay(genesis, log);
    var pending := PendingPayouts(s0.db.payouts, s0.db);
    SameGroups(genesis, log, k);
    LegalInv(genesis, log);
    LegalPays(genesis, log);
    EachOnce(genesis, log, k);
    Grown(genesis, log, k);
    hide Inv, PaysInv;
    assert forall p <- pending :: p in s.db.payouts && Unfinished(s0.db, p.group);
    GroupsPaid(s, pending, price);
  }

  lemma Grown(genesis: State, log: seq<Event>, k: nat)
    requires IsGenesis(genesis) && Legal(genesis, log) && k <= |log|
    ensures var s0, s := Replay(genesis, log[..k]), Replay(genesis, log);
            ConfirmedTotal(s.db.txs) == ConfirmedTotal(s0.db.txs)
              + ConfirmedIn(s.db.txs, GroupsOf(PendingPayouts(s0.db.payouts, s0.db)))
  {
    hide IsGenesis, Legal, Replay, ConfirmedTotal, ConfirmedIn;
    var s0, s := Replay(genesis, log[..k]), Replay(genesis, log);
    var txs0, txs, groups := s0.db.txs, s.db.txs, GroupsOf(PendingPayouts(s0.db.payouts, s0.db));
    forall i | 0 <= i < |txs0|
      ensures i < |txs| && txs[i].tokens == txs0[i].tokens
      ensures txs0[i].state.Confirmed? <==> txs[i].state.Confirmed? && txs[i].group !in groups
    {
      ConfirmedStays(genesis, log, k, i);
      SinceOrBefore(genesis, log, k, i);
    }
    if |txs0| > 0 { ConfirmedStays(genesis, log, k, |txs0| - 1); }
    forall i | |txs0| <= i < |txs| && txs[i].state.Confirmed? ensures txs[i].group in groups {
      SinceOrBefore(genesis, log, k, i);
    }
    TotalGrows(txs0, txs, groups);
  }

  lemma SinceOrBefore(genesis: State, log: seq<Event>, k: nat, i: nat)
    requires IsGenesis(genesis) && Legal(genesis, log) && k <= |log| && i < |Replay(genesis, log).db.txs|
    ensures var s0, row := Replay(genesis, log[..k]), Replay(genesis, log).db.txs[i];
            row.state.Confirmed? ==>
              if row.group in GroupsOf(PendingPayouts(s0.db.payouts, s0.db)) then Unfinished(s0.db, row.group)
              else i < |s0.db.txs| && s0.db.txs[i].state.Confirmed?
  {
    hide IsGenesis, Legal, Replay;
    var s0, row := Replay(genesis, log[..k]), Replay(genesis, log).db.txs[i];
    if row.state.Confirmed? {
      if Unfinished(s0.db, row.group) {
        ConfirmedSince(genesis, log, k, i);
      } else {
        ConfirmedBefore(genesis, log, k, i);
      }
    }
  }

  /** No group has two payouts once all are finished. */
  lemma EachOnce(genesis: State, log: seq<Event>, k: nat)
    requires IsGenesis(genesis) && Legal(genesis, log) && k <= |log| && AllFinished(Replay(genesis, log).db)
    ensures var db0 := Replay(genesis, log[..k]).db;
            && (forall g :: |PayoutsOf(PendingPayouts(db0.payouts, db0), g)| <= 1)
            && (forall p <- db0.payouts :: p.group in Replay(genesis, log).db.finals)
  {
    hide Legal, Replay;
    var db0, s := Replay(genesis, log[..k]).db, Replay(genesis, log);
    SameGroups(genesis, log, k);
    LegalInv(genesis, log);
    LegalPays(genesis, log);
    hide Inv;
    forall g ensures |PayoutsOf(PendingPayouts(db0.payouts, db0), g)| <= 1 {
      PendingAreFewer(db0.payouts, db0, g);
      if |PayoutsOf(db0.payouts, g)| > 1 {
        var p := PayoutsOf(db0.payouts, g)[0];
        FromPayoutsOf(db0.payouts, g, p);
        OnePayout(s, p);
      }
    }
  }

  lemma OnePayout(s: State, p: Payout)
    requires Inv(s) && PaysInv(s) && AllFinished(s.db) && p in s.db.payouts && p.group in s.db.finals
    ensures |PayoutsOf(s.db.payouts, p.group)| == 1
  {
    hide Inv, PayoutsOf, FromUSD, RowPaysPayout;
    var w := FinalRow(s, p.group);
    assert RowPaysPayout(s, s.db.txs[w]);
    OnlyPayout(s, p, w);
  }

  // ---------------------------------------------------------------- against the estimate

  /** Every pending payout was converted, so it can be. */
  lemma AllConverted(genesis: State, log: seq<Event>, k: nat, price: Decimal)
    requires IsGenesis(genesis) && Legal(genesis, log) && k <= |log| && AllFinished(Replay(genesis, log).db)
    requires PaidAt(Replay(genesis, log[..k]).db, Replay(genesis, log).db.txs, price)
    ensures var db0 := Replay(genesis, log[..k]).db;
            AllConvert(AmountsOf(PendingPayouts(db0.payouts, db0)), price, Replay(genesis, log).chain.decimals)
  {
    hide Legal, Replay;
    var db0, s := Replay(genesis, log[..k]).db, Replay(genesis, log);
    SameGroups(genesis, log, k);
    LegalInv(genesis, log);
    LegalPays(genesis, log);
    hide Inv, PaysInv, FromUSD, AllFinished;
    forall p | p in PendingPayouts(db0.payouts, db0)
      ensures p.usd.coef >= 0 && FromUSD(p.usd, price, s.chain.decimals).Some?
    {
      var w := RowOfPayout(s, p, price);
    }
  }

  /**
    What the preview estimates from the USD pending at any moment: if the payout is then finished at that
    price, it costs at most the estimate, and less than one unit for each pending payout below it.
    */
  lemma PreviewBoundsOutlay(genesis: State, log: seq<Event>, k: nat, price: Decimal)
    requires IsGenesis(genesis) && Legal(genesis, log) && k <= |log| && AllFinished(Replay(genesis, log).db)
    requires PaidAt(Replay(genesis, log[..k]).db, Replay(genesis, log).db.txs, price) && price.coef > 0
    requires var db0 := Replay(genesis, log[..k]).db;
             FromUSD(AddUp(PendingPayouts(db0.payouts, db0)), price, Replay(genesis, log).chain.decimals).Some?
    ensures var s0, s := Replay(genesis, log[..k]), Replay(genesis, log);
            var pending := PendingPayouts(s0.db.payouts, s0.db);
            var estimate := FromUSD(AddUp(pending), price, s.chain.decimals).value;
            var spent := ConfirmedTotal(s.db.txs) - ConfirmedTotal(s0.db.txs);
            spent <= estimate && (pending != [] ==> estimate < spent + |pending|)
  {
    hide IsGenesis, Legal, Replay, AllFinished, PaidAt, FromUSD, AllConvert, AddUp, PendingPayouts, SumTokens,
      ConfirmedTotal;
    var db0, s := Replay(genesis, log[..k]).db, Replay(genesis, log);
    SpentIsConversion(genesis, log, k, price);
    AllConverted(genesis, log, k, price);
    PreviewBoundsBatch(PendingPayouts(db0.payouts, db0), price, s.chain.decimals);
  }

  /**
    What that means for the owner, between two moments with nothing pending: its balance falls by what was
    confirmed since, besides payouts to itself and other calls.
    */
  lemma OwnerOutlay(genesis: State, log: seq<Event>, k: nat)
    requires IsGenesis(genesis) && Legal(genesis, log) && k <= |log|
    requires !AnyInFlight(Replay(genesis, log[..k]).db.txs) && !AnyInFlight(Replay(genesis, log).db.txs)
    ensures var s0, s, owner := Replay(genesis, log[..k]), Replay(genesis, log), genesis.chain.owner;
            Ledger.Bal(s.chain.ledger, owner) - Ledger.Bal(s0.chain.ledger, owner)
              == OtherDelta(genesis, log, owner) - OtherDelta(genesis, log[..k], owner)
                   + ConfirmedTo(s.db.txs, owner) - ConfirmedTo(s0.db.txs, owner)
                   - (ConfirmedTotal(s.db.txs) - ConfirmedTotal(s0.db.txs))
  {
    hide IsGenesis, Legal, Replay, AnyInFlight, OtherDelta, ConfirmedTo, ConfirmedTotal;
    LegalPrefix(genesis, log, k);
    OwnerBalance(genesis, log);
    OwnerBalance(genesis, log[..k]);
  }

  lemma OwnerBalance(genesis: State, log: seq<Event>)
    requires IsGenesis(genesis) && Legal(genesis, log) && !AnyInFlight(Replay(genesis, log).db.txs)
    ensures var s, owner := Replay(genesis, log), genesis.chain.owner;
            Ledger.Bal(s.chain.ledger, owner) == Ledger.Bal(genesis.chain.ledger, owner) +
                OtherDelta(genesis, log, owner)
              + ConfirmedTo(s.db.txs, owner) - ConfirmedTotal(s.db.txs)
  {
    hide IsGenesis, Legal, Replay, OtherDelta, ConfirmedTo, ConfirmedTotal, PaidDelta, Inv;
    var s, owner := Replay(genesis, log), genesis.chain.owner;
    LegalInv(genesis, log);
    BalanceSheet(genesis, log, owner);
    forall i | 0 <= i < |s.db.txs|
      ensures s.db.txs[i].tokens >= 0 && (s.db.txs[i].state.Confirmed? <==> Paid(s.chain.mined, s.db.txs[i].hash))
    {
      ConfirmedIffPaid(s, i);
    }
    ConfirmedIsPaid(s.db.txs, s.chain.mined, owner, owner);
  }
}
