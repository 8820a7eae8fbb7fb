/** The STORJ token contract: what each call does to the balances, and that tokens are conserved. */
module Ledger {
  import opened Wrappers

  type Address = nat

  const WORD: nat := 0x1_0000000000000000_0000000000000000_0000000000000000_0000000000000000

  /**
    The storage of the contract.  `burned` and `issued` are not contract fields: they are the sum of
    the Burned events and the supply allocated by the constructor.
    */
  datatype Ledger = Ledger(
    balances: map<Address, nat>,
    allowed: map<(Address, Address), nat>,
    supply: nat,
    upgraded: nat,
    master: Address,
    agent: Address,
    burned: nat,
    issued: nat)

  /** A call by some sender.  Answers of the external upgrade agent are part of the call. */
  datatype Call =
    | Transfer(to: Address, value: nat)
    | TransferFrom(from: Address, to: Address, value: nat)
    | Approve(spender: Address, value: nat)
    | Burn(value: nat)
    | Upgrade(value: nat, accepted: bool)
    | SetUpgradeAgent(agent: Address, isAgent: bool, originalSupply: nat)
    | SetUpgradeMaster(master: Address)

  datatype UpgradeState = WaitingForAgent | ReadyToUpgrade | Upgrading

  function Get<K>(m: map<K, nat>, k: K): nat {
    if k in m then m[k] else 0
  }

  function Bal(l: Ledger, a: Address): nat {
    Get(l.balances, a)
  }

  function Allowance(l: Ledger, owner: Address, spender: Address): nat {
    Get(l.allowed, (owner, spender))
  }

  function UpgradeStateOf(l: Ledger): UpgradeState {
    if l.agent == 0 then WaitingForAgent else if l.upgraded == 0 then ReadyToUpgrade else Upgrading
  }

  /** Balances after moving value from one account to another; moving to oneself changes nothing. */
  function Move(m: map<Address, nat>, from: Address, to: Address, value: nat): map<Address, nat>
    requires from != to ==> value <= Get(m, from)
  {
    if from == to then m[from := Get(m, from)]
    else m[from := Get(m, from) - value][to := Get(m, to) + value]
  }

  /** Exactly when transferFrom does not throw, given a conserved ledger. */
  predicate TransferFromAllowed(l: Ledger, sender: Address, from: Address, to: Address, value: nat) {
    && value <= Allowance(l, from, sender)
    && (if from == to then Bal(l, from) + value < WORD else value <= Bal(l, from))
  }

  /** What a call by `sender` does on unbounded integers; None is a throw, which undoes everything. */
  function Exec(l: Ledger, sender: Address, call: Call): Option<Ledger> {
    match call
    case Transfer(to, value) =>
      if value <= Bal(l, sender) then Some(l.(balances := Move(l.balances, sender, to, value))) else None
    case TransferFrom(from, to, value) =>
      if TransferFromAllowed(l, sender, from, to, value) then
        Some(l.(balances := Move(l.balances, from, to, value),
                allowed := l.allowed[(from, sender) := Allowance(l, from, sender) - value]))
      else None
    case Approve(spender, value) =>
      if value < WORD && (value == 0 || Allowance(l, sender, spender) == 0) then
        Some(l.(allowed := l.allowed[(sender, spender) := value]))
      else None
    case Burn(value) =>
      if value <= Bal(l, sender) then
        Some(l.(balances := l.balances[sender := Bal(l, sender) - value],
                supply := Dec(l.supply, value), burned := l.burned + value))
      else None
    case Upgrade(value, accepted) =>
      if UpgradeStateOf(l).WaitingForAgent? || value == 0 || value > Bal(l, sender) || !accepted then None
      else Some(l.(balances := l.balances[sender := Bal(l, sender) - value],
                   supply := Dec(l.supply, value), upgraded := l.upgraded + value))
    case SetUpgradeAgent(agent, isAgent, originalSupply) =>
      if agent == 0 || sender != l.master || UpgradeStateOf(l).Upgrading? || !isAgent
         || originalSupply != l.supply then None
      else Some(l.(agent := agent))
    case SetUpgradeMaster(master) =>
      if master == 0 || sender != l.master then None else Some(l.(master := master))
  }

  /** Subtraction that the conserved ledger keeps from going below zero. */
  function Dec(a: nat, b: nat): nat {
    if b <= a then a - b else 0
  }

  /** The sum of all balances. */
  ghost function Total<K>(m: map<K, nat>): nat
    decreases |m|
  {
    if |m| == 0 then 0
    else
      var k :| k in m;
      assert |m - {k}| < |m| by { assert (m - {k}).Keys == m.Keys - {k}; }
      m[k] + Total(m - {k})
  }

  /** The sum of balances is the supply, and no token was ever lost; so every balance fits in a word. */
  ghost predicate Conserved(l: Ledger) {
    && Total(l.balances) == l.supply
    && l.supply + l.upgraded + l.burned == l.issued < WORD
    && forall k <- l.allowed :: l.allowed[k] < WORD
  }

  lemma {:induction false} TotalWithout<K>(m: map<K, nat>, k: K)
    requires k in m
    ensures Total(m) == m[k] + Total(m - {k})
    decreases |m|
  {
    hide Total;
    var j := Picked(m);
    if j != k {
      Smaller(m, j);
      Smaller(m, k);
      RemovalsCommute(m, j, k);
      TotalWithout(m - {j}, k);
      TotalWithout(m - {k}, j);
    }
  }

  lemma Picked<K>(m: map<K, nat>) returns (j: K)
    requires |m| != 0
    ensures j in m && Total(m) == m[j] + Total(m - {j})
  {
    j :| j in m && Total(m) == m[j] + Total(m - {j});
  }

  lemma Smaller<K>(m: map<K, nat>, k: K)
    requires k in m
    ensures |m - {k}| < |m|
  {
    assert (m - {k}).Keys == m.Keys - {k};
  }

  lemma RemovalsCommute<K>(m: map<K, nat>, j: K, k: K)
    ensures (m - {j}) - {k} == (m - {k}) - {j}
  {}

  lemma TotalUpdate<K>(m: map<K, nat>, k: K, v: nat)
    ensures Total(m[k := v]) == Total(m) - Get(m, k) + v
    ensures Get(m, k) <= Total(m)
  {
    hide Total;
    TotalWithout(m[k := v], k);
    assert m[k := v] - {k} == m - {k};
    if k in m { TotalWithout(m, k); } else { assert m - {k} == m; }
  }

  lemma TwoBalances<K>(m: map<K, nat>, j: K, k: K)
    requires j != k
    ensures Get(m, j) + Get(m, k) <= Total(m)
  {
    TotalUpdate(m, j, 0);
    TotalUpdate(m[j := 0], k, 0);
  }

  /** Crediting before debiting gives the same balances as a move. */
  lemma CreditFirst(m: map<Address, nat>, from: Address, to: Address, value: nat)
    requires from != to ==> value <= Get(m, from)
    ensures var credited := m[to := Get(m, to) + value];
            value <= Get(credited, from) && credited[from := Get(credited, from) - value] == Move(m, from, to, value)
  {}

  lemma TotalMove(m: map<Address, nat>, from: Address, to: Address, value: nat)
    requires from != to ==> value <= Get(m, from)
    ensures Total(Move(m, from, to, value)) == Total(m)
  {
    hide Total;
    if from == to {
      TotalUpdate(m, from, Get(m, from));
    } else {
      TotalUpdate(m, from, Get(m, from) - value);
      TotalUpdate(m[from := Get(m, from) - value], to, Get(m, to) + value);
    }
  }

  lemma MoveConserves(l: Ledger, from: Address, to: Address, value: nat)
    requires Conserved(l) && (from != to ==> value <= Bal(l, from))
    ensures Conserved(l.(balances := Move(l.balances, from, to, value)))
  {
    hide Total, Move;
    TotalMove(l.balances, from, to, value);
  }

  lemma RetireConserves(l: Ledger, holder: Address, value: nat)
    requires Conserved(l) && value <= Bal(l, holder)
    ensures value <= l.supply
    ensures Total(l.balances[holder := Bal(l, holder) - value]) == l.supply - value
  {
    hide Total;
    TotalUpdate(l.balances, holder, Bal(l, holder) - value);
  }

  lemma AllowanceConserves(l: Ledger, key: (Address, Address), value: nat)
    requires Conserved(l) && value < WORD
    ensures Conserved(l.(allowed := l.allowed[key := value]))
  {
    hide Total;
  }

  /** Every successful call keeps the ledger conserved. */
  lemma ExecConserves(l: Ledger, sender: Address, call: Call)
    requires Conserved(l)
    ensures Exec(l, sender, call).Some? ==>
              Conserved(Exec(l, sender, call).value) && Exec(l, sender, call).value.issued == l.issued
  {
    hide Total, Move;
    match call
    case Transfer(to, value) =>
      if value <= Bal(l, sender) { MoveConserves(l, sender, to, value); }
    case TransferFrom(from, to, value) =>
      if TransferFromAllowed(l, sender, from, to, value) { TransferFromConserves(l, sender, from, to, value); }
    case Burn(value) => if value <= Bal(l, sender) { RetireConserves(l, sender, value); }
    case Upgrade(value, accepted) => if value <= Bal(l, sender) { RetireConserves(l, sender, value); }
    case Approve(spender, value) => if value < WORD { AllowanceConserves(l, (sender, spender), value); }
    case _ =>
  }

  lemma TransferFromConserves(l: Ledger, sender: Address, from: Address, to: Address, value: nat)
    requires Conserved(l) && TransferFromAllowed(l, sender, from, to, value)
    ensures Conserved(l.(balances := Move(l.balances, from, to, value),
                         allowed := l.allowed[(from, sender) := Allowance(l, from, sender) - value]))
  {
    hide Total, Move;
    MoveConserves(l, from, to, value);
    AllowanceFits(l, (from, sender));
    AllowanceConserves(l.(balances := Move(l.balances, from, to, value)), (from, sender),
                       Allowance(l, from, sender) - value);
  }

  lemma AllowanceFits(l: Ledger, key: (Address, Address))
    requires Conserved(l)
    ensures Get(l.allowed, key) < WORD
  {
    if key in l.allowed { assert l.allowed[key] < WORD; }
  }

  /** A call sequence; a call that throws leaves the ledger as it was. */
  function Step(l: Ledger, sender: Address, call: Call): Ledger {
    match Exec(l, sender, call) case Some(l') => l' case None => l
  }

  function RunCalls(l: Ledger, calls: seq<(Address, Call)>): Ledger {
    if calls == [] then l
    else
      var last := calls[|calls| - 1];
      Step(RunCalls(l, calls[..|calls| - 1]), last.0, last.1)
  }

  /** Over any call sequence balances sum to the supply, and supply, upgrades and burns to what was issued. */
  lemma {:induction false} CallsConserve(l: Ledger, calls: seq<(Address, Call)>)
    requires Conserved(l)
    ensures Conserved(RunCalls(l, calls)) && RunCalls(l, calls).issued == l.issued
  {
    if calls != [] {
      hide Exec, Conserved;
      CallsConserve(l, calls[..|calls| - 1]);
      var last := calls[|calls| - 1];
      ExecConserves(RunCalls(l, calls[..|calls| - 1]), last.0, last.1);
    }
  }

  /** Once some token was upgraded, neither the agent nor the upgrade state ever changes again. */
  lemma {:induction false} UpgradingIsFinal(l: Ledger, calls: seq<(Address, Call)>)
    requires UpgradeStateOf(l).Upgrading?
    ensures UpgradeStateOf(RunCalls(l, calls)).Upgrading? && RunCalls(l, calls).agent == l.agent
  {
    if calls != [] {
      UpgradingIsFinal(l, calls[..|calls| - 1]);
    }
  }

  function Delta(a: Address, from: Address, to: Address, value: nat): int {
    (if a == to then value as int else 0) - (if a == from then value as int else 0)
  }

  /** A transfer moves value between two accounts, uses up allowance, and touches nothing else. */
  lemma TransferMovesValue(l: Ledger, sender: Address, call: Call, from: Address, a: Address, b: Address)
    requires call.Transfer? || call.TransferFrom?
    requires from == if call.Transfer? then sender else call.from
    requires Exec(l, sender, call).Some?
    ensures var l' := Exec(l, sender, call).value;
            var used := if call.TransferFrom? && a == from && b == sender then call.value else 0;
            && Bal(l', a) == Bal(l, a) + Delta(a, from, call.to, call.value)
            && Allowance(l', a, b) == Allowance(l, a, b) - used
            && l' == l.(balances := l'.balances, allowed := l'.allowed)
  {}

  /** When each call goes through; only a transfer between different accounts needs the balance of `from`. */
  lemma CallSucceeds(l: Ledger, sender: Address, call: Call)
    ensures var ok := Exec(l, sender, call).Some?;
            match call
            case Transfer(_, value) => ok <==> value <= Bal(l, sender)
            case TransferFrom(from, to, value) =>
              && (from != to ==> (ok <==> value <= Allowance(l, from, sender) && value <= Bal(l, from)))
              && (ok ==> value <= Allowance(l, from, sender))
            case Approve(spender, value) => ok <==> value < WORD && (value == 0 || Allowance(l, sender, spender) == 0)
            case Burn(value) => ok <==> value <= Bal(l, sender)
            case Upgrade(value, accepted) => ok <==> 0 < value <= Bal(l, sender) && accepted && l.agent != 0
            case SetUpgradeAgent(agent, isAgent, originalSupply) =>
              ok <==> && agent != 0 && sender == l.master && isAgent && originalSupply == l.supply
                      && (l.agent == 0 || l.upgraded == 0)
            case SetUpgradeMaster(master) => ok <==> master != 0 && sender == l.master
  {}

  /** What a call that goes through does to any account and any allowance, and what it leaves alone. */
  lemma CallEffects(l: Ledger, sender: Address, call: Call, a: Address, b: Address)
    requires Conserved(l) && Exec(l, sender, call).Some?
    requires !call.Transfer? && !call.TransferFrom?
    ensures var l' := Exec(l, sender, call).value;
            var own := if a == sender then Bal(l, a) - Bal(l', a) else Bal(l', a) - Bal(l, a);
            match call
            case Approve(spender, value) =>
              && Allowance(l', a, b) == (if a == sender && b == spender then value else Allowance(l, a, b))
              && l' == l.(allowed := l'.allowed)
            case Burn(value) =>
              && own == (if a == sender then value else 0) && l'.supply + value == l.supply
              && l'.burned == l.burned + value
              && l' == l.(balances := l'.balances, supply := l'.supply, burned := l'.burned)
            case Upgrade(value, _) =>
              && own == (if a == sender then value else 0) && l'.supply + value == l.supply
              && l'.upgraded == l.upgraded + value
              && l' == l.(balances := l'.balances, supply := l'.supply, upgraded := l'.upgraded)
            case SetUpgradeAgent(agent, _, _) => l'.agent == agent && l' == l.(agent := agent)
            case SetUpgradeMaster(master) => l'.master == master && l' == l.(master := master)
            case _ => true
  {
    hide Total;
    match call
    case Burn(value) => RetireConserves(l, sender, value);
    case Upgrade(value, _) => RetireConserves(l, sender, value);
    case _ =>
  }

  /** What an account allows others to spend. */
  function Grants(l: Ledger, a: Address): map<(Address, Address), nat> {
    map k <- l.allowed | k.0 == a :: l.allowed[k]
  }

  /** Balance beyond what others may spend; it can be negative. */
  ghost function Unspendable(l: Ledger, a: Address): int {
    Bal(l, a) - Total(Grants(l, a))
  }

  lemma GrantsAfter(l: Ledger, l': Ledger, key: (Address, Address), value: nat, a: Address)
    requires l'.allowed == l.allowed[key := value]
    ensures Grants(l', a) == if key.0 == a then Grants(l, a)[key := value] else Grants(l, a)
    ensures key.0 == a ==> Get(Grants(l, a), key) == Get(l.allowed, key)
  {}

  lemma OthersNeedAllowance(l: Ledger, sender: Address, call: Call, a: Address)
    requires sender != a
    ensures Unspendable(Step(l, sender, call), a) >= Unspendable(l, a)
  {
    hide Total;
    var l' := Step(l, sender, call);
    if call.TransferFrom? && Exec(l, sender, call).Some? {
      var key := (call.from, sender);
      GrantsAfter(l, l', key, Get(l.allowed, key) - call.value, a);
      if call.from == a { TotalUpdate(Grants(l, a), key, Get(l.allowed, key) - call.value); }
    } else if call.Approve? && Exec(l, sender, call).Some? {
      GrantsAfter(l, l', (sender, call.spender), call.value, a);
    } else {
      assert Grants(l', a) == Grants(l, a);
    }
  }

  /** However others call, they take at most what an account allowed them, and use up the allowance. */
  lemma {:induction false} SpendingNeedsConsent(l: Ledger, calls: seq<(Address, Call)>, a: Address)
    requires forall i :: 0 <= i < |calls| ==> calls[i].0 != a
    ensures Unspendable(RunCalls(l, calls), a) >= Unspendable(l, a)
    ensures Bal(RunCalls(l, calls), a) >= Bal(l, a) - Total(Grants(l, a))
  {
    hide Step, Total;
    if calls != [] {
      var init, last := calls[..|calls| - 1], calls[|calls| - 1];
      SpendingNeedsConsent(l, init, a);
      OthersNeedAllowance(RunCalls(l, init), last.0, last.1, a);
    }
  }

  /** A transferFrom to oneself goes through for more than the balance: only the allowance is spent. */
  lemma SelfTransferFromIgnoresBalance(l: Ledger, sender: Address, owner: Address, value: nat)
    requires Bal(l, owner) < value && Bal(l, owner) + value < WORD && value <= Allowance(l, owner, sender)
    ensures var r := Exec(l, sender, TransferFrom(owner, owner, value));
            && r.Some? && (forall a :: Bal(r.value, a) == Bal(l, a))
            && Allowance(r.value, owner, sender) == Allowance(l, owner, sender) - value
  {}

  /** uint256 addition wraps around; the check throws exactly when it did. */
  function SafeAdd(a: nat, b: nat): (r: Option<nat>)
    requires a < WORD && b < WORD
    ensures r == if a + b < WORD then Some(a + b) else None
  {
    var c := (a + b) % WORD;
    if c >= a && c >= b then Some(c) else None
  }

  function SafeSub(a: nat, b: nat): Option<nat> {
    if b <= a then Some(a - b) else None
  }

  /** The deployed contract.  A throw restores the storage the call started with. */
  class Token {
    var balances: map<Address, nat>
    var allowed: map<(Address, Address), nat>
    var totalSupply: nat
    var totalUpgraded: nat
    var upgradeMaster: Address
    var upgradeAgent: Address
    ghost var burned: nat
    ghost const issued: nat

    ghost function State(): Ledger
      reads this
    {
      Ledger(balances, allowed, totalSupply, totalUpgraded, upgradeMaster, upgradeAgent, burned, issued)
    }

    ghost predicate Valid()
      reads this
    {
      Conserved(State())
    }

    constructor (owner: Address, supply: nat)
      requires supply < WORD
      ensures Valid() && issued == supply && totalSupply == supply
      ensures forall a :: Bal(State(), a) == if a == owner then supply else 0
    {
      balances, allowed := map[owner := supply], map[];
      totalSupply, totalUpgraded := supply, 0;
      upgradeMaster, upgradeAgent := owner, 0;
      burned, issued := 0, supply;
      new;
      TotalUpdate<Address>(map[], owner, supply);
      assert map[][owner := supply] == balances;
    }

    method transfer(sender: Address, to: Address, value: nat) returns (ok: bool)
      requires Valid() && value < WORD
      modifies this
      ensures Valid()
      ensures ok == Exec(old(State()), sender, Transfer(to, value)).Some?
      ensures State() == Step(old(State()), sender, Transfer(to, value))
    {
      hide Total, Conserved;
      ExecConserves(State(), sender, Transfer(to, value));
      FitsInWord(sender);
      var debited := SafeSub(Get(balances, sender), value);
      if debited.None? { return false; }
      if sender != to { TwoFitInWord(sender, to); }
      var m := balances[sender := debited.value];
      var credited := SafeAdd(Get(m, to), value);
      assert credited.Some?;
      balances := m[to := credited.value];
      assert balances == Move(old(balances), sender, to, value);
      return true;
    }

    method transferFrom(sender: Address, from: Address, to: Address, value: nat) returns (ok: bool)
      requires Valid() && value < WORD
      modifies this
      ensures Valid()
      ensures ok == Exec(old(State()), sender, TransferFrom(from, to, value)).Some?
      ensures State() == Step(old(State()), sender, TransferFrom(from, to, value))
    {
      hide Total, Conserved, Move;
      ExecConserves(State(), sender, TransferFrom(from, to, value));
      FitsInWord(to);
      if from != to { TwoFitInWord(from, to); }
      var allowance := Get(allowed, (from, sender));
      var credited := SafeAdd(Get(balances, to), value);
      if credited.None? { return false; }
      var m := balances[to := credited.value];
      var debited := SafeSub(Get(m, from), value);
      if debited.None? { return false; }
      var left := SafeSub(allowance, value);
      if left.None? { return false; }
      CreditFirst(balances, from, to, value);
      balances := m[from := debited.value];
      allowed := allowed[(from, sender) := left.value];
      return true;
    }

    method approve(sender: Address, spender: Address, value: nat) returns (ok: bool)
      requires Valid() && value < WORD
      modifies this
      ensures Valid()
      ensures ok == Exec(old(State()), sender, Approve(spender, value)).Some?
      ensures State() == Step(old(State()), sender, Approve(spender, value))
    {
      hide Total, Conserved;
      ExecConserves(State(), sender, Approve(spender, value));
      if value != 0 && Get(allowed, (sender, spender)) != 0 { return false; }
      allowed := allowed[(sender, spender) := value];
      return true;
    }

    method burn(sender: Address, value: nat) returns (ok: bool)
      requires Valid() && value < WORD
      modifies this
      ensures Valid()
      ensures ok == Exec(old(State()), sender, Burn(value)).Some?
      ensures State() == Step(old(State()), sender, Burn(value))
    {
      hide Total, Conserved;
      ExecConserves(State(), sender, Burn(value));
      FitsInWord(sender);
      var debited := SafeSub(Get(balances, sender), value);
      if debited.None? { return false; }
      var supply := SafeSub(totalSupply, value);
      if supply.None? { return false; }
      balances, totalSupply := balances[sender := debited.value], supply.value;
      burned := burned + value;
      return true;
    }

    method upgrade(sender: Address, value: nat, accepted: bool) returns (ok: bool)
      requires Valid() && value < WORD
      modifies this
      ensures Valid()
      ensures ok == Exec(old(State()), sender, Upgrade(value, accepted)).Some?
      ensures State() == Step(old(State()), sender, Upgrade(value, accepted))
    {
      hide Total, Conserved;
      ExecConserves(State(), sender, Upgrade(value, accepted));
      FitsInWord(sender);
      if upgradeAgent == 0 || value == 0 { return false; }
      var debited := SafeSub(Get(balances, sender), value);
      if debited.None? { return false; }
      var supply := SafeSub(totalSupply, value);
      if supply.None? { return false; }
      UpgradesFitInWord();
      var upgraded := SafeAdd(totalUpgraded, value);
      assert upgraded.Some?;
      if !accepted { return false; }
      balances, totalSupply, totalUpgraded := balances[sender := debited.value], supply.value, upgraded.value;
      return true;
    }

    method setUpgradeAgent(sender: Address, agent: Address, isAgent: bool, originalSupply: nat) returns (ok: bool)
      requires Valid()
      modifies this
      ensures Valid()
      ensures ok == Exec(old(State()), sender, SetUpgradeAgent(agent, isAgent, originalSupply)).Some?
      ensures State() == Step(old(State()), sender, SetUpgradeAgent(agent, isAgent, originalSupply))
    {
      if agent == 0 || sender != upgradeMaster { return false; }
      if upgradeAgent != 0 && totalUpgraded != 0 { return false; }
      if !isAgent || originalSupply != totalSupply { return false; }
      upgradeAgent := agent;
      return true;
    }

    method setUpgradeMaster(sender: Address, master: Address) returns (ok: bool)
      requires Valid()
      modifies this
      ensures Valid()
      ensures ok == Exec(old(State()), sender, SetUpgradeMaster(master)).Some?
      ensures State() == Step(old(State()), sender, SetUpgradeMaster(master))
    {
      if master == 0 || sender != upgradeMaster { return false; }
      upgradeMaster := master;
      return true;
    }

    lemma FitsInWord(a: Address)
      requires Valid()
      ensures Get(balances, a) <= totalSupply < WORD
    {
      TotalUpdate(balances, a, 0);
    }

    lemma UpgradesFitInWord()
      requires Valid()
      ensures totalSupply + totalUpgraded < WORD
    {}

    lemma TwoFitInWord(a: Address, b: Address)
      requires Valid() && a != b
      ensures Get(balances, a) + Get(balances, b) <= totalSupply < WORD
    {
      TwoBalances(balances, a, b);
    }
  }
}
