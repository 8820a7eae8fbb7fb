/** The two payers: how node answers about the transactions of a nonce group become one verdict. */
module Payers {
  import opened Wrappers
  import opened Tables
  import opened Protocol
  import opened Groups
  import opened Database
  import opened Network
  import opened Conduct

  /** A status is backed by the chain: failed and confirmed come with the mined receipt. */
  predicate StatusTrue(status: TxStatus, mined: map<nat, Receipt>) {
    match status.state
    case Pending => status.receipt.None?
    case Dropped => status.receipt.None?
    case _ =>
      && status.hash.body.nonce in mined
      && mined[status.hash.body.nonce] == Receipt(status.hash, status.state.Confirmed?)
      && status.receipt == Some(mined[status.hash.body.nonce])
  }

  predicate AllTrue(statuses: seq<TxStatus>, mined: map<nat, Receipt>) {
    forall m :: 0 <= m < |statuses| ==> StatusTrue(statuses[m], mined)
  }

  /** The statuses that are not dropped, in order. */
  function Remaining(statuses: seq<TxStatus>): seq<TxStatus> {
    if statuses == [] then []
    else
      var rest := Remaining(statuses[..|statuses| - 1]);
      var last := statuses[|statuses| - 1];
      if last.state.Dropped? then rest else rest + [last]
  }

  /** The verdict on a group: wait while several transactions remain, otherwise the state of the one that does. */
  function Decision(statuses: seq<TxStatus>): TxState {
    var other := Remaining(statuses);
    if |other| > 1 then Pending else if |other| == 0 then Dropped else other[0].state
  }

  /** What both payers promise: a true status for each transaction, in order, and the verdict they imply. */
  predicate Verdict(state: TxState, statuses: seq<TxStatus>, txs: seq<TxRow>, mined: map<nat, Receipt>) {
    Aligned(statuses, txs) && AllTrue(statuses, mined) && state == Decision(statuses)
  }

  // ---------------------------------------------------------------- the payer contract

  /** Exactly one status is left, at this index. */
  predicate OnlyOneLeft(statuses: seq<TxStatus>, w: nat) {
    && w < |statuses| && !statuses[w].state.Dropped?
    && forall k :: 0 <= k < |statuses| && k != w ==> statuses[k].state.Dropped?
  }

  lemma {:induction false} RemainingNone(statuses: seq<TxStatus>)
    ensures Remaining(statuses) == [] <==> forall k :: 0 <= k < |statuses| ==> statuses[k].state.Dropped?
  {
    if statuses != [] {
      var init := statuses[..|statuses| - 1];
      RemainingNone(init);
      assert forall k :: 0 <= k < |init| ==> init[k] == statuses[k];
    }
  }

  lemma {:induction false} RemainingOne(statuses: seq<TxStatus>) returns (w: nat)
    requires |Remaining(statuses)| == 1
    ensures OnlyOneLeft(statuses, w) && Remaining(statuses)[0] == statuses[w]
  {
    var init, last := statuses[..|statuses| - 1], statuses[|statuses| - 1];
    if last.state.Dropped? {
      w := RemainingOne(init);
    } else {
      RemainingNone(init);
      w := |statuses| - 1;
    }
    assert forall k :: 0 <= k < |init| ==> init[k] == statuses[k];
  }

  lemma {:induction false} OneRemaining(statuses: seq<TxStatus>, w: nat)
    requires OnlyOneLeft(statuses, w)
    ensures Remaining(statuses) == [statuses[w]]
  {
    var init := statuses[..|statuses| - 1];
    assert forall k :: 0 <= k < |init| ==> init[k] == statuses[k];
    if w == |statuses| - 1 { RemainingNone(init); } else { OneRemaining(init, w); }
  }

  /** A verdict is confirmed or failed iff exactly one transaction is not dropped and that is its state. */
  lemma DecisionMeaning(statuses: seq<TxStatus>, state: TxState)
    requires state.Confirmed? || state.Failed?
    ensures Decision(statuses) == state <==> exists w: nat :: OnlyOneLeft(statuses, w) && statuses[w].state == state
  {
    if Decision(statuses) == state {
      var w := RemainingOne(statuses);
      assert OnlyOneLeft(statuses, w) && statuses[w].state == state;
    }
    if w: nat :| OnlyOneLeft(statuses, w) && statuses[w].state == state {
      OneRemaining(statuses, w);
    }
  }

  /** A verdict is dropped iff every transaction is, and pending iff it is none of the others. */
  lemma DroppedMeaning(statuses: seq<TxStatus>)
    ensures Decision(statuses).Dropped? <==> forall k :: 0 <= k < |statuses| ==> statuses[k].state.Dropped?
    ensures Decision(statuses).Pending? <==>
              || (exists j, k :: 0 <= j < k < |statuses| && !statuses[j].state.Dropped? && !statuses[k].state.Dropped?)
              || (exists w: nat :: OnlyOneLeft(statuses, w) && statuses[w].state.Pending?)
  {
    RemainingNone(statuses);
    RemainingIsNotDropped(statuses);
    if |Remaining(statuses)| == 1 {
      var w := RemainingOne(statuses);
      assert OnlyOneLeft(statuses, w);
    }
    if |Remaining(statuses)| > 1 {
      var j, k := TwoRemain(statuses);
      assert !statuses[j].state.Dropped? && !statuses[k].state.Dropped?;
    }
  }

  lemma {:induction false} TwoRemain(statuses: seq<TxStatus>) returns (j: nat, k: nat)
    requires |Remaining(statuses)| > 1
    ensures j < k < |statuses| && !statuses[j].state.Dropped? && !statuses[k].state.Dropped?
  {
    var init := statuses[..|statuses| - 1];
    if |Remaining(init)| > 1 {
      j, k := TwoRemain(init);
    } else {
      j := RemainingOne(init);
      k := |statuses| - 1;
    }
  }

  /** A group without transactions would read as dropped, and be paid again. */
  lemma EmptyGroupReadsDropped(statuses: seq<TxStatus>)
    requires Aligned(statuses, [])
    ensures Decision(statuses) == Dropped
  {}

  /** The contract the pipeline relies on: a final verdict has one winner, backed by the mined receipt. */
  lemma VerdictHasWinner(state: TxState, statuses: seq<TxStatus>, v: GroupView, rows: seq<TxRow>,
      mined: map<nat, Receipt>)
    returns (w: nat)
    requires Verdict(state, statuses, v.txs, mined) && (state.Confirmed? || state.Failed?)
    requires Holds(v, rows) && forall i :: 0 <= i < |rows| ==> rows[i].nonce == rows[i].hash.body.nonce
    ensures v.nonce in mined && OneWinner(statuses, w, mined[v.nonce]) && mined[v.nonce].success == state.Confirmed?
  {
    w := RemainingOne(statuses);
    assert StatusTrue(statuses[w], mined);
    assert v.txs[w] in rows;
    forall k | 0 <= k < |statuses| && k != w ensures statuses[k].receipt.None? {
      assert StatusTrue(statuses[k], mined);
    }
  }

  lemma TruthStays(statuses: seq<TxStatus>, a: Chain, b: Chain)
    requires AllTrue(statuses, a.mined) && Later(a, b)
    ensures AllTrue(statuses, b.mined)
  {}

  lemma AnswerAdded(all: seq<TxStatus>, txs: seq<TxRow>, k: nat, status: TxStatus, mined: map<nat, Receipt>)
    requires k < |txs| && Aligned(all, txs[..k]) && AllTrue(all, mined)
    requires status.hash == txs[k].hash && StatusTrue(status, mined)
    ensures Aligned(all + [status], txs[..k + 1]) && AllTrue(all + [status], mined)
    ensures Remaining(all + [status]) == if status.state.Dropped? then Remaining(all) else Remaining(all) + [status]
  {
    hide StatusTrue;
    assert (all + [status])[..k] == all;
  }

  // ---------------------------------------------------------------- node answers

  /** If lookups were honest, what was told dropped never reached a node. */
  predicate HonestMeans(lookups: seq<LookedUp>, all: seq<TxStatus>, sent: set<Hash>) {
    AllHonest(lookups) ==> forall k :: 0 <= k < |all| && all[k].state.Dropped? ==> all[k].hash !in sent
  }

  lemma HonestOn(a: seq<LookedUp>, b: seq<LookedUp>, all: seq<TxStatus>, status: TxStatus, sent: set<Hash>)
    requires HonestMeans(a, all, sent) && HonestMeans(b, [status], sent)
    ensures HonestMeans(a + b, all + [status], sent)
  {
    if AllHonest(a + b) {
      assert AllHonest(a) by { assert forall k :: 0 <= k < |a| ==> (a + b)[k] == a[k]; }
      assert AllHonest(b) by { assert forall k :: 0 <= k < |b| ==> (a + b)[|a| + k] == b[k]; }
      assert [status][0].state.Dropped? ==> [status][0].hash !in sent;
    }
  }

  /**
    One lookup, and the receipt of a mined transaction.  The state is dropped exactly if the node does not
    know the transaction, and pending if it waits in the pool or has no receipt yet.
    */
  method GetTransactionInfo(net: Network, hash: Hash) returns (r: Result<TxStatus, Error>)
    requires net.Valid()
    modifies net`log, net`chain, net`now, net`told, net`lookups, net`receipts, net.db.faults
    ensures net.Valid() && old(net.log) <= net.log && OnlyEnvironment(net.log, |old(net.log)|)
    ensures Later(old(net.chain), net.chain) && net.chain.sent == old(net.chain.sent) && old(net.now) <= net.now
    ensures r.Ok? ==> r.value.hash == hash && StatusTrue(r.value, net.chain.mined)
    ensures net.told == if r.Ok? then old(net.told) + [r.value] else old(net.told)
    ensures |net.lookups| == |old(net.lookups)| + 1 && old(net.lookups) <= net.lookups
    ensures var asked := net.lookups[|old(net.lookups)|];
            && asked.hash == hash && asked.sent == (hash in old(net.chain.sent))
            && (r.Ok? ==>
                  && (r.value.state.Dropped? <==> asked.answer.NotFound?)
                  && (asked.answer.InPool? ==> r.value.state.Pending?)
                  && (asked.answer.InPool? || asked.answer.NotFound? ==> net.receipts == old(net.receipts))
                  && (asked.answer.Known? ==>
                        && |net.receipts| == |old(net.receipts)| + 1 && old(net.receipts) <= net.receipts
                        && match net.receipts[|old(net.receipts)|]
                           case None => r.value.state.Pending?
                           case Some(receipt) =>
                             && r.value.receipt == Some(receipt)
                             && (if receipt.success then r.value.state.Confirmed? else r.value.state.Failed?)))
    ensures r.Ok? ==> HonestMeans(net.lookups[|old(net.lookups)|..], [r.value], net.chain.sent)
    ensures r.Err? ==> r.error.NodeError? || r.error.Interrupted?
    ensures net.Faults() == if r.Err? then old(net.Faults()) + 1 else old(net.Faults())
  {
    hide Legal, IsGenesis, Replay;
    var answer := net.TransactionByHash(hash);
    match answer
    case RpcError => return Err(NodeError);
    case NotFound => return Ok(TxStatus(hash, Dropped, None));
    case InPool => return Ok(TxStatus(hash, Pending, None));
    case Known =>
      var killed := net.Interfere();
      if killed { return Err(Interrupted); }
      var receipt := net.TransactionReceipt(hash);
      match receipt
      case Err(e) => return Err(e);
      case Ok(None) => return Ok(TxStatus(hash, Pending, None));
      case Ok(Some(rec)) => return Ok(TxStatus(hash, if rec.success then Confirmed else Failed, Some(rec)));
  }

  /** Asks about one transaction, some time after the last answer. */
  method GetTransactionStatus(net: Network, hash: Hash) returns (r: Result<TxStatus, Error>)
    requires net.Valid()
    modifies net`log, net`chain, net`now, net`told, net`lookups, net`receipts, net.db.faults
    ensures net.Valid() && old(net.log) <= net.log && OnlyEnvironment(net.log, |old(net.log)|)
    ensures Later(old(net.chain), net.chain) && net.chain.sent == old(net.chain.sent) && old(net.now) <= net.now
    ensures r.Ok? ==> r.value.hash == hash && StatusTrue(r.value, net.chain.mined)
    ensures net.told == if r.Ok? then old(net.told) + [r.value] else old(net.told)
    ensures old(net.lookups) <= net.lookups
    ensures r.Ok? ==> HonestMeans(net.lookups[|old(net.lookups)|..], [r.value], net.chain.sent)
    ensures r.Err? ==> r.error.NodeError? || r.error.Interrupted?
    ensures net.Faults() == if r.Err? then old(net.Faults()) + 1 else old(net.Faults())
  {
    hide Legal, IsGenesis, Replay, StatusTrue, HonestMeans;
    var killed := net.Interfere();
    if killed { return Err(Interrupted); }
    r := GetTransactionInfo(net, hash);
  }

  lemma NothingAsked(txs: seq<TxRow>, mined: map<nat, Receipt>)
    ensures Aligned([], txs[..0]) && AllTrue([], mined) && Remaining([]) == []
  {}

  datatype Answers = Answers(all: seq<TxStatus>, dropped: seq<TxStatus>, other: seq<TxStatus>)

  /** Asks about each transaction of the group in turn, while the chain moves on. */
  method GetNonceGroupTxStatus(net: Network, txs: seq<TxRow>) returns (r: Result<Answers, Error>)
    requires net.Valid()
    modifies net`log, net`chain, net`now, net`told, net`lookups, net`receipts, net.db.faults
    ensures net.Valid() && old(net.log) <= net.log && OnlyEnvironment(net.log, |old(net.log)|)
    ensures Later(old(net.chain), net.chain) && net.chain.sent == old(net.chain.sent) && old(net.now) <= net.now
    ensures r.Ok? ==> && Aligned(r.value.all, txs) && AllTrue(r.value.all, net.chain.mined)
                      && r.value.other == Remaining(r.value.all) && |r.value.dropped| + |r.value.other| == |txs|
                      && net.told == old(net.told) + r.value.all
    ensures old(net.lookups) <= net.lookups && old(net.told) <= net.told
    ensures r.Ok? ==> HonestMeans(net.lookups[|old(net.lookups)|..], r.value.all, net.chain.sent)
    ensures r.Err? ==> r.error.NodeError? || r.error.Interrupted?
    ensures net.Faults() == if r.Err? then old(net.Faults()) + 1 else old(net.Faults())
  {
    NothingAsked(txs, net.chain.mined);
    assert HonestMeans([], [], net.chain.sent);
    ghost var log0, chain0 := net.log, net.chain;
    assert OnlyEnvironment(log0, |log0|) && Later(chain0, chain0);
    hide Legal, IsGenesis, Replay, StatusTrue, AllTrue, Aligned, Remaining, OnlyEnvironment, Later,
      HonestMeans;
    ghost var lookups0, asked := net.lookups, [];
    var all: seq<TxStatus>, dropped: seq<TxStatus>, other: seq<TxStatus> := [], [], [];
    for k := 0 to |txs|
      invariant net.Valid() && old(net.log) <= net.log && OnlyEnvironment(net.log, |old(net.log)|)
      invariant Later(old(net.chain), net.chain) && net.chain.sent == old(net.chain.sent) && old(net.now) <= net.now
      invariant net.lookups == lookups0 + asked && HonestMeans(asked, all, net.chain.sent)
      invariant net.Faults() == old(net.Faults())
      invariant Aligned(all, txs[..k]) && AllTrue(all, net.chain.mined)
      invariant other == Remaining(all) && |dropped| + |other| == k
      invariant net.told == old(net.told) + all
    {
      ghost var log1, chain1, lookups1 := net.log, net.chain, net.lookups;
      var status := GetTransactionStatus(net, txs[k].hash);
      OnlyEnvironmentStill(log1, net.log, |log0|);
      LaterStill(chain0, chain1, net.chain);
      if status.Err? { return Err(status.error); }
      TruthStays(all, chain1, net.chain);
      HonestOn(asked, net.lookups[|lookups1|..], all, status.value, net.chain.sent);
      asked := asked + net.lookups[|lookups1|..];
      AnswerAdded(all, txs, k, status.value, net.chain.mined);
      all := all + [status.value];
      if status.value.state.Dropped? {
        dropped := dropped + [status.value];
      } else {
        other := other + [status.value];
      }
    }
    assert txs[..|txs|] == txs;
    assert net.lookups[|lookups0|..] == asked;
    return Ok(Answers(all, dropped, other));
  }

  /** The node told a status for each transaction, all of them dropped. */
  predicate ToldDropped(told: seq<TxStatus>, txs: seq<TxRow>) {
    Aligned(told, txs) && Decision(told).Dropped?
  }

  method EthCheckNonceGroup(net: Network, txs: seq<TxRow>, checkOnly: bool)
      returns (r: Result<(TxState, seq<TxStatus>), Error>)
    requires net.Valid()
    modifies net`log, net`chain, net`now, net`told, net`lookups, net`receipts, net.db.faults
    ensures net.Valid() && old(net.log) <= net.log && OnlyEnvironment(net.log, |old(net.log)|)
    ensures Later(old(net.chain), net.chain) && net.chain.sent == old(net.chain.sent) && old(net.now) <= net.now
    ensures r.Ok? ==> Verdict(r.value.0, r.value.1, txs, net.chain.mined) && net.told == old(net.told) + r.value.1
    ensures r.Ok? && r.value.0.Dropped? ==> !checkOnly
    ensures old(net.lookups) <= net.lookups && old(net.told) <= net.told
    ensures r.Ok? || r.error.ResendAborted? ==>
              HonestMeans(net.lookups[|old(net.lookups)|..], net.told[|old(net.told)|..], net.chain.sent)
    ensures r.Err? ==> match r.error
                       case ResendAborted => checkOnly && ToldDropped(net.told[|old(net.told)|..], txs)
                       case NodeError => true
                       case Interrupted => true
                       case _ => false
    ensures net.Faults() == if r.Err? && !r.error.ResendAborted? then old(net.Faults()) + 1 else old(net.Faults())
  {
    hide Legal, IsGenesis, Replay, AllTrue, Aligned, Remaining, HonestMeans;
    var answers := GetNonceGroupTxStatus(net, txs);
    if answers.Err? { return Err(answers.error); }
    var transactions := answers.value;
    assert net.told[|old(net.told)|..] == transactions.all;
    if |transactions.other| > 1 {
      return Ok((Pending, transactions.all));
    }
    if |transactions.other| == 0 {
      if checkOnly { return Err(ResendAborted); }
      return Ok((Dropped, transactions.all));
    }
    RemainingIsNotDropped(transactions.all);
    var status := transactions.other[0];
    match status.state
    case Pending => return Ok((Pending, transactions.all));
    case Failed => return Ok((Failed, transactions.all));
    case Confirmed => return Ok((Confirmed, transactions.all));
    case Dropped => assert false;
  }

  lemma RemainingIsNotDropped(statuses: seq<TxStatus>)
    ensures forall k :: 0 <= k < |Remaining(statuses)| ==> !Remaining(statuses)[k].state.Dropped?
  {}

  lemma SoleStatusDecides(status: TxStatus)
    requires !status.state.Dropped?
    ensures Decision([status]) == status.state
  {
    OneRemaining([status], 0);
  }

  /** zkSync Era follows one transaction per nonce and never calls it dropped. */
  method ZkSyncCheckNonceGroup(net: Network, txs: seq<TxRow>, checkOnly: bool)
      returns (r: Result<(TxState, seq<TxStatus>), Error>)
    requires net.Valid()
    modifies net`told, net`receipts, net.db.faults
    ensures net.Valid() && old(net.told) <= net.told
    ensures r.Ok? ==> net.told == old(net.told) + r.value.1 && |r.value.1| == 1 && !r.value.1[0].state.Dropped?
    ensures r.Ok? ==> Verdict(r.value.0, r.value.1, txs, net.chain.mined) && !r.value.0.Dropped?
    ensures r.Ok? ==>
              && |net.receipts| == |old(net.receipts)| + 1
              && match net.receipts[|old(net.receipts)|]
                 case None => r.value.0.Pending?
                 case Some(receipt) => if receipt.success then r.value.0.Confirmed? else r.value.0.Failed?
    ensures r.Err? ==> if |txs| != 1 then r.error.OneTransactionOnly? else r.error.NodeError?
    ensures |txs| != 1 ==> r.Err? && net.told == old(net.told)
    ensures net.Faults() == if r.Err? && !r.error.OneTransactionOnly? then old(net.Faults()) + 1 else old(net.Faults())
  {
    hide Legal, IsGenesis, Replay, Decision;
    if |txs| != 1 { return Err(OneTransactionOnly); }
    var receipt := net.TransactionReceipt(txs[0].hash);
    if receipt.Err? { return Err(receipt.error); }
    var state := match receipt.value
                 case None => Pending
                 case Some(rec) => if !rec.success then Failed else Confirmed;
    var status := TxStatus(txs[0].hash, state, receipt.value);
    SoleStatusDecides(status);
    return Ok((state, [status]));
  }

  method CheckNonceGroup(kind: Kind, net: Network, txs: seq<TxRow>, checkOnly: bool)
      returns (r: Result<(TxState, seq<TxStatus>), Error>)
    requires net.Valid()
    modifies net`log, net`chain, net`now, net`told, net`lookups, net`receipts, net.db.faults
    ensures net.Valid() && old(net.log) <= net.log && OnlyEnvironment(net.log, |old(net.log)|)
    ensures Later(old(net.chain), net.chain) && net.chain.sent == old(net.chain.sent) && old(net.now) <= net.now
    ensures r.Ok? ==> Verdict(r.value.0, r.value.1, txs, net.chain.mined) && net.told == old(net.told) + r.value.1
    ensures r.Ok? && r.value.0.Dropped? ==> !checkOnly && kind.Eth?
    ensures r.Ok? && kind.ZkSyncEra? ==> |r.value.1| == 1
    ensures old(net.lookups) <= net.lookups && old(net.told) <= net.told
    ensures r.Ok? || r.error.ResendAborted? ==>
              HonestMeans(net.lookups[|old(net.lookups)|..], net.told[|old(net.told)|..], net.chain.sent)
    ensures kind.ZkSyncEra? ==> (|txs| != 1 <==> r == Err(OneTransactionOnly))
    ensures r.Err? ==> match r.error
                       case ResendAborted => checkOnly && kind.Eth? && ToldDropped(net.told[|old(net.told)|..], txs)
                       case OneTransactionOnly => kind.ZkSyncEra? && |txs| != 1 && net.told == old(net.told)
                       case NodeError => true
                       case Interrupted => true
                       case _ => false
    ensures net.Faults()
              == if r.Err? && (r.error.NodeError? || r.error.Interrupted?) then old(net.Faults()) + 1
                  else old(net.Faults())
  {
    match kind
    case Eth => r := EthCheckNonceGroup(net, txs, checkOnly);
    case ZkSyncEra =>
      r := ZkSyncCheckNonceGroup(net, txs, checkOnly);
      assert r.Ok? ==> net.told[|old(net.told)|..] == r.value.1;
  }
}
