/** The payout database: tables that methods update in place, with atomic commits and unreliable I/O. */
module Database {
  import opened Wrappers
  import opened Money
  import opened Tables
  import opened Protocol
  import opened Groups

  datatype Error =
    | Interrupted
    | DatabaseError
    | UniqueViolation
    | WrongPayoutGroup(expected: int, got: int)
    | NodeError
    | StaleNonce(nonce: nat, atLeast: nat)
    | NoPayouts
    | Panicked
    | AmountNotPositive
    | NotEnoughTokens
    | NotEnoughAllowance
    | MultitransferUnsupported
    | OneTransactionOnly
    | ResendAborted
    | SendFailed
    | TransactionsFailed

  /** The transactions of one nonce that the pipeline still follows. */
  class NonceGroup {
    const nonce: nat
    const payoutGroupID: int
    var txs: seq<TxRow>

    constructor (nonce: nat, payoutGroupID: int, txs: seq<TxRow>)
      ensures this.nonce == nonce && this.payoutGroupID == payoutGroupID && this.txs == txs
    {
      this.nonce, this.payoutGroupID, this.txs := nonce, payoutGroupID, txs;
    }

    function View(): GroupView
      reads this
    {
      GroupView(nonce, payoutGroupID, txs)
    }
  }

  ghost function Views(groups: seq<NonceGroup>): (v: seq<GroupView>)
    reads groups
    ensures |v| == |groups| && forall k :: 0 <= k < |groups| ==> v[k] == groups[k].View()
  {
    if groups == [] then [] else Views(groups[..|groups| - 1]) + [groups[|groups| - 1].View()]
  }

  predicate Distinct(groups: seq<NonceGroup>) {
    forall j, k :: 0 <= j < k < |groups| ==> groups[j] != groups[k]
  }

  predicate SortedByNonce(rows: seq<TxRow>) {
    forall i, j :: 0 <= i < j < |rows| ==> rows[i].nonce <= rows[j].nonce
  }

  predicate HashesDistinct(rows: seq<TxRow>) {
    forall i, j :: 0 <= i < j < |rows| ==> rows[i].hash != rows[j].hash
  }

  /** The rows a SELECT of the pending transactions ordered by nonce returns; ties come in any order. */
  predicate PendingRowsOrdered(rows: seq<TxRow>, txs: seq<TxRow>) {
    && SortedByNonce(rows) && HashesDistinct(rows)
    && (forall i :: 0 <= i < |rows| ==> rows[i].state.Pending? && rows[i] in txs)
    && (forall i :: 0 <= i < |txs| && txs[i].state.Pending? ==> txs[i] in rows)
  }

  /** Two pending rows of one nonce that pay different groups. */
  predicate Conflicting(txs: seq<TxRow>) {
    exists i, j :: 0 <= i < |txs| && 0 <= j < |txs| && txs[i].state.Pending? && txs[j].state.Pending?
      && txs[i].nonce == txs[j].nonce && txs[i].group != txs[j].group
  }

  function Position(rows: seq<TxRow>, nonce: nat): (k: nat)
    requires SortedByNonce(rows)
    ensures k <= |rows|
    ensures (forall i :: 0 <= i < k ==> rows[i].nonce <= nonce)
              && (forall i :: k <= i < |rows| ==> nonce < rows[i].nonce)
  {
    if rows == [] || rows[|rows| - 1].nonce <= nonce then |rows| else Position(rows[..|rows| - 1], nonce)
  }

  function InsertByNonce(rows: seq<TxRow>, row: TxRow): (r: seq<TxRow>)
    requires SortedByNonce(rows)
    ensures SortedByNonce(r)
    ensures HashesDistinct(rows) && (forall x <- rows :: x.hash != row.hash) ==> HashesDistinct(r)
    ensures forall x :: x in r <==> x in rows || x == row
  {
    var k := Position(rows, row.nonce);
    InsertedIsThere(rows, k, row);
    InsertedIsNew(rows, k, row);
    rows[..k] + [row] + rows[k..]
  }

  lemma InsertedIsThere(rows: seq<TxRow>, k: nat, row: TxRow)
    requires k <= |rows|
    ensures forall x :: x in rows[..k] + [row] + rows[k..] <==> x in rows || x == row
  {
    assert rows == rows[..k] + rows[k..];
  }

  lemma InsertedIsNew(rows: seq<TxRow>, k: nat, row: TxRow)
    requires k <= |rows|
    ensures HashesDistinct(rows) && (forall x <- rows :: x.hash != row.hash) ==>
              HashesDistinct(rows[..k] + [row] + rows[k..])
  {
    var r := rows[..k] + [row] + rows[k..];
    assert forall i :: 0 <= i < |r| ==> r[i] == if i < k then rows[i] else if i == k then row else rows[i - 1];
  }

  lemma OneMoreRow(rows: seq<TxRow>, txs: seq<TxRow>, row: TxRow)
    requires PendingRowsOrdered(rows, txs) && forall i :: 0 <= i < |txs| ==> txs[i].hash != row.hash
    ensures PendingRowsOrdered(if row.state.Pending? then InsertByNonce(rows, row) else rows, txs + [row])
  {
    hide InsertByNonce;
    var rows' := if row.state.Pending? then InsertByNonce(rows, row) else rows;
    assert forall x <- rows :: x in txs;
    forall j | 0 <= j < |rows'| ensures rows'[j].state.Pending? && rows'[j] in txs + [row] {
      assert rows'[j] in rows || rows'[j] == row;
    }
  }

  function InGroup(payouts: seq<Payout>, group: int): (r: seq<Payout>)
    ensures |r| == |payouts| && forall i :: 0 <= i < |r| ==> r[i] == payouts[i].(group := group)
  {
    seq(|payouts|, i requires 0 <= i < |payouts| => payouts[i].(group := group))
  }

  /** Counts what goes wrong by itself: failed reads and writes, failed calls to the node, refused hand-overs, kills. */
  class Faults {
    ghost var count: nat

    constructor ()
      ensures count == 0
    {
      count := 0;
    }

    ghost method Add()
      modifies this
      ensures count == old(count) + 1
    {
      count := count + 1;
    }
  }

  class DB {
    const faults: Faults
    var payouts: seq<Payout>
    var finals: map<int, Option<Hash>>
    var txs: seq<TxRow>

    function State(): Tables
      reads this
    {
      Tables(payouts, finals, txs)
    }

    constructor ()
      ensures State() == Tables([], map[], []) && fresh(faults)
    {
      faults := new Faults();
      payouts, finals, txs := [], map[], [];
    }

    /** One database transaction: the group and all of its payouts, or nothing. */
    method CreatePayoutGroup(id: int, newPayouts: seq<Payout>) returns (ok: bool)
      modifies this, faults
      ensures ok ==> id !in old(finals)
                     && State() == Tables(old(payouts) + InGroup(newPayouts, id), old(finals)[id := None], old(txs))
      ensures !ok ==> State() == old(State())
      ensures faults.count == if ok || id in old(finals) then old(faults.count) else old(faults.count) + 1
    {
      var payouts0, finals0 := payouts, finals;
      if id in finals { return false; }
      finals := finals[id := None];
      for i := 0 to |newPayouts|
        invariant payouts == payouts0 + InGroup(newPayouts, id)[..i]
        invariant finals == finals0[id := None] && txs == old(txs) && faults.count == old(faults.count)
      {
        var ioError: bool := *;
        if ioError {
          faults.Add();
          payouts, finals := payouts0, finals0;
          return false;
        }
        payouts := payouts + [newPayouts[i].(group := id)];
      }
      assert InGroup(newPayouts, id)[..|newPayouts|] == InGroup(newPayouts, id);
      return true;
    }

    method PendingOrderedByNonce() returns (rows: seq<TxRow>)
      requires HashesDistinct(txs)
      ensures PendingRowsOrdered(rows, txs)
    {
      rows := [];
      for i := 0 to |txs|
        invariant PendingRowsOrdered(rows, txs[..i])
      {
        assert txs[..i + 1] == txs[..i] + [txs[i]];
        OneMoreRow(rows, txs[..i], txs[i]);
        if txs[i].state.Pending? { rows := InsertByNonce(rows, txs[i]); }
      }
      assert txs[..|txs|] == txs;
    }

    /** The pending transactions as nonce groups; an error exactly when the rows of a nonce disagree on the group. */
    method FetchUnfinishedTransactionsSortedIntoNonceGroups() returns (r: Result<seq<NonceGroup>, Error>)
      requires HashesDistinct(txs)
      modifies faults
      ensures r.Ok? ==> Distinct(r.value) && fresh(r.value) && IsGrouping(Views(r.value), txs) && !Conflicting(txs)
      ensures r.Err? ==> r.error.DatabaseError? || (r.error.WrongPayoutGroup? && Conflicting(txs))
      ensures faults.count
                == if r.Err? && r.error.DatabaseError? then old(faults.count) + 1 else old(faults.count)
    {
      var ioError: bool := *;
      if ioError {
        faults.Add();
        return Err(DatabaseError);
      }
      var rows := PendingOrderedByNonce();
      r := SortIntoNonceGroups(rows, txs);
    }

    method FetchFirstUnfinishedUnattachedPayoutGroup() returns (r: Result<Option<int>, Error>)
      modifies faults
      ensures r.Ok? && r.value.Some? ==> Unattached(State(), r.value.value)
      ensures r.Ok? && r.value.None? ==> UnattachedSet(State()) == {}
      ensures r.Err? ==> r.error.DatabaseError?
      ensures faults.count == if r.Err? then old(faults.count) + 1 else old(faults.count)
    {
      var ioError: bool := *;
      if ioError {
        faults.Add();
        return Err(DatabaseError);
      }
      var found := UnattachedSet(State());
      if found == {} { return Ok(None); }
      var g :| g in found;
      return Ok(Some(g));
    }

    method CountUnfinishedUnattachedPayoutGroup() returns (r: Result<nat, Error>)
      modifies faults
      ensures r.Ok? ==> r.value == |UnattachedSet(State())|
      ensures r.Err? ==> r.error.DatabaseError?
      ensures faults.count == if r.Err? then old(faults.count) + 1 else old(faults.count)
    {
      var ioError: bool := *;
      if ioError {
        faults.Add();
        return Err(DatabaseError);
      }
      return Ok(|UnattachedSet(State())|);
    }

    method FetchPayoutGroupPayouts(id: int) returns (r: Result<seq<Payout>, Error>)
      modifies faults
      ensures r.Ok? ==> r.value == PayoutsOf(payouts, id)
      ensures r.Err? ==> r.error.DatabaseError?
      ensures faults.count == if r.Err? then old(faults.count) + 1 else old(faults.count)
    {
      var ioError: bool := *;
      if ioError {
        faults.Add();
        return Err(DatabaseError);
      }
      return Ok(PayoutsOf(payouts, id));
    }

    /** One database transaction that settles the rows of a nonce group, or changes nothing. */
    method FinalizeNonceGroup(group: int, statuses: seq<TxStatus>) returns (ok: bool)
      modifies this, faults
      ensures State() == if ok then ApplyStatuses(old(State()), group, statuses) else old(State())
      ensures faults.count == if ok then old(faults.count) else old(faults.count) + 1
    {
      var finals0, txs0 := finals, txs;
      for k := 0 to |statuses|
        invariant State() == ApplyStatuses(old(State()), group, statuses[..k]) && faults.count == old(faults.count)
      {
        assert statuses[..k + 1][..k] == statuses[..k];
        var ioError: bool := *;
        if ioError {
          faults.Add();
          finals, txs := finals0, txs0;
          return false;
        }
        txs := SetStatus(txs, statuses[k]);
        if statuses[k].state.Confirmed? && group in finals {
          finals := finals[group := Some(statuses[k].hash)];
        }
      }
      assert statuses[..|statuses|] == statuses;
      return true;
    }

    /** A new pending row, stamped with the truncated time; UNIQUE(hash) refuses a hash recorded before. */
    method CreateTransaction(hash: Hash, nonce: nat, group: int, price: Decimal, tokens: int, now: nat)
      returns (r: Result<TxRow, Error>)
      modifies this, faults
      ensures r.Ok? ==> && !InTable(old(txs), hash)
                        && r.value == TxRow(hash, nonce, group, price, tokens, Truncate(now), Pending, None)
                        && State() == old(State()).(txs := old(txs) + [r.value])
      ensures r.Ok? ==> r.value.createdAt <= now < r.value.createdAt + 1_000_000 && r.value.createdAt % 1_000_000 == 0
      ensures r.Err? ==> State() == old(State())
      ensures r.Err? ==> r.error.DatabaseError? || r.error.UniqueViolation?
      ensures r.Err? && r.error.UniqueViolation? <==> InTable(old(txs), hash)
      ensures faults.count
                == if r.Err? && r.error.DatabaseError? then old(faults.count) + 1 else old(faults.count)
    {
      if InTable(txs, hash) { return Err(UniqueViolation); }
      var ioError: bool := *;
      if ioError {
        faults.Add();
        return Err(DatabaseError);
      }
      var row := TxRow(hash, nonce, group, price, tokens, Truncate(now), Pending, None);
      txs := txs + [row];
      return Ok(row);
    }

    /** Groups without and with a final hash: (unfinished, all). */
    method FetchPayoutProgress() returns (r: Result<(nat, nat), Error>)
      modifies faults
      ensures r.Ok? ==> r.value == (|UnfinishedSet(State())|, |finals.Keys|)
      ensures r.Err? ==> r.error.DatabaseError?
      ensures faults.count == if r.Err? then old(faults.count) + 1 else old(faults.count)
    {
      var ioError: bool := *;
      if ioError {
        faults.Add();
        return Err(DatabaseError);
      }
      return Ok((|UnfinishedSet(State())|, |finals.Keys|));
    }
  }

  /** The loop that grows the last group while the nonce stays the same and starts a new one otherwise. */
  method SortIntoNonceGroups(rows: seq<TxRow>, txs: seq<TxRow>) returns (r: Result<seq<NonceGroup>, Error>)
    requires PendingRowsOrdered(rows, txs)
    ensures r.Ok? ==> Distinct(r.value) && fresh(r.value) && IsGrouping(Views(r.value), txs) && !Conflicting(txs)
    ensures r.Err? ==> r.error.WrongPayoutGroup? && Conflicting(txs)
  {
    hide PendingRowsOrdered, IsGrouping, Conflicting, Views;
    var groups: seq<NonceGroup> := [];
    NothingGrouped();
    for i := 0 to |rows|
      invariant Distinct(groups) && fresh(groups)
      invariant IsGrouping(Views(groups), rows[..i])
      invariant i > 0 ==> |groups| > 0 && groups[|groups| - 1].nonce == rows[i - 1].nonce
      invariant i == 0 ==> groups == []
    {
      var tx := rows[i];
      assert rows[..i + 1] == rows[..i] + [tx];
      RowsSoFar(rows, txs, i);
      if |groups| > 0 && groups[|groups| - 1].nonce == tx.nonce {
        var last := groups[|groups| - 1];
        if last.payoutGroupID != tx.group {
          ConflictFound(Views(groups), rows, txs, i);
          return Err(WrongPayoutGroup(last.payoutGroupID, tx.group));
        }
        ghost var before := Views(groups);
        GroupGrows(before, rows[..i], tx, |groups| - 1);
        last.txs := last.txs + [tx];
        assert Views(groups) == before[|groups| - 1 := last.View()];
      } else {
        LastIsLargest(Views(groups), rows[..i]);
        GroupStarts(Views(groups), rows[..i], tx);
        ghost var before := Views(groups);
        var group := new NonceGroup(tx.nonce, tx.group, [tx]);
        groups := groups + [group];
        assert Views(groups) == before + [group.View()];
      }
    }
    assert rows[..|rows|] == rows;
    LoadedAll(Views(groups), rows, txs);
    return Ok(groups);
  }

  lemma NothingGrouped()
    ensures Views([]) == [] && IsGrouping([], [])
  {}

  lemma LoadedAll(v: seq<GroupView>, rows: seq<TxRow>, txs: seq<TxRow>)
    requires PendingRowsOrdered(rows, txs) && IsGrouping(v, rows)
    ensures IsGrouping(v, txs) && !Conflicting(txs)
  {
    hide IsGrouping, Conflicting;
    GroupingOfTable(v, rows, txs);
    GroupingAgrees(v, txs);
  }

  lemma RowsSoFar(rows: seq<TxRow>, txs: seq<TxRow>, i: nat)
    requires PendingRowsOrdered(rows, txs) && i < |rows|
    ensures rows[i].state.Pending?
    ensures forall j :: 0 <= j < |rows[..i]| ==> rows[..i][j].state.Pending? && rows[..i][j].hash != rows[i].hash
    ensures i > 0 && rows[i - 1].nonce != rows[i].nonce ==> forall j :: 0 <= j < |rows[..i]| ==>
              rows[..i][j].nonce < rows[i].nonce
  {}

  lemma LastIsLargest(v: seq<GroupView>, rows: seq<TxRow>)
    requires IsGrouping(v, rows)
    ensures forall k :: 0 <= k < |v| ==> v[k].nonce <= v[|v| - 1].nonce
  {}

  lemma GroupingAgrees(v: seq<GroupView>, txs: seq<TxRow>)
    requires IsGrouping(v, txs)
    ensures !Conflicting(txs)
  {
    forall i, j | 0 <= i < |txs| && 0 <= j < |txs| && txs[i].state.Pending? && txs[j].state.Pending?
        && txs[i].nonce == txs[j].nonce
      ensures txs[i].group == txs[j].group
    {
      var k :| 0 <= k < |v| && v[k].nonce == txs[i].nonce;
      assert Holds(v[k], txs);
    }
  }

  lemma ConflictFound(v: seq<GroupView>, rows: seq<TxRow>, txs: seq<TxRow>, i: nat)
    requires PendingRowsOrdered(rows, txs) && i < |rows| && IsGrouping(v, rows[..i]) && |v| > 0
    requires v[|v| - 1].nonce == rows[i].nonce && v[|v| - 1].group != rows[i].group
    ensures Conflicting(txs)
  {
    assert Holds(v[|v| - 1], rows[..i]);
    var j := HeldRow(v[|v| - 1], rows[..i]);
    assert rows[j] in txs && rows[i] in txs;
    var a :| 0 <= a < |txs| && txs[a] == rows[j];
    var b :| 0 <= b < |txs| && txs[b] == rows[i];
    assert txs[a].nonce == txs[b].nonce && txs[a].group != txs[b].group;
  }
}
