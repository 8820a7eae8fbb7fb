/** Nonce groups as values: when a list of them is exactly the pending part of the transaction table. */
module Groups {
  import opened Tables
  import opened Protocol

  datatype GroupView = GroupView(nonce: nat, group: int, txs: seq<TxRow>)

  /** The group holds exactly the pending rows of its nonce, each once, and they all pay its payout group. */
  predicate Holds(v: GroupView, rows: seq<TxRow>) {
    && |v.txs| > 0
    && (forall m :: 0 <= m < |v.txs| ==>
          v.txs[m] in rows && v.txs[m].state.Pending? && v.txs[m].nonce == v.nonce && v.txs[m].group == v.group)
    && (forall m, n :: 0 <= m < n < |v.txs| ==> v.txs[m].hash != v.txs[n].hash)
    && (forall i :: 0 <= i < |rows| && rows[i].state.Pending? && rows[i].nonce == v.nonce ==> rows[i] in v.txs)
  }

  /** Groups with consecutive nonces that hold every pending row: what the pipeline keeps in memory. */
  predicate IsPipelineOf(v: seq<GroupView>, rows: seq<TxRow>) {
    && (forall k :: 0 <= k < |v| ==> v[k].nonce == v[0].nonce + k && Holds(v[k], rows))
    && (forall i :: 0 <= i < |rows| && rows[i].state.Pending? ==>
          |v| > 0 && v[0].nonce <= rows[i].nonce < v[0].nonce + |v|)
  }

  predicate HasNonce(v: seq<GroupView>, nonce: nat) {
    exists k :: 0 <= k < |v| && v[k].nonce == nonce
  }

  /** The same without consecutive nonces: what the load loop builds from rows ordered by nonce. */
  predicate IsGrouping(v: seq<GroupView>, rows: seq<TxRow>) {
    && (forall k :: 0 <= k < |v| ==> Holds(v[k], rows))
    && (forall j, k :: 0 <= j < k < |v| ==> v[j].nonce < v[k].nonce)
    && (forall i :: 0 <= i < |rows| && rows[i].state.Pending? ==> HasNonce(v, rows[i].nonce))
  }

  // ---------------------------------------------------------------- loading

  lemma HoldsOtherRows(v: GroupView, rows: seq<TxRow>, row: TxRow)
    requires Holds(v, rows) && row.nonce != v.nonce
    ensures Holds(v, rows + [row])
  {
    forall m | 0 <= m < |v.txs| ensures v.txs[m] in rows + [row] { assert v.txs[m] in rows; }
  }

  lemma GroupStarts(v: seq<GroupView>, rows: seq<TxRow>, row: TxRow)
    requires IsGrouping(v, rows) && row.state.Pending?
    requires forall i :: 0 <= i < |rows| ==> rows[i].state.Pending? && rows[i].nonce < row.nonce
    requires forall k :: 0 <= k < |v| ==> v[k].nonce < row.nonce
    ensures IsGrouping(v + [GroupView(row.nonce, row.group, [row])], rows + [row])
  {
    var v', rows' := v + [GroupView(row.nonce, row.group, [row])], rows + [row];
    forall k | 0 <= k < |v'| ensures Holds(v'[k], rows') {
      if k < |v| { HoldsOtherRows(v[k], rows, row); } else { assert rows'[|rows|] == row; }
    }
    forall i | 0 <= i < |rows'| ensures HasNonce(v', rows'[i].nonce) {
      if i < |rows| { StillHasNonce(v, v', rows[i].nonce); } else { assert v'[|v|].nonce == row.nonce; }
    }
  }

  lemma StillHasNonce(v: seq<GroupView>, v': seq<GroupView>, nonce: nat)
    requires HasNonce(v, nonce) && |v| <= |v'| && forall k :: 0 <= k < |v| ==> v'[k].nonce == v[k].nonce
    ensures HasNonce(v', nonce)
  {
    var k :| 0 <= k < |v| && v[k].nonce == nonce;
    assert v'[k].nonce == nonce;
  }

  lemma HoldsOneMore(v: GroupView, rows: seq<TxRow>, row: TxRow)
    requires Holds(v, rows) && row.state.Pending? && row.nonce == v.nonce && row.group == v.group
    requires forall i :: 0 <= i < |rows| ==> rows[i].hash != row.hash
    ensures Holds(v.(txs := v.txs + [row]), rows + [row])
  {
    var v', rows' := v.(txs := v.txs + [row]), rows + [row];
    assert rows'[|rows|] == row && v'.txs[|v.txs|] == row;
    forall m | 0 <= m < |v'.txs| ensures v'.txs[m] in rows' { if m < |v.txs| { assert v.txs[m] in rows; } }
    forall m | 0 <= m < |v.txs| ensures v.txs[m].hash != row.hash { assert v.txs[m] in rows; }
    forall i | 0 <= i < |rows'| && rows'[i].state.Pending? && rows'[i].nonce == v'.nonce ensures rows'[i] in v'.txs {
      if i < |rows| { assert rows[i] in v.txs; }
    }
  }

  lemma GroupGrows(v: seq<GroupView>, rows: seq<TxRow>, row: TxRow, k: nat)
    requires IsGrouping(v, rows) && row.state.Pending? && k < |v|
    requires row.nonce == v[k].nonce && row.group == v[k].group
    requires forall i :: 0 <= i < |rows| ==> rows[i].hash != row.hash
    ensures IsGrouping(v[k := v[k].(txs := v[k].txs + [row])], rows + [row])
  {
    var v', rows' := v[k := v[k].(txs := v[k].txs + [row])], rows + [row];
    forall j | 0 <= j < |v'| ensures Holds(v'[j], rows') {
      if j == k { HoldsOneMore(v[k], rows, row); } else { HoldsOtherRows(v[j], rows, row); }
    }
    forall i | 0 <= i < |rows'| && rows'[i].state.Pending? ensures HasNonce(v', rows'[i].nonce) {
      if i < |rows| { StillHasNonce(v, v', rows[i].nonce); } else { assert v'[k].nonce == row.nonce; }
    }
  }

  /** Only the pending rows matter: a list with the same ones is grouped the same way. */
  lemma GroupingOfTable(v: seq<GroupView>, rows: seq<TxRow>, txs: seq<TxRow>)
    requires IsGrouping(v, rows)
    requires forall i :: 0 <= i < |rows| ==> rows[i] in txs
    requires forall i :: 0 <= i < |txs| && txs[i].state.Pending? ==> txs[i] in rows
    ensures IsGrouping(v, txs)
  {
    forall k | 0 <= k < |v| ensures Holds(v[k], txs) {
      HoldsInTable(v[k], rows, txs);
    }
  }

  lemma HoldsInTable(v: GroupView, rows: seq<TxRow>, txs: seq<TxRow>)
    requires Holds(v, rows)
    requires forall i :: 0 <= i < |rows| ==> rows[i] in txs
    requires forall i :: 0 <= i < |txs| && txs[i].state.Pending? ==> txs[i] in rows
    ensures Holds(v, txs)
  {
    forall m | 0 <= m < |v.txs| ensures v.txs[m] in txs {
      var i :| 0 <= i < |rows| && rows[i] == v.txs[m];
    }
    forall i | 0 <= i < |txs| && txs[i].state.Pending? && txs[i].nonce == v.nonce ensures txs[i] in v.txs {
      var j :| 0 <= j < |rows| && rows[j] == txs[i];
    }
  }

  /** Each group has a pending row in the table. */
  lemma HeldRow(v: GroupView, rows: seq<TxRow>) returns (i: nat)
    requires Holds(v, rows)
    ensures i < |rows| && rows[i] == v.txs[0] && rows[i].state.Pending? && rows[i].nonce == v.nonce
              && rows[i].group == v.group
  {
    assert v.txs[0] in rows;
    i :| 0 <= i < |rows| && rows[i] == v.txs[0];
  }

  lemma NextNonceFollows(v: seq<GroupView>, txs: seq<TxRow>, k: nat)
    requires IsGrouping(v, txs) && ContiguousInv(txs) && k + 1 < |v|
    ensures v[k + 1].nonce == v[k].nonce + 1
  {
    var i := HeldRow(v[k], txs);
    var j := HeldRow(v[k + 1], txs);
    hide Holds;
    assert InFlight(txs, v[k].nonce + 1);
    var r :| 0 <= r < |txs| && txs[r].state.Pending? && txs[r].nonce == v[k].nonce + 1;
    assert HasNonce(v, v[k].nonce + 1);
    var m :| 0 <= m < |v| && v[m].nonce == v[k].nonce + 1;
  }

  lemma {:induction false} NoncesFollow(v: seq<GroupView>, txs: seq<TxRow>, k: nat)
    requires IsGrouping(v, txs) && ContiguousInv(txs) && k < |v|
    ensures v[k].nonce == v[0].nonce + k
  {
    hide IsGrouping, ContiguousInv;
    if k > 0 {
      NoncesFollow(v, txs, k - 1);
      NextNonceFollows(v, txs, k - 1);
    }
  }

  /** Without gaps between the pending nonces the loaded groups are a pipeline. */
  lemma GroupingIsPipeline(v: seq<GroupView>, txs: seq<TxRow>)
    requires IsGrouping(v, txs) && ContiguousInv(txs)
    ensures IsPipelineOf(v, txs)
  {
    hide ContiguousInv, Holds;
    forall k | 0 <= k < |v| ensures v[k].nonce == v[0].nonce + k { NoncesFollow(v, txs, k); }
    forall i | 0 <= i < |txs| && txs[i].state.Pending?
      ensures |v| > 0 && v[0].nonce <= txs[i].nonce < v[0].nonce + |v|
    {
      assert HasNonce(v, txs[i].nonce);
    }
  }

  // ---------------------------------------------------------------- the pipeline is determined by the table

  lemma SameRows(a: GroupView, b: GroupView, rows: seq<TxRow>)
    requires Holds(a, rows) && Holds(b, rows) && a.nonce == b.nonce
    ensures a.group == b.group && (forall r :: r in a.txs <==> r in b.txs) && |a.txs| == |b.txs|
  {
    var i := HeldRow(a, rows);
    assert rows[i] in b.txs;
    SubsetOfRows(a, b, rows);
    SubsetOfRows(b, a, rows);
    SameSize(a, b, rows);
  }

  lemma SubsetOfRows(a: GroupView, b: GroupView, rows: seq<TxRow>)
    requires Holds(a, rows) && Holds(b, rows) && a.nonce == b.nonce
    ensures forall r :: r in a.txs ==> r in b.txs
  {
    forall r | r in a.txs ensures r in b.txs {
      var m :| 0 <= m < |a.txs| && a.txs[m] == r;
      assert r in rows;
      var i :| 0 <= i < |rows| && rows[i] == r;
    }
  }

  ghost function RowSet(s: seq<TxRow>): set<TxRow> {
    set r | r in s
  }

  lemma {:induction false} DistinctSize(s: seq<TxRow>)
    requires forall m, n :: 0 <= m < n < |s| ==> s[m].hash != s[n].hash
    ensures |RowSet(s)| == |s|
  {
    if s != [] {
      var init, last := s[..|s| - 1], s[|s| - 1];
      DistinctSize(init);
      assert last !in init;
      assert RowSet(s) == RowSet(init) + {last};
    }
  }

  lemma SameSize(a: GroupView, b: GroupView, rows: seq<TxRow>)
    requires Holds(a, rows) && Holds(b, rows)
    requires forall r :: r in a.txs <==> r in b.txs
    ensures |a.txs| == |b.txs|
  {
    DistinctSize(a.txs);
    DistinctSize(b.txs);
    assert RowSet(a.txs) == RowSet(b.txs);
  }

  /** Two pipelines of one table are the same list of groups, up to the order of the rows inside a group. */
  lemma PipelineIsUnique(v: seq<GroupView>, w: seq<GroupView>, txs: seq<TxRow>)
    requires IsPipelineOf(v, txs) && IsPipelineOf(w, txs)
    ensures |v| == |w|
    ensures forall k :: 0 <= k < |v| ==>
              && v[k].nonce == w[k].nonce && v[k].group == w[k].group
              && |v[k].txs| == |w[k].txs| && forall r :: r in v[k].txs <==> r in w[k].txs
  {
    InRange(v, w, txs);
    InRange(w, v, txs);
    forall k | 0 <= k < |v|
      ensures v[k].nonce == w[k].nonce && v[k].group == w[k].group
      ensures |v[k].txs| == |w[k].txs| && forall r :: r in v[k].txs <==> r in w[k].txs
    {
      assert v[k].nonce == v[0].nonce + k && w[k].nonce == w[0].nonce + k;
      SameRows(v[k], w[k], txs);
    }
  }

  lemma InRange(v: seq<GroupView>, w: seq<GroupView>, txs: seq<TxRow>)
    requires IsPipelineOf(v, txs) && IsPipelineOf(w, txs)
    ensures |v| > 0 ==> |w| > 0 && w[0].nonce <= v[0].nonce && v[0].nonce + |v| <= w[0].nonce + |w|
  {
    if |v| > 0 {
      assert Holds(v[0], txs) && Holds(v[|v| - 1], txs);
      var i := HeldRow(v[0], txs);
      var j := HeldRow(v[|v| - 1], txs);
    }
  }

  // ---------------------------------------------------------------- steps of the program

  lemma EmptyPipeline(v: seq<GroupView>, txs: seq<TxRow>)
    requires IsPipelineOf(v, txs)
    ensures v == [] <==> !AnyInFlight(txs)
  {
    if |v| > 0 {
      assert Holds(v[0], txs);
      var i := HeldRow(v[0], txs);
    }
  }

  /** The nonce after the last group, or any nonce while nothing is pending, can be attached. */
  lemma CanAttach(s: State, v: seq<GroupView>, group: int, nonce: nat)
    requires IsPipelineOf(v, s.db.txs) && !Attached(s.db.txs, group)
    requires |v| > 0 ==> nonce == v[|v| - 1].nonce + 1
    ensures IsAttach(s, group, nonce)
  {
    EmptyPipeline(v, s.db.txs);
    if |v| > 0 {
      assert Holds(v[|v| - 1], s.db.txs);
      var i := HeldRow(v[|v| - 1], s.db.txs);
    }
  }

  lemma AttachedPipeline(v: seq<GroupView>, txs: seq<TxRow>, row: TxRow)
    requires IsPipelineOf(v, txs) && row.state.Pending? && !InTable(txs, row.hash)
    requires |v| > 0 ==> row.nonce == v[|v| - 1].nonce + 1
    ensures IsPipelineOf(v + [GroupView(row.nonce, row.group, [row])], txs + [row])
  {
    var v', txs' := v + [GroupView(row.nonce, row.group, [row])], txs + [row];
    forall k | 0 <= k < |v'| ensures v'[k].nonce == v'[0].nonce + k && Holds(v'[k], txs') {
      if k < |v| { HoldsOtherRows(v[k], txs, row); } else { assert txs'[|txs|] == row; }
    }
  }

  /** Old enough rows of a group in the pipeline can be followed by another transaction. */
  lemma CanResend(s: State, v: seq<GroupView>, k: nat)
    requires IsPipelineOf(v, s.db.txs) && k < |v|
    requires forall m :: 0 <= m < |v[k].txs| ==> v[k].txs[m].createdAt + NOT_DROPPED_UNTIL <= s.now
    ensures IsResend(s, v[k].group, v[k].nonce)
  {
    assert Holds(v[k], s.db.txs);
    var i := HeldRow(v[k], s.db.txs);
  }

  lemma ResentPipeline(v: seq<GroupView>, txs: seq<TxRow>, row: TxRow, k: nat)
    requires IsPipelineOf(v, txs) && k < |v| && row.state.Pending? && !InTable(txs, row.hash)
    requires row.nonce == v[k].nonce && row.group == v[k].group
    ensures IsPipelineOf(v[k := v[k].(txs := v[k].txs + [row])], txs + [row])
  {
    var v', txs' := v[k := v[k].(txs := v[k].txs + [row])], txs + [row];
    forall j | 0 <= j < |v'| ensures v'[j].nonce == v'[0].nonce + j && Holds(v'[j], txs') {
      assert Holds(v[j], txs) && v[j].nonce == v[0].nonce + j;
      if j == k { HoldsOneMore(v[k], txs, row); } else { HoldsOtherRows(v[j], txs, row); }
    }
  }

  /** Statuses for the transactions of a group, in order. */
  predicate Aligned(statuses: seq<TxStatus>, txs: seq<TxRow>) {
    |statuses| == |txs| && forall m :: 0 <= m < |txs| ==> statuses[m].hash == txs[m].hash
  }

  lemma AlignedCovers(db: Tables, v: GroupView, statuses: seq<TxStatus>)
    requires RowsInv(db) && Holds(v, db.txs) && Aligned(statuses, v.txs)
    ensures CoversNonce(db, v.nonce, statuses)
  {
    forall i | 0 <= i < |db.txs|
      ensures Covers(statuses, db.txs[i].hash) <==> db.txs[i].state.Pending? && db.txs[i].nonce == v.nonce
    {
      if Covers(statuses, db.txs[i].hash) {
        var k :| 0 <= k < |statuses| && statuses[k].hash == db.txs[i].hash;
        assert v.txs[k] in db.txs;
        var j :| 0 <= j < |db.txs| && db.txs[j] == v.txs[k];
        assert i == j;
      }
      if db.txs[i].state.Pending? && db.txs[i].nonce == v.nonce {
        assert db.txs[i] in v.txs;
        var m :| 0 <= m < |v.txs| && v.txs[m] == db.txs[i];
        assert statuses[m].hash == db.txs[i].hash;
      }
    }
  }

  /** A verdict on the first group of a pipeline can be finalized. */
  lemma CanFinalizeFirst(s: State, v: seq<GroupView>, statuses: seq<TxStatus>, winner: nat)
    requires Inv(s) && IsPipelineOf(v, s.db.txs) && |v| > 0 && Aligned(statuses, v[0].txs)
    requires v[0].nonce in s.chain.mined && OneWinner(statuses, winner, s.chain.mined[v[0].nonce])
    ensures CanFinalize(s, v[0].nonce, v[0].group, statuses, winner)
  {
    hide RowsInv, TruthInv, FinalsInv, PendingInv, ContiguousInv, ChainInv, DroppedInv, SpacedInv, CoversNonce,
      OneWinner, Aligned;
    assert Holds(v[0], s.db.txs);
    AlignedCovers(s.db, v[0], statuses);
    GroupOfNonce(s.db.txs, v[0]);
  }

  lemma GroupOfNonce(txs: seq<TxRow>, v: GroupView)
    requires Holds(v, txs)
    ensures forall i :: 0 <= i < |txs| && txs[i].state.Pending? && txs[i].nonce == v.nonce ==> txs[i].group == v.group
  {}

  lemma HoldsAfterSettling(v: GroupView, db: Tables, nonce: nat, group: int, receipt: Receipt)
    requires Holds(v, db.txs) && v.nonce != nonce
    ensures Holds(v, Settle(db, nonce, group, receipt).txs)
  {
    var txs' := Settle(db, nonce, group, receipt).txs;
    forall m | 0 <= m < |v.txs| ensures v.txs[m] in txs' {
      var i :| 0 <= i < |db.txs| && db.txs[i] == v.txs[m];
      assert txs'[i] == v.txs[m];
    }
  }

  /** Settling the first group removes it from the pipeline and leaves the others alone. */
  lemma SettledPipeline(v: seq<GroupView>, db: Tables, receipt: Receipt)
    requires IsPipelineOf(v, db.txs) && |v| > 0
    ensures IsPipelineOf(v[1..], Settle(db, v[0].nonce, v[0].group, receipt).txs)
  {
    var v', txs' := v[1..], Settle(db, v[0].nonce, v[0].group, receipt).txs;
    forall k | 0 <= k < |v'| ensures v'[k].nonce == v'[0].nonce + k && Holds(v'[k], txs') {
      assert v[k + 1].nonce == v[0].nonce + (k + 1);
      HoldsAfterSettling(v[k + 1], db, v[0].nonce, v[0].group, receipt);
    }
    forall i | 0 <= i < |txs'| && txs'[i].state.Pending?
      ensures |v'| > 0 && v'[0].nonce <= txs'[i].nonce < v'[0].nonce + |v'|
    {
      assert txs'[i] == db.txs[i];
    }
  }
}
