/** Counting groups: finished, in the pipeline and still to attach; and how many steps a payout takes. */
module Progress {
  import opened Tables
  import opened Protocol
  import opened Groups

  lemma AttachShrinks(db: Tables, row: TxRow)
    requires row.state.Pending? && Unattached(db, row.group)
    ensures UnattachedSet(db.(txs := db.txs + [row])) == UnattachedSet(db) - {row.group}
  {
    var txs' := db.txs + [row];
    assert txs'[|db.txs|] == row;
    forall g ensures Attached(txs', g) <==> Attached(db.txs, g) || g == row.group { AttachedGrows(db.txs, row, g); }
  }

  lemma AttachedGrows(txs: seq<TxRow>, row: TxRow, g: int)
    requires row.state.Pending?
    ensures Attached(txs + [row], g) <==> Attached(txs, g) || g == row.group
  {
    var txs' := txs + [row];
    assert txs'[|txs|] == row;
    if Attached(txs, g) {
      var i :| 0 <= i < |txs| && txs[i].state.Pending? && txs[i].group == g;
      assert txs'[i] == txs[i];
    }
  }

  lemma ResendKeeps(db: Tables, row: TxRow)
    requires row.state.Pending? && Attached(db.txs, row.group)
    ensures UnattachedSet(db.(txs := db.txs + [row])) == UnattachedSet(db)
  {
    forall g ensures Attached(db.txs + [row], g) <==> Attached(db.txs, g) { AttachedGrows(db.txs, row, g); }
  }

  /** Confirming a group finishes it and leaves the groups still to attach alone. */
  lemma ConfirmKeeps(db: Tables, nonce: nat, group: int, receipt: Receipt, w: nat)
    requires PendingInv(db) && receipt.success
    requires w < |db.txs| && db.txs[w].state.Pending? && db.txs[w].nonce == nonce && db.txs[w].group == group
    ensures UnattachedSet(Settle(db, nonce, group, receipt)) == UnattachedSet(db)
    ensures UnfinishedSet(Settle(db, nonce, group, receipt)) == UnfinishedSet(db) - {group}
  {
    var db' := Settle(db, nonce, group, receipt);
    forall g | g != group ensures Attached(db'.txs, g) <==> Attached(db.txs, g) {
      OthersStayAttached(db, nonce, group, receipt, w, g);
    }
    assert Attached(db.txs, group);
  }

  lemma OthersStayAttached(db: Tables, nonce: nat, group: int, receipt: Receipt, w: nat, g: int)
    requires PendingInv(db) && g != group
    requires w < |db.txs| && db.txs[w].state.Pending? && db.txs[w].nonce == nonce && db.txs[w].group == group
    ensures Attached(Settle(db, nonce, group, receipt).txs, g) <==> Attached(db.txs, g)
  {
    var txs' := Settle(db, nonce, group, receipt).txs;
    if Attached(db.txs, g) {
      var i :| 0 <= i < |db.txs| && db.txs[i].state.Pending? && db.txs[i].group == g;
      assert txs'[i] == db.txs[i];
    }
    if Attached(txs', g) {
      var i :| 0 <= i < |txs'| && txs'[i].state.Pending? && txs'[i].group == g;
      assert txs'[i] == db.txs[i];
    }
  }

  ghost function GroupSet(v: seq<GroupView>): set<int> {
    set k | 0 <= k < |v| :: v[k].group
  }

  lemma {:induction false} DistinctGroups(v: seq<GroupView>)
    requires forall j, k :: 0 <= j < k < |v| ==> v[j].group != v[k].group
    ensures |GroupSet(v)| == |v|
  {
    if v != [] {
      var init, last := v[..|v| - 1], v[|v| - 1];
      DistinctGroups(init);
      assert GroupSet(v) == GroupSet(init) + {last.group};
    }
  }

  lemma PipelineGroupsDistinct(db: Tables, v: seq<GroupView>)
    requires PendingInv(db) && IsPipelineOf(v, db.txs)
    ensures forall j, k :: 0 <= j < k < |v| ==> v[j].group != v[k].group
  {
    forall j, k | 0 <= j < k < |v| ensures v[j].group != v[k].group {
      assert v[j].nonce == v[0].nonce + j && v[k].nonce == v[0].nonce + k;
      var a := HeldRow(v[j], db.txs);
      var b := HeldRow(v[k], db.txs);
    }
  }

  lemma PipelineGroups(db: Tables, v: seq<GroupView>, g: int)
    requires PendingInv(db) && IsPipelineOf(v, db.txs)
    ensures g in GroupSet(v) <==> Unfinished(db, g) && Attached(db.txs, g)
  {
    if g in GroupSet(v) {
      var k :| 0 <= k < |v| && v[k].group == g;
      assert Holds(v[k], db.txs);
      var i := HeldRow(v[k], db.txs);
    }
    if Attached(db.txs, g) {
      var i :| 0 <= i < |db.txs| && db.txs[i].state.Pending? && db.txs[i].group == g;
      var k := db.txs[i].nonce - v[0].nonce;
      assert v[k].nonce == v[0].nonce + k && Holds(v[k], db.txs);
      assert v[k].group == g;
    }
  }

  /** The unfinished groups are those still to attach and the ones in the pipeline, none twice. */
  lemma UnfinishedCount(db: Tables, v: seq<GroupView>)
    requires PendingInv(db) && IsPipelineOf(v, db.txs)
    ensures UnfinishedSet(db) == UnattachedSet(db) + GroupSet(v) && UnattachedSet(db) !! GroupSet(v)
    ensures |GroupSet(v)| == |v| && |UnfinishedSet(db)| == |UnattachedSet(db)| + |v|
    ensures |db.finals.Keys| == |set g <- db.finals.Keys | db.finals[g].Some?| + |UnfinishedSet(db)|
  {
    PipelineGroupsDistinct(db, v);
    DistinctGroups(v);
    forall g ensures g in GroupSet(v) <==> Unfinished(db, g) && Attached(db.txs, g) { PipelineGroups(db, v, g); }
    assert UnfinishedSet(db) == UnattachedSet(db) + GroupSet(v);
    assert db.finals.Keys == (set g <- db.finals.Keys | db.finals[g].Some?) + UnfinishedSet(db);
  }

  // ---------------------------------------------------------------- how many steps it takes

  function Least(a: nat, b: nat): nat {
    if a < b then a else b
  }

  /** Groups in the pipeline after filling up. */
  function Filled(pending: nat, unattached: nat, limit: nat): nat {
    if pending >= limit then pending else Least(limit, pending + unattached)
  }

  lemma FilledZero(pending: nat, unattached: set<int>, limit: nat)
    requires limit > 0 && Filled(pending, |unattached|, limit) == 0
    ensures pending == 0 && unattached == {}
  {}

  /** What one unfinished step saw: groups pending before and still to attach, pending after the fill, confirmed. */
  datatype StepRecord = StepRecord(pending: nat, unattached: nat, filled: nat, confirmed: nat)

  predicate IsStep(r: StepRecord, limit: nat) {
    r.filled == Filled(r.pending, r.unattached, limit) && r.confirmed <= r.filled && r.filled > 0
  }

  /** Groups pending, and still to attach, after a step. */
  function PendingAfter(r: StepRecord): int {
    r.filled - r.confirmed
  }

  function UnattachedAfter(r: StepRecord): int {
    r.unattached - (r.filled - r.pending)
  }

  /** Consecutive unfinished steps from `pending` groups in the pipeline and `n` still to attach. */
  predicate IsRun(steps: seq<StepRecord>, pending: nat, n: nat, limit: nat) {
    && (forall i :: 0 <= i < |steps| ==> IsStep(steps[i], limit))
    && (steps != [] ==> steps[0].pending == pending && steps[0].unattached == n)
    && (forall i :: 0 < i < |steps| ==>
          steps[i].pending == PendingAfter(steps[i - 1]) && steps[i].unattached == UnattachedAfter(steps[i - 1]))
  }

  /** Groups pending, and still to attach, after a run. */
  function RunPending(steps: seq<StepRecord>, pending: nat): int {
    if steps == [] then pending else PendingAfter(steps[|steps| - 1])
  }

  function RunUnattached(steps: seq<StepRecord>, n: nat): int {
    if steps == [] then n else UnattachedAfter(steps[|steps| - 1])
  }

  lemma RunExtends(steps: seq<StepRecord>, pending: nat, n: nat, limit: nat, r: StepRecord)
    requires IsRun(steps, pending, n, limit) && IsStep(r, limit)
    requires r.pending == RunPending(steps, pending) && r.unattached == RunUnattached(steps, n)
    ensures IsRun(steps + [r], pending, n, limit)
    ensures RunPending(steps + [r], pending) == PendingAfter(r) && RunUnattached(steps + [r], n) == UnattachedAfter(r)
  {}

  /** Each step of a run lowers the unfinished groups by exactly the confirmed ones. */
  lemma {:induction false} RunConserves(steps: seq<StepRecord>, pending: nat, n: nat, limit: nat)
    requires IsRun(steps, pending, n, limit)
    ensures RunPending(steps, pending) + RunUnattached(steps, n) + TotalConfirmed(steps) == pending + n
  {
    if steps != [] { RunConserves(steps[..|steps| - 1], pending, n, limit); }
  }

  function TotalConfirmed(steps: seq<StepRecord>): nat {
    if steps == [] then 0 else TotalConfirmed(steps[..|steps| - 1]) + steps[|steps| - 1].confirmed
  }

  /** Every batch is confirmed as a whole at the k-th check after it was filled, and nothing before. */
  predicate ConfirmsEvery(steps: seq<StepRecord>, k: nat)
    requires k > 0
  {
    forall i :: 0 <= i < |steps| ==> steps[i].confirmed == if i % k == k - 1 then steps[i].filled else 0
  }

  lemma {:induction false} WithinBatch(steps: seq<StepRecord>, n: nat, limit: nat, k: nat, i: nat)
    requires k > 0 && limit > 0 && IsRun(steps, 0, n, limit) && ConfirmsEvery(steps, k) && i < k && i < |steps|
    ensures steps[i].filled == Least(n, limit) && UnattachedAfter(steps[i]) == n - Least(n, limit)
    ensures PendingAfter(steps[i]) == if i == k - 1 then 0 else Least(n, limit)
  {
    assert i % k == i;
    if i > 0 { WithinBatch(steps, n, limit, k, i - 1); }
  }

  /** A run that got past the first batch goes on like a run with the groups of that batch gone. */
  lemma BatchDone(steps: seq<StepRecord>, n: nat, limit: nat, k: nat)
    requires k > 0 && limit > 0 && n > 0 && IsRun(steps, 0, n, limit) && ConfirmsEvery(steps, k) && k <= |steps|
    ensures var m, rest := n - Least(n, limit), steps[k..];
            && IsRun(rest, 0, m, limit) && ConfirmsEvery(rest, k)
            && RunPending(rest, 0) == RunPending(steps, 0) && RunUnattached(rest, m) == RunUnattached(steps, n)
  {
    WithinBatch(steps, n, limit, k, k - 1);
    var rest := steps[k..];
    forall i | 0 <= i < |rest| ensures rest[i].confirmed == if i % k == k - 1 then rest[i].filled else 0 {
      ShiftedIndex(i, k);
      assert rest[i] == steps[i + k];
    }
    assert IsRun(rest, 0, n - Least(n, limit), limit) by {
      assert forall i :: 0 <= i < |rest| ==> rest[i] == steps[k + i];
    }
  }

  lemma ShiftedIndex(i: nat, k: nat)
    requires k > 0
    ensures (i + k) % k == i % k
  {
    ModByQuotient(i + k, k, i / k + 1, i % k);
  }

  lemma ModByQuotient(a: int, k: int, q: int, r: int)
    requires k > 0 && 0 <= r < k && a == q * k + r
    ensures a % k == r && a / k == q
  {
    SameDivision(k, q, r, a / k, a % k);
  }

  lemma SameDivision(k: int, q: int, r: int, q': int, r': int)
    requires k > 0 && 0 <= r < k && 0 <= r' < k && q * k + r == q' * k + r'
    ensures q == q' && r == r'
  {
    if q > q' { AtLeastOnce(q - q', k); Split(q, q', k); }
    if q < q' { AtLeastOnce(q' - q, k); Split(q', q, k); }
  }

  lemma AtLeastOnce(x: int, k: int)
    requires x >= 1 && k > 0
    ensures x * k >= k
  {}

  lemma Split(x: int, y: int, k: int)
    ensures (x - y) * k == x * k - y * k
  {}

  /**
    From an empty pipeline with n groups to attach, a payer that confirms each batch at the k-th check
    allows at most k unfinished steps per batch, however long the run; and after exactly so many, or when
    nothing is left in any other way, the run has come to its end.
    */
  lemma {:induction false} StepsTaken(steps: seq<StepRecord>, n: nat, limit: nat, k: nat)
    requires k > 0 && limit > 0 && IsRun(steps, 0, n, limit) && ConfirmsEvery(steps, k)
    ensures |steps| <= k * ((n + limit - 1) / limit)
    ensures |steps| == k * ((n + limit - 1) / limit) <==> RunPending(steps, 0) == 0 && RunUnattached(steps, n) == 0
    decreases n
  {
    hide IsRun, ConfirmsEvery;
    if n == 0 {
      NothingToDo(steps, limit);
      ModByQuotient(limit - 1, limit, 0, limit - 1);
    } else {
      var m := Least(n, limit);
      OneBatchMore(n, limit);
      Distribute(k, (n - m + limit - 1) / limit);
      if k <= |steps| {
        BatchDone(steps, n, limit, k);
        StepsTaken(steps[k..], n - m, limit, k);
      } else {
        AtLeastZero(k, (n - m + limit - 1) / limit);
        if steps != [] { WithinBatch(steps, n, limit, k, |steps| - 1); }
      }
    }
  }

  lemma AtLeastZero(k: nat, b: nat)
    ensures k * b >= 0
  {}

  lemma NothingToDo(steps: seq<StepRecord>, limit: nat)
    requires IsRun(steps, 0, 0, limit)
    ensures steps == []
  {
  }

  lemma OneBatchMore(n: nat, limit: nat)
    requires n > 0 && limit > 0
    ensures (n + limit - 1) / limit == (n - Least(n, limit) + limit - 1) / limit + 1
  {
    if n > limit {
      var q, r := (n - 1) / limit, (n - 1) % limit;
      ModByQuotient(n + limit - 1, limit, q + 1, r);
    } else {
      ModByQuotient(n + limit - 1, limit, 1, n - 1);
      ModByQuotient(limit - 1, limit, 0, limit - 1);
    }
  }

  lemma Distribute(k: nat, b: nat)
    ensures k * (b + 1) == k + k * b
  {}
}
