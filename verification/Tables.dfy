/** The payout database as tables: its rows, its queries and what one finalization writes. */
module Tables {
  import opened Wrappers
  import opened Money

  type Address = nat

  /** The contents of a payout transaction; `fees` stands for every field that is not modelled. */
  datatype TxBody = TxBody(nonce: nat, payee: Address, tokens: int, fees: nat)

  /** A hash is an injective function of the contents. */
  datatype Hash = HashOf(body: TxBody)

  datatype Receipt = Receipt(hash: Hash, success: bool)

  datatype TxState = Pending | Dropped | Failed | Confirmed

  datatype TxRow = TxRow(
    hash: Hash, nonce: nat, group: int, price: Decimal, tokens: int,
    createdAt: nat, state: TxState, receipt: Option<Receipt>)

  datatype TxStatus = TxStatus(hash: Hash, state: TxState, receipt: Option<Receipt>)

  datatype Payout = Payout(line: int, payee: Address, usd: Decimal, group: int)

  /** `finals` is the payout_group table: the final hash of each group id, if it has one. */
  datatype Tables = Tables(payouts: seq<Payout>, finals: map<int, Option<Hash>>, txs: seq<TxRow>)

  function PayoutsOf(payouts: seq<Payout>, group: int): seq<Payout> {
    if payouts == [] then []
    else
      var rest := PayoutsOf(payouts[..|payouts| - 1], group);
      var last := payouts[|payouts| - 1];
      if last.group == group then rest + [last] else rest
  }

  function AmountsOf(payouts: seq<Payout>): (r: seq<Decimal>)
    ensures |r| == |payouts| && forall i :: 0 <= i < |r| ==> r[i] == payouts[i].usd
  {
    seq(|payouts|, i requires 0 <= i < |payouts| => payouts[i].usd)
  }

  lemma PayoutsAmong(payouts: seq<Payout>, group: int)
    requires forall i :: 0 <= i < |payouts| ==> payouts[i].usd.coef > 0
    ensures forall i :: 0 <= i < |PayoutsOf(payouts, group)| ==> PayoutsOf(payouts, group)[i].usd.coef > 0
  {}

  /** Some pending row pays the group. */
  predicate Attached(txs: seq<TxRow>, group: int) {
    exists i :: 0 <= i < |txs| && txs[i].state.Pending? && txs[i].group == group
  }

  /** How many numbers up to the next one have a property. */
  lemma OneMore(n: nat, p: nat -> bool)
    ensures |set i: nat | i < n + 1 && p(i)| == |set i: nat | i < n && p(i)| + if p(n) then 1 else 0
  {
    var few, more := (set i: nat | i < n && p(i)), (set i: nat | i < n + 1 && p(i));
    if p(n) { assert more == few + {n}; } else { assert more == few; }
  }

  /** Some pending row uses the nonce. */
  predicate InFlight(txs: seq<TxRow>, nonce: nat) {
    exists i :: 0 <= i < |txs| && txs[i].state.Pending? && txs[i].nonce == nonce
  }

  predicate AnyInFlight(txs: seq<TxRow>) {
    exists i :: 0 <= i < |txs| && txs[i].state.Pending?
  }

  predicate InTable(txs: seq<TxRow>, hash: Hash) {
    exists i :: 0 <= i < |txs| && txs[i].hash == hash
  }

  predicate Unfinished(db: Tables, group: int) {
    group in db.finals && db.finals[group].None?
  }

  /** The unfinished-and-unattached condition of the database queries. */
  predicate Unattached(db: Tables, group: int) {
    Unfinished(db, group) && !Attached(db.txs, group)
  }

  function UnattachedSet(db: Tables): (r: set<int>)
    ensures forall g :: g in r <==> Unattached(db, g)
  {
    set g <- db.finals.Keys | Unattached(db, g)
  }

  function UnfinishedSet(db: Tables): (r: set<int>)
    ensures forall g :: g in r <==> Unfinished(db, g)
  {
    set g <- db.finals.Keys | Unfinished(db, g)
  }

  function SetRow(row: TxRow, status: TxStatus): TxRow {
    if row.hash != status.hash then row
    else row.(state := status.state,
              receipt := if status.receipt.Some? then status.receipt else row.receipt)
  }

  /** UPDATE tx SET state, receipt WHERE hash; a nil receipt leaves the column alone. */
  function SetStatus(txs: seq<TxRow>, status: TxStatus): (r: seq<TxRow>)
    ensures |r| == |txs|
    ensures forall i :: 0 <= i < |txs| ==> r[i] == SetRow(txs[i], status)
  {
    seq(|txs|, i requires 0 <= i < |txs| => SetRow(txs[i], status))
  }

  /** One iteration of the finalization: the row, and the final hash of the group if it is confirmed. */
  function ApplyStatus(db: Tables, group: int, status: TxStatus): Tables {
    Tables(db.payouts,
           if status.state.Confirmed? && group in db.finals
           then db.finals[group := Some(status.hash)] else db.finals,
           SetStatus(db.txs, status))
  }

  function ApplyStatuses(db: Tables, group: int, statuses: seq<TxStatus>): (r: Tables)
    ensures r.payouts == db.payouts && r.finals.Keys == db.finals.Keys && |r.txs| == |db.txs|
  {
    if statuses == [] then db
    else ApplyStatus(ApplyStatuses(db, group, statuses[..|statuses| - 1]), group, statuses[|statuses| - 1])
  }

  /** How settling a nonce with a mined receipt changes one row. */
  function SettleRow(row: TxRow, nonce: nat, receipt: Receipt): TxRow {
    if !row.state.Pending? || row.nonce != nonce then row
    else if row.hash == receipt.hash then
      row.(state := if receipt.success then Confirmed else Failed, receipt := Some(receipt))
    else row.(state := Dropped)
  }

  /**
    What finalizing a nonce means: of its pending rows the mined one becomes confirmed or failed, all
    others become dropped, and a confirmed one becomes the final transaction of the group.
    */
  function Settle(db: Tables, nonce: nat, group: int, receipt: Receipt): (r: Tables)
    ensures |r.txs| == |db.txs|
    ensures forall i :: 0 <= i < |db.txs| ==> r.txs[i] == SettleRow(db.txs[i], nonce, receipt)
  {
    Tables(db.payouts,
           if receipt.success && group in db.finals then db.finals[group := Some(receipt.hash)] else db.finals,
           seq(|db.txs|, i requires 0 <= i < |db.txs| => SettleRow(db.txs[i], nonce, receipt)))
  }

  predicate DistinctHashes(statuses: seq<TxStatus>) {
    forall j, k :: 0 <= j < k < |statuses| ==> statuses[j].hash != statuses[k].hash
  }

  predicate Covers(statuses: seq<TxStatus>, hash: Hash) {
    exists k :: 0 <= k < |statuses| && statuses[k].hash == hash
  }

  /** Statuses for exactly the pending rows of a nonce, once each. */
  predicate CoversNonce(db: Tables, nonce: nat, statuses: seq<TxStatus>) {
    && DistinctHashes(statuses)
    && (forall i :: 0 <= i < |db.txs| ==>
          (Covers(statuses, db.txs[i].hash) <==> db.txs[i].state.Pending? && db.txs[i].nonce == nonce))
  }

  /** Exactly one status is not dropped: the winner, which carries the receipt and its verdict. */
  predicate OneWinner(statuses: seq<TxStatus>, winner: nat, receipt: Receipt) {
    && winner < |statuses|
    && statuses[winner] == TxStatus(receipt.hash, if receipt.success then Confirmed else Failed, Some(receipt))
    && forall k :: 0 <= k < |statuses| && k != winner ==> statuses[k].state.Dropped? && statuses[k].receipt.None?
  }

  /** The final hash written while going through a prefix of the statuses. */
  lemma {:induction false} FinalsWritten(db: Tables, group: int, statuses: seq<TxStatus>, winner: nat,
      receipt: Receipt, n: nat)
    requires OneWinner(statuses, winner, receipt) && n <= |statuses|
    ensures ApplyStatuses(db, group, statuses[..n]).finals ==
            if receipt.success && winner < n && group in db.finals
            then db.finals[group := Some(receipt.hash)] else db.finals
  {
    if n > 0 {
      FinalsWritten(db, group, statuses, winner, receipt, n - 1);
      assert statuses[..n][..n - 1] == statuses[..n - 1];
    }
  }

  /** A row no status names is not written; a row named once is written by that status. */
  lemma {:induction false} RowWritten(db: Tables, group: int, statuses: seq<TxStatus>, n: nat, i: nat)
    requires DistinctHashes(statuses) && n <= |statuses| && i < |db.txs|
    ensures var row := ApplyStatuses(db, group, statuses[..n]).txs[i];
            && row.hash == db.txs[i].hash
            && ((forall k :: 0 <= k < n ==> statuses[k].hash != db.txs[i].hash) ==> row == db.txs[i])
            && (forall k :: 0 <= k < n && statuses[k].hash == db.txs[i].hash ==> row == SetRow(db.txs[i], statuses[k]))
  {
    if n > 0 {
      RowWritten(db, group, statuses, n - 1, i);
      assert statuses[..n][..n - 1] == statuses[..n - 1];
    }
  }

  /** The loop over the statuses of a nonce group settles that nonce. */
  lemma ApplyStatusesSettles(db: Tables, nonce: nat, group: int, statuses: seq<TxStatus>, winner: nat, receipt: Receipt)
    requires CoversNonce(db, nonce, statuses) && OneWinner(statuses, winner, receipt)
    requires forall i :: 0 <= i < |db.txs| && db.txs[i].state.Pending? ==> db.txs[i].receipt.None?
    ensures ApplyStatuses(db, group, statuses) == Settle(db, nonce, group, receipt)
  {
    var r := ApplyStatuses(db, group, statuses);
    assert statuses[..|statuses|] == statuses;
    FinalsWritten(db, group, statuses, winner, receipt, |statuses|);
    forall i | 0 <= i < |db.txs| ensures r.txs[i] == SettleRow(db.txs[i], nonce, receipt) {
      RowWritten(db, group, statuses, |statuses|, i);
      RowSettled(db, nonce, statuses, winner, receipt, i, r.txs[i]);
    }
    assert r.txs == Settle(db, nonce, group, receipt).txs;
  }

  lemma RowSettled(db: Tables, nonce: nat, statuses: seq<TxStatus>, winner: nat, receipt: Receipt, i: nat, row: TxRow)
    requires CoversNonce(db, nonce, statuses) && OneWinner(statuses, winner, receipt) && i < |db.txs|
    requires db.txs[i].state.Pending? ==> db.txs[i].receipt.None?
    requires (forall k :: 0 <= k < |statuses| ==> statuses[k].hash != db.txs[i].hash) ==> row == db.txs[i]
    requires forall k :: 0 <= k < |statuses| && statuses[k].hash == db.txs[i].hash ==>
               row == SetRow(db.txs[i], statuses[k])
    ensures row == SettleRow(db.txs[i], nonce, receipt)
  {
    if Covers(statuses, db.txs[i].hash) {
      var k :| 0 <= k < |statuses| && statuses[k].hash == db.txs[i].hash;
      assert k == winner <==> db.txs[i].hash == receipt.hash;
    }
  }
}
