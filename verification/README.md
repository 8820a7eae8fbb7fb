# Crypto batch payment: a verified model of the payout pipeline

The program pays many people in STORJ tokens. It imports a CSV of payees and USD amounts into a
database, then sends one token transfer per payee from one account, over a node that may lie, and
may be killed and restarted at any moment. What it promises is that nobody is paid twice, and that a
run which reports success has paid everybody. The first holds of every run. The second holds of every
run that is not asked to drain and whose pipeline limit is not negative; a draining run, or one with a
negative limit, attaches nothing, and its success means that everybody is paid exactly if no group was
left to attach when it began.

This project models that program in Dafny and proves the promise, together with what surrounds it:
the token ledger on which a transfer takes effect, the conversion of USD into tokens, the CSV import,
the statistics and the audit, and the whitespace flattener of the database runtime.

Verify it with `dafny verify dfyconfig.toml`.

## How it is built

*A protocol and programs that follow it.* `Protocol.dfy` is a state machine: the database, the chain
and the clock, with six kinds of atomic steps (`Create` a pending row, `Broadcast` it, `Mine` it,
`Finalize` a nonce group, `Tick`, and any `External` token call). Each step has a guard, and
`StepKeepsInv` shows that every step keeps an inductive invariant. `Safety.dfy`, `Nonces.dfy`,
`Books.dfy`, `Stats.dfy` and `Outlay.dfy` derive what the invariant means. `Settling.dfy`,
`Recovery.dfy` and `Help.dfy` say exactly which pending rows can still be brought to a verdict, `Possibility.dfy` that a payout can be
finished from there, and `Stuck.dfy` and `Histories.dfy` how it gets stuck. The imperative side
(`Database.dfy`, `Network.dfy`, `Payers.dfy`, `Pipeline.dfy`, `Runs.dfy`) has the classes and loops of
the source. `Network` keeps a ghost log of every atomic step of every process so far, and
`Network.Valid()` says that the log is legal and leads to the current state. So a method that ensures
`Valid()` is proved to take only steps the protocol allows, and every theorem about legal logs holds
after it.

*What a process does.* Not every legal log is the work of this program. A process hands over only
transactions that it recorded itself; one for zkSync Era never sends a nonce again, and decides only
about nonces with a single transaction. `Conduct.ActsAs` states this of a log, and every method of the
pipeline ensures it. Before it records a transaction, first or again, a process also wants the reported
balance, and allowance if it needs one, to cover the amount. `Conduct.ToldTruly` says of a log that the
true balances did, and `Conduct.LeftToItself` moreover that prices were as quoted and that nobody else
called the token. What can still be settled is said of histories that keep to these.

*Crashes.* Only what is in the database and on the chain survives a crash, and a crash takes no step
of its own. Before every protocol step, between any two node answers, and while waiting, the method
`Interfere` may advance the environment and may end the process. Theorems about logs hold for every
prefix of every log. `Runs.RunAll` starts any number of processes one after the other, each of either
payer kind, each of which may end anywhere.

*The node.* Answers are arbitrary (`*`), except that a receipt is never wrong: "not found" and
"pending" can be said at will, nonces, balances and allowances are any number, and a sent transaction
may or may not reach the chain. `Network` records the
conversation: its answers to lookups and for receipts, the statuses they told, the numbers, prices and fees
it gave, and the transactions it was handed. So contracts can say which answers a decision was taken on.

*Errors.* Failed database calls, failed node calls, refused hand-overs and kills are counted by the ghost
`Database.Faults`, which nothing else changes; the first one ends the process. So contracts can say that an
error was caused by one of these, and otherwise name its cause: `Pipeline.Refused` says for each refusal to
send which reported number, price or row justifies it, and `Pipeline.PassEnds` how a pass over the groups
ends when nothing fails.

Files: `Wrappers` (Option, Result); `Money` (decimals, `FromUSD`); `Ledger` (storj.sol); `Tables`
(rows, queries, finalization); `Protocol` (state machine and invariant); `Safety`, `Nonces`, `Books`,
`Stats`, `Outlay` (theorems over histories); `Conduct`, `Settling`, `Recovery`, `Help`, `Possibility`,
`Stuck`, `Histories` (what processes do, and what can still be finished); `Groups` (the table seen as
nonce groups); `Progress` (counting groups and steps); `Database`, `Network`, `Payers`, `Pipeline` (the
program); `Audit`, `Import`, `Flatten`; `Runs` (whole payouts, end to end).

## Assumptions

- One spender key, used by nothing but this program and the same for all runs; one process per
  database at a time; the clock never goes backwards; a mined transaction is final.
- A transaction's hash is an injective function of its contents (`Hash = HashOf(body)`). `TxBody.fees`
  stands for all contents that are not modelled.
- A transaction is mined only at the account's next nonce, as in section 6 of the Ethereum Yellow
  Paper, and may succeed or revert.
- The run starts on a freshly imported database and an account that never sent a payout. `NextNonce`
  is not assumed to be right, except in the lemmas that name `TruthfulNonces`.
- The number of decimals of the token is one true constant, the same for all processes and both payers;
  the node is never wrong about it.
- On zkSync Era the wallet both owns and spends the tokens.

## What the code does that its words do not say

- *A zkSync Era payout does not survive every crash.* That payer never calls a transaction dropped
  (pkg/zksyncera/payer.go:240-272), so nothing is sent again, and a recorded transaction is handed over
  only right after it was recorded (pkg/pipeline/pipeline.go:418-437). A process killed between the two,
  or a failed hand-over, leaves a row that no later process sends. The same holds of a nonce for which an
  Ethereum process left two transactions: the zkSync Era payer refuses it for ever
  (pkg/zksyncera/payer.go:241-243). `Recovery.TruthfulZkSettles` gives the exact condition: with true
  nonces a pending row can be settled if and only if it and all pending rows below it were handed over,
  and no nonce up to its own is pending twice. `Stuck.NeverSentBlocks`, `Stuck.TwicePendingBlocks` and
  `Runs.ResumeZkSync` give the consequences; `Histories.StuckAfterACrash` and
  `Histories.StuckAfterSwitching` are two such histories.
- *An Ethereum payout recovers from a crash only while it can pay.* A row that was not handed over is
  sent again, on new terms, but only after the balance was found to cover it (pkg/pipeline/pipeline.go:384-391),
  and the allowance if owner and spender differ (pkg/eth/payer.go:150-163). `Recovery.TruthfulSettles`
  gives the exact condition for a payout left to itself at given prices: with true nonces a pending row can
  be settled if and only if for each pending nonce up to its own some transaction was handed over or
  another one can be paid. `Help.WithHelpIff` gives it for free prices and an owner that anybody may fund:
  there are tokens at all, or nothing has to be sent again. `Histories.StuckWithoutTokens` is a history
  that meets neither.
- *A resend with unchanged terms cannot be recorded.* Resending a dropped transaction at the same
  price and the same fees gives the same contents, hence the same hash, and `UNIQUE ( hash )`
  (pkg/payoutdb/payoutdb.dbx.go:312) refuses the row; the process then stops with that error
  (pkg/pipeline/pipeline.go:342-438). `Nonces.ResendNeedsNewTerms` gives the exact condition, and
  `Histories.RefusedResend` a history in which a permitted resend is refused.
- *The guard against used nonces lets most of them through.* The comment at
  pkg/pipeline/pipeline.go:221-226 says a known bad nonce is not recorded, but `expectedNonce` is one more
  than the nonce last taken from the node, not the last one used, and 0 after a restart. With nothing
  pending, a group recorded under an accepted nonce can be settled if and only if that is the account's
  next nonce. So a wrong answer is accepted, and its row pending for ever, exactly if it is at least the
  expected nonce and not the next one; for a node that lags behind, if it lies from the expected nonce
  up to the next one (`Stuck.StaleAnswerSlipsThrough`). Nobody is paid twice, but that group is not paid.
  `Histories.StuckInARunningProcess` and `Histories.StuckAfterARestart` are two such histories.
- *A negative pipeline limit is accepted* (cmd/crybapy/cmd_run.go:65-69; only 0 is replaced,
  pkg/pipeline/pipeline.go:101-103). Such a run attaches nothing and reports success once nothing is
  pending (`Pipeline.Pipeline.ProcessPayouts`).
- *A transfer from an account to itself can exceed its balance.* `transferFrom` credits before it
  debits (pkg/contract/storj.sol:116-117), so only the allowance limits such a call.
  `Ledger.SelfTransferFromIgnoresBalance` shows it; no balance changes.
- *An empty nonce group would read as dropped* and be sent again (pkg/eth/payer.go:241-249).
  `Payers.EmptyGroupReadsDropped` says so, and `Pipeline.Ask` shows no empty group is ever asked about.
- *CSV lines.* The "line" of a row counts records, not lines of the file, and a header passes as soon
  as either of its two fields is right (pkg/csv/csv.go:53, 65). The model follows the code.

## Model

| member | source | states |
|---|---|---|
| Runs.RunAll | pkg/pipeline/pipeline.go:121-151 | Over any number of processes, each ended anywhere, no group has two successful transfers; if the last one reports success nothing is pending; and if it was not draining and its limit was not negative, every group is finished and every balance equals its start plus other calls plus the recorded tokens of its confirmed rows, less the total for the owner. Processes of one kind together keep to what that kind does |
| Runs.ResumeZkSync | pkg/zksyncera/payer.go:240-272 | After a crash that left a pending nonce without any transaction handed over, no sequence of zkSync Era processes reports success; the row stays pending and no nonce from its own on is ever mined |
| Runs.Begin | pkg/payouts/import.go:48-84 | Importing a CSV into an empty database gives a state in which the protocol may start, with one unpaid group per data record; without a bad record only a failing write prevents it |
| Runs.RunConfirming | pkg/pipeline/pipeline.go:121-151 | From an empty pipeline with n unattached groups, a payer that confirms each batch at its k-th check allows at most k * ceil(n / limit) unfinished steps; a process given more polls than that ends by itself, and if with success then after exactly that many |
| Runs.AuditPayout | pkg/payouts/audit.go:92-315 | An audit at any moment of a payout against a truthful node counts no double pay, overpaid, false confirmed, dropped or unknown payout, one receipt line per confirmed payout, and the confirmed, pending, failed and unstarted payouts as `AuditCounts` says |
| Runs.LegalPaidOnce | pkg/pipeline/pipeline.go:177-438 | After every legal history no payout group has two rows whose transfers went through |
| Runs.FinishedMatches | pkg/pipeline/pipeline.go:249-257 | After every legal history with nothing pending and all groups finished, the ledger holds what the confirmed rows say, account by account |
| Protocol.StepKeepsInv | pkg/pipeline/pipeline.go:177-438 | Every step of the program or its environment keeps the whole invariant: unique hashes, truthful rows, final hashes, pending groups, contiguous nonces, recorded sends, spacing |
| Protocol.LegalInv | pkg/pipeline/pipeline.go:177-438 | The invariant holds after every legal history, hence after every crash |
| Protocol.FinalizeSettles | pkg/pipelinedb/db.go:298-317 | A finalization that the guard allows gives the winner its receipt and verdict, drops the other rows of the nonce, touches no other row, and writes the final hash exactly when the receipt is a success |
| Protocol.ImportedDataStays | pkg/pipelinedb/db.go:178-199 | No history changes the imported payouts or the set of groups |
| Tables.ApplyStatusesSettles | pkg/pipelinedb/db.go:298-317 | The status-by-status update of a nonce group, in whatever order, equals settling the nonce at once |
| Safety.PaidAtMostOnce | pkg/pipeline/pipeline.go:177-438 | After every legal history two rows of one group whose transfers both succeeded are the same row |
| Safety.MinedIsRecorded | pkg/pipeline/pipeline.go:418-437 | Every mined transaction is exactly one recorded row, and so is credited to one group |
| Safety.LegalPays | pkg/eth/payer.go:131-171 | Every recorded row pays the one payout of its group, converted at the recorded price |
| Safety.FinalHashIsTrue | pkg/pipelinedb/db.go:304-313 | A recorded final hash is a mined, successful transfer recorded for that group, final for no other group, which pays the payee what the group's one payout is worth at the recorded price |
| Safety.FinalIffConfirmed | pkg/pipelinedb/db.go:298-317 | A group has a final hash if and only if it has a confirmed row; there is at most one, and its hash is the final one |
| Safety.OneVerdictPerNonce | pkg/pipelinedb/db.go:298-317 | A settled nonce has exactly one failed or confirmed row, of the same group, whatever else was dropped |
| Safety.RowsSettleOnce | pkg/pipelinedb/db.go:472-489 | Over any history a row keeps its transaction, and once it has left "pending" it is never written again |
| Nonces.NoncesAreFresh | pkg/pipeline/pipeline.go:211-233 | With a truthful node a newly attached group gets a nonce above every nonce in the table |
| Nonces.FinalizationsIncrease | pkg/pipeline/pipeline.go:278-334 | With a truthful node groups are finalized in strictly increasing nonce order over the whole history |
| Nonces.ResendNeedsNewTerms | pkg/payoutdb/payoutdb.dbx.go:296-313 | A permitted resend can be recorded if and only if it differs from every row of its nonce in amount, fees or payee |
| Settling.BlockStays | pkg/pipeline/pipeline.go:278-334 | What blocks a pending row lasts: a used nonce at or below its own and a gap below it whatever happens, two transactions for one nonce under zkSync Era processes, and a nonce never handed over under zkSync Era processes or under Ethereum ones that cannot pay for another transaction |
| Settling.DeadRowsStayPending | pkg/pipeline/pipeline.go:306-309 | A pending row with a gap below it or a used nonce up to its own stays pending in every later history, whoever makes it |
| Settling.UndeliverableStaysPending | pkg/pipeline/pipeline.go:384-391 | So does a pending row at or above a nonce that processes of the kind cannot get a verdict on, while they go on by themselves, told true balances and the quoted prices |
| Settling.SettledIsUsedUp | pkg/pipelinedb/db.go:298-317 | A nonce with a settled row is used up for every row that is still pending there |
| Recovery.SettleableIff | pkg/pipeline/pipeline.go:278-334 | Processes of a kind, told true balances and the quoted prices and left to themselves, can bring a pending row to a verdict if and only if the account reaches its nonce without a gap, no pending nonce up to it is used up, and for each of them: on Ethereum some transaction was handed over or another one can be paid, on zkSync Era the only transaction was handed over or mined |
| Recovery.TruthfulSettles | pkg/pipeline/pipeline.go:297-313 | With true nonces the condition is only that on each pending nonce up to the row's own: handed over, or affordable again on Ethereum |
| Recovery.TruthfulZkSettles | pkg/zksyncera/payer.go:240-272 | With true nonces zkSync Era processes can settle a pending row if and only if it and all pending rows below it were handed over and no nonce up to its own is pending twice |
| Recovery.ClearPending | pkg/pipeline/pipeline.go:278-334 | With true nonces every history in which each pending nonce was handed over, or can be paid again on Ethereum, goes on by itself to one with nothing pending, without moving a token |
| Help.WithHelpIff | pkg/pipeline/pipeline.go:384-391 | With free prices, and whoever else calls the token, Ethereum processes told true balances can settle a pending row if and only if the account reaches its nonce, nothing up to it is used up, and there are tokens left or nothing has to be sent again |
| Stuck.NonceDecides | pkg/pipeline/pipeline.go:211-233 | A row recorded with nothing pending can be settled, by the process that recorded it, if and only if its nonce is the account's next one, and otherwise stays pending in every later history |
| Stuck.StaleAnswerSlipsThrough | pkg/pipeline/pipeline.go:221-233 | For every expected nonce: an answer is accepted and its row never settled if and only if it is at least the expected nonce and not the account's next one |
| Stuck.AnyNonceCanBeRecorded | pkg/pipeline/pipeline.go:342-437 | With nothing pending an unpaid group can be recorded under any nonce |
| Stuck.ZkOnePerNonce | pkg/zksyncera/payer.go:240-243 | A payout run by zkSync Era processes only never has two transactions pending for one nonce |
| Stuck.NeverSentBlocks | pkg/pipeline/pipeline.go:418-437 | Under later zkSync Era processes a nonce of which nothing was handed over stays so, and nothing at it or above is mined or settled |
| Stuck.TwicePendingBlocks | pkg/zksyncera/payer.go:240-243 | A nonce with two pending transactions, and every pending row above it, stays pending under zkSync Era processes |
| Stuck.CrashBeforeSend | pkg/pipeline/pipeline.go:418-437 | The row recorded right before a zkSync Era process dies stays pending under all later ones |
| Stuck.SameTermsAreRefused | pkg/payoutdb/payoutdb.dbx.go:296-313 | Thirty seconds after it was recorded a pending transaction may be sent again, but not with the same contents |
| Histories.StuckInARunningProcess | pkg/pipeline/pipeline.go:221-233 | A legal history in which a process that expects nonce 1 accepts the used nonce 1, and the row stays pending for ever |
| Histories.StuckAfterARestart | pkg/pipeline/pipeline.go:221-233 | The same with a process that expects nothing and the used nonce 0 |
| Histories.StuckAfterACrash | pkg/pipeline/pipeline.go:418-437 | A legal history of one recorded transaction after which zkSync Era processes never finish its group |
| Histories.StuckAfterSwitching | pkg/zksyncera/payer.go:240-243 | A legal history in which Ethereum processes record two transactions for one nonce, after which zkSync Era processes never finish its group |
| Histories.StuckWithoutTokens | pkg/pipeline/pipeline.go:384-391 | A legal history after which no Ethereum process told true balances can settle the pending row, at any prices and with anybody's help |
| Histories.RefusedResend | pkg/payoutdb/payoutdb.dbx.go:296-313 | A legal history after which a permitted resend on the same terms cannot be recorded |
| Nonces.ResendBound | pkg/pipeline/pipeline.go:298-313 | A pending nonce whose first row was recorded at t0 has at most 1 + (now - t0) / 30s rows, across restarts and despite the truncated clock |
| Books.BalanceSheet | pkg/contract/storj.sol:103-121 | After every legal history each balance is its start plus what other calls did plus exactly the successful payouts |
| Books.LedgerConserved | pkg/contract/storj.sol:26-72 | The ledger stays conserved under payouts and everything else |
| Books.CleanFinish | pkg/pipeline/pipeline.go:249-257 | With nothing pending and all groups finished, each group has exactly one confirmed row, and each balance moved by exactly the recorded tokens of the confirmed rows, besides what other calls did |
| Books.NothingLeft | pkg/payoutdb/payout_group.go:12-17 | With nothing pending every group is finished if and only if none is unattached |
| Possibility.UnpaidCanBePaid | pkg/pipeline/pipeline.go:177-437 | With nothing pending and true nonces so far, any payable group can be recorded, sent, mined and finalized by a process of either kind, which finishes exactly that group and leaves nothing pending |
| Possibility.EverybodyCanBePaid | pkg/pipeline/pipeline.go:177-437 | With true nonces, and funds (and allowance, if owner and spender differ) at the quoted prices for what no successful transfer has paid yet, every history goes on by itself, told true balances, to one with nothing pending and no unfinished group: on Ethereum whatever is pending, on zkSync Era if everything pending was handed over, one transaction for each nonce |
| Stats.Collect | pkg/pipelinedb/db.go:404-470 | The counts are the numbers of rows, payouts and groups in each state, those of the four states add up to all transactions, payees are counted once, and the USD sums are those of all payouts and of the payouts of unfinished groups |
| Stats.StatesAddUp | pkg/pipelinedb/db.go:448-467 | Pending, failed, confirmed and dropped add up to all transactions |
| Stats.ConfirmedAreFinished | pkg/pipelinedb/db.go:438-467 | In every reachable state there are as many confirmed transactions as finished groups |
| Stats.PreviewBoundsBatch | pkg/payouts/run.go:51-64 | For any list of payouts that convert at a price: the conversions add up to at most that of the summed USD, and to less than one unit per payout below it |
| Outlay.SpentIsConversion | pkg/pipeline/pipeline.go:351-437 | From any moment of a payout to its finish, if all groups unfinished then were paid at one price: the tokens recorded as confirmed since are the conversions of the payouts pending then |
| Outlay.PreviewBoundsOutlay | pkg/payouts/run.go:51-64 | They are then at most the estimate previewed at that moment, and less than one unit per pending payout below it |
| Outlay.OwnerOutlay | pkg/contract/storj.sol:103-121 | Between two moments with nothing pending the owner's balance falls by exactly what was confirmed since, besides payouts to itself and other calls |
| Groups.GroupingIsPipeline | pkg/pipelinedb/db.go:209-247 | What is loaded from a reachable table is a pipeline: nonempty groups at consecutive nonces, each holding exactly the pending rows of its nonce |
| Groups.PipelineIsUnique | pkg/pipelinedb/db.go:209-247 | Two pipelines of the same table have the same groups with the same rows |
| Progress.UnfinishedCount | pkg/pipelinedb/db.go:374-385 | The unfinished groups are the unattached ones and the groups in the pipeline, which are disjoint; with the finished ones they are all groups, in number as reported |
| Progress.RunConserves | pkg/pipeline/pipeline.go:177-276 | Over a run the unfinished groups drop by exactly the confirmed ones |
| Progress.StepsTaken | pkg/pipeline/pipeline.go:121-276 | A run in which every batch is confirmed at its k-th check has at most k * ceil(n / limit) unfinished steps, and exactly so many if and only if nothing is pending or unattached after it |
| Database.DB.CreatePayoutGroup | pkg/pipelinedb/db.go:178-199 | Adds a group with a new id and its payouts, or changes nothing |
| Database.DB.PendingOrderedByNonce | pkg/payoutdb/payoutdb.dbx.go:1966-1997 | Returns exactly the pending rows, each once, in nonce order |
| Database.SortIntoNonceGroups | pkg/pipelinedb/db.go:221-246 | The groups hold every pending row exactly under its nonce; the error is returned exactly when two rows of a nonce name different groups |
| Database.DB.FetchUnfinishedTransactionsSortedIntoNonceGroups | pkg/pipelinedb/db.go:209-247 | The pending rows as fresh, distinct nonce groups, or an error that means a read failure or a conflict in the table |
| Database.DB.FetchFirstUnfinishedUnattachedPayoutGroup | pkg/payoutdb/payout_group.go:20-40 | Returns some group without final hash and pending row, and nothing only if there is none |
| Database.DB.CountUnfinishedUnattachedPayoutGroup | pkg/payoutdb/payout_group.go:42-55 | Counts the groups without final hash and pending row |
| Database.DB.FinalizeNonceGroup | pkg/pipelinedb/db.go:298-317 | All statuses are written, or nothing is |
| Database.DB.CreateTransaction | pkg/pipelinedb/db.go:319-338 | Appends one pending row stamped with the time truncated to milliseconds; refused as a duplicate exactly when the hash is in the table |
| Database.DB.FetchPayoutProgress | pkg/pipelinedb/db.go:374-385 | Unfinished groups and all groups |
| Payers.GetTransactionInfo | pkg/eth/tx.go:15-43 | The status is dropped if and only if the node answered "not found", pending if and only if it answered "in the pool" or had no receipt, and otherwise that of the receipt, which is the mined one; errors are exactly the failed calls and kills. If "not found" is only said of transactions that never reached a node, a dropped one never did |
| Payers.GetNonceGroupTxStatus | pkg/eth/payer.go:282-360 | One true status per transaction, in order, exactly as told; `other` are those not dropped, and dropped and other are all of them; with honest lookups no dropped one ever reached a node |
| Payers.EthCheckNonceGroup | pkg/eth/payer.go:224-274 | The verdict that the told statuses imply; a dropped verdict is given only when resending is allowed, and the resend is refused only when it is not and all transactions were told dropped |
| Payers.ZkSyncCheckNonceGroup | pkg/zksyncera/payer.go:240-272 | The same contract for one transaction, never dropped; an error for any other number of transactions |
| Payers.CheckNonceGroup | pkg/pipeline/pipeline.go:290-293 | The contract of both payers that the pipeline relies on, with the cause of every error |
| Payers.DecisionMeaning | pkg/eth/payer.go:230-273 | A verdict is confirmed (or failed) if and only if exactly one transaction is not dropped and that is its state |
| Payers.DroppedMeaning | pkg/eth/payer.go:230-273 | A verdict is dropped if and only if every transaction is, and pending if and only if two are left, or one that is pending |
| Payers.VerdictHasWinner | pkg/eth/payer.go:224-274 | A final verdict on a held group names one winner, backed by the mined receipt of that nonce |
| Payers.EmptyGroupReadsDropped | pkg/eth/payer.go:241-249 | A group without transactions would be reported dropped |
| Pipeline.Pipeline.constructor | pkg/pipeline/pipeline.go:100-119 | Starts empty; limit 0 means the default |
| Pipeline.Pipeline.ProcessPayouts | pkg/pipeline/pipeline.go:121-151 | Takes only legal steps that its kind takes; success means nothing is pending, that all groups are finished when not draining with a positive limit, and otherwise that they are exactly if none was unattached at the start. Unless a fault ends it, it finalizes a group as failed if and only if it ends with failed transactions, a refused resend, or on zkSync Era a group it cannot follow |
| Pipeline.Pipeline.RunSteps | pkg/pipeline/pipeline.go:134-149 | The unfinished steps form a run whose counts fit together, as many as polls if it has not ended; success ends it with nothing pending or unattached |
| Pipeline.Pipeline.InitPayout | pkg/pipeline/pipeline.go:153-175 | Loads the pending rows as groups and makes one pass over them, which without a fault ends as `PassEnds` says |
| Pipeline.Pipeline.LoadPending | pkg/pipeline/pipeline.go:154-157 | After any history loading gives a pipeline of the table; the conflicting-group error cannot occur |
| Pipeline.Pipeline.PayoutStep | pkg/pipeline/pipeline.go:177-276 | Keeps the in-memory groups equal to the pending rows behind the settled ones; an unfinished step fills up exactly to the limit or the supply, hears about the groups in order and lowers the counts by the confirmed ones; done without error means everything is finished. Without a fault an error is one of attaching a group, or ends the pass |
| Pipeline.Pipeline.ReportAndCheck | pkg/pipeline/pipeline.go:259-275 | After filling up only reading the progress can prevent the pass, whose end and statuses it reports |
| Pipeline.Pipeline.TrimSettled | pkg/pipeline/pipeline.go:178-188 | Removes exactly the settled groups, which are a prefix |
| Pipeline.Pipeline.FillUp | pkg/pipeline/pipeline.go:190-247 | Adds groups until the limit or until none is left, each with one transaction that was handed to the node, in order; without a fault it fails only for a nonce known to be used while nothing is pending, or a refused transaction of an unattached group |
| Pipeline.Pipeline.AttachNext | pkg/pipeline/pipeline.go:193-203 | Attaches one unattached group, or finds that there is none |
| Pipeline.Pipeline.AttachGroup | pkg/pipeline/pipeline.go:205-245 | Appends one group for the payout group under the next nonce and removes it from the unattached ones; without a fault it fails only for a nonce known to be used, or a refused transaction of this group |
| Pipeline.Pipeline.NextNonce | pkg/pipeline/pipeline.go:208-233 | One more than the last group's nonce, or an accepted answer of the node; nonces taken from the node strictly increase in a process; a refused answer was below the expected nonce |
| Pipeline.Pipeline.CheckNonceGroups | pkg/pipeline/pipeline.go:278-340 | One pass: statuses heard group by group up to the first without a final verdict, the groups before it settled, that one sent again only if dropped and always if also old enough. Without a fault the whole pass is made whatever fails in it; failed transactions are reported exactly when some verdict was failed and it did not stop at a dropped group; a dropped group stops it only after a failure, or for the stated cause of a refusal; zkSync Era stops at a group with several transactions. With honest lookups no transaction of a group sent again ever reached a node |
| Pipeline.Pipeline.CheckGroup | pkg/pipeline/pipeline.go:282-333 | What one group's verdict leads to: final verdicts settle it, dropped ones send it again if it is old enough, pending ones change nothing; after an earlier failure nothing is sent, and a failed verdict alone can put its group back among the unattached ones. Each error has its cause, and with honest lookups a group with a transaction that reached a node is never sent again |
| Pipeline.Pipeline.FinalizeGroup | pkg/pipeline/pipeline.go:318-332 | Records a final verdict on the first unsettled group and empties it, as one atomic step |
| Pipeline.Pipeline.ResendIfOld | pkg/pipeline/pipeline.go:297-313 | A dropped group gets one more transaction, unless one of its rows is younger than 30 s, and then nothing changes; without a fault it fails only if that transaction is refused |
| Pipeline.Pipeline.Ask | pkg/pipeline/pipeline.go:282-293 | Only groups with transactions are asked about; without a fault there is a verdict, except that a check-only group with all transactions dropped, or on zkSync Era one with several transactions, gets none |
| Pipeline.SendTransaction | pkg/pipeline/pipeline.go:342-438 | A row is recorded before its transaction is handed over, by the same process; the reported balance, and allowance if needed, cover the amount. Without a fault it succeeds if and only if the group has one payout, worth a positive amount at the quoted price, the reported numbers cover it, and that transaction is not recorded yet |
| Pipeline.SubmitDraft | pkg/pipeline/pipeline.go:418-438 | The draft is recorded and then handed over; a draft whose transaction is already in the table is refused and changes nothing |
| Pipeline.DraftTransaction | pkg/pipeline/pipeline.go:342-416 | The recorded amount is positive, equals the amount inside the transaction and is the conversion of the one payout of the group at the quoted price, and the preconditions were met; without a fault every refusal has its cause in the payouts, that price, or the number reported last |
| Pipeline.QuoteTokens | pkg/pipeline/pipeline.go:371-400 | The amount at the quoted price if it is positive and the reported balance covers it; refused exactly for a conversion that panics, an amount of at most zero, or a balance below it |
| Pipeline.RefusalsAreJust | pkg/pipeline/pipeline.go:342-438 | No refusal applies to a group with one payout whose positive conversion at the quoted price the reported numbers cover and whose transaction is new |
| Pipeline.CreateRawTransaction | pkg/eth/payer.go:131-171 | One payout only; amount, payee and nonce of the transaction; the allowance is asked for exactly when owner and spender differ, and refused exactly when below the amount |
| Pipeline.RecordedIsSent | pkg/pipeline/pipeline.go:351-391 | Converting the summed USD and converting the payout's USD give the same tokens |
| Pipeline.YoungestTransactionTime | pkg/pipeline/pipeline.go:458-467 | The greatest creation time of the rows |
| Pipeline.OnlySettledAreEmpty | pkg/pipeline/pipeline.go:178-188 | The groups without transactions are exactly the settled ones, in front |
| Pipeline.ReloadIsPipeline | pkg/pipelinedb/db.go:209-247 | Reloading the table gives the in-memory pipeline without its settled groups |
| Pipeline.NeverConflicting | pkg/pipelinedb/db.go:226-233 | In every state with the invariant no two pending rows of a nonce name different groups |
| Ledger.Token.constructor | pkg/contract/storj.sol:346-354 | The supply is allocated to the owner |
| Ledger.Token.transfer | pkg/contract/storj.sol:103-108 | On 256-bit words, the step of the unbounded ledger; it fails exactly when the balance is too small, so the addition never overflows |
| Ledger.Token.transferFrom | pkg/contract/storj.sol:110-121 | The step of the unbounded ledger; it fails exactly when `TransferFromAllowed` does not hold |
| Ledger.Token.approve | pkg/contract/storj.sol:127-138 | Sets the allowance, unless both it and the old one are nonzero |
| Ledger.Token.burn | pkg/contract/storj.sol:167-177 | Takes tokens from the sender and the supply, or fails for want of balance |
| Ledger.Token.upgrade | pkg/contract/storj.sol:250-270 | Moves tokens from the sender and the supply to the upgraded total, in the upgrade states only |
| Ledger.Token.setUpgradeAgent | pkg/contract/storj.sol:275-296 | Sets the agent if the master asks, before any upgrade, and the agent fits |
| Ledger.Token.setUpgradeMaster | pkg/contract/storj.sol:313-317 | Only the master names another nonzero master |
| Ledger.SafeAdd | pkg/contract/storj.sol:45-49 | The check after a wrapping addition throws exactly when it wrapped |
| Ledger.ExecConserves | pkg/contract/storj.sol:103-138 | Every successful call keeps balances equal to supply and supply plus upgraded plus burned equal to what was issued |
| Ledger.CallsConserve | pkg/contract/storj.sol:26-317 | The same over any sequence of calls, failed ones included |
| Ledger.UpgradingIsFinal | pkg/contract/storj.sol:275-306 | Once a token was upgraded the agent and the state never change |
| Ledger.TransferMovesValue | pkg/contract/storj.sol:103-121 | A transfer moves value between two accounts, uses up allowance, and touches nothing else |
| Ledger.CallSucceeds | pkg/contract/storj.sol:103-317 | When each call goes through: the balance, the allowance, the two-step approval, and the roles and states of upgrading that it needs |
| Ledger.CallEffects | pkg/contract/storj.sol:127-317 | What approving, burning, upgrading and naming an agent or a master do to every balance, allowance and total, and that they touch nothing else |
| Ledger.SpendingNeedsConsent | pkg/contract/storj.sol:110-138 | Over any calls by others an account loses at most what it allowed, and the allowance is used up accordingly |
| Ledger.SelfTransferFromIgnoresBalance | pkg/contract/storj.sol:110-121 | A transfer from an account to itself succeeds beyond its balance and changes only the allowance |
| Money.FromUSDIsFloor | pkg/storjtoken/token.go:23-33 | For amounts of at least zero and a positive price the conversion is floor(usd * 10^decimals / price), and panics exactly for fewer than 8 decimals or an exponent out of range |
| Money.FromUSDIgnoresRepresentation | pkg/storjtoken/token.go:23-33 | Equal amounts convert alike whatever coefficient and exponent represent them |
| Money.SumTokensNearExact | pkg/storjtoken/token.go:23-33 | Rounding each payout down loses less than one unit per payout against the exact total |
| Money.BatchNearEstimate | pkg/storjtoken/token.go:23-33 | For any list of amounts the conversions add up to at most that of the sum, and to less than one unit per amount below it |
| Money.SumOfOneConvertsAlike | pkg/pipeline/pipeline.go:351-391 | The sum over one payout converts like the payout |
| Audit.Reconcile | pkg/payouts/audit.go:97-158 | With distinct lines a line is reported if and only if one side has it and the other has not, or both have it and payees or the values of the amounts differ; in general the lines on which either side disagrees with the other |
| Audit.MismatchedIsDifference | pkg/payouts/audit.go:97-158 | The same of the two specification functions: a line is disputed by either side if and only if the payouts themselves differ there |
| Audit.CountDoublePays | pkg/payouts/audit.go:163-192 | The number, and the tokens, of the rows recorded dropped that the node calls confirmed; fails if and only if the node fails on some row |
| Audit.DoublePayTokensAddUp | pkg/payouts/audit.go:185-188 | The double-paid tokens are added up row by row, over the rows recorded dropped that the node calls confirmed |
| Audit.ClassifyGroup | pkg/payouts/audit.go:228-296 | The bucket and receipt hash of a group by counting loops; `BucketMeaning` and `ReceiptMeaning` say what they mean |
| Audit.BucketMeaning | pkg/payouts/audit.go:220-296 | Without confirmed rows: pending if some row is pending, else failed if some row failed, dropped if all rows were, unstarted if there are none; with confirmed rows: false confirmed, confirmed or overpaid as receipts back none, one or more of them |
| Audit.ReceiptMeaning | pkg/payouts/audit.go:279-284 | A group gets receipts if and only if a confirmed row is backed, with the hash of its first confirmed row |
| Audit.CheckPayouts | pkg/payouts/audit.go:199-297 | Although each group is classified once, at its first payout, every payout is counted in its group's bucket, and the receipt lines are one per payout of a paid group, in order |
| Audit.Audit | pkg/payouts/audit.go:92-315 | All statistics, the receipt lines, and when they are written; the eight counters add up to the total |
| Audit.BucketsPartition | pkg/payouts/audit.go:199-297 | The eight buckets of the specification, which `CheckPayouts` counts, add up to all payouts |
| Audit.OneReceiptEach | pkg/payouts/audit.go:201-206 | There is one receipt line for each payout of the confirmed and overpaid groups |
| Audit.ReceiptsCoverAll | pkg/payouts/audit.go:301-310 | Receipts written without force contain a line for every payout |
| Audit.AuditAgrees | pkg/payouts/audit.go:185-297 | After every legal history, against a truthful node with complete receipts, no payout falls into a bucket the pipeline cannot cause, and there is no double pay |
| Audit.AuditCounts | pkg/payouts/audit.go:220-296 | After every legal history the audit counts as confirmed the payouts of finished groups, as pending those of groups with a pending row, as failed those of unattached groups with rows, and as unstarted those of groups without rows |
| Audit.ReceiptIsFinalHash | pkg/payouts/audit.go:279-284 | After every legal history the receipt of a finished group carries its recorded final hash |
| Import.Parse | pkg/csv/csv.go:39-93 | The rows are exactly the data records, in order, numbered by record; an error names the first bad record |
| Import.FromCSV | pkg/payouts/source.go:8-18 | One payout per row, with its line, payee and amount |
| Import.CreatePayoutGroups | pkg/payouts/import.go:86-95 | On an empty database, one group per payout, numbered from one |
| Import.ParsedLinesDistinct | pkg/csv/csv.go:50-92 | Parsed lines are distinct before and after the import |
| Import.ImportIsGenesis | pkg/payouts/import.go:86-95 | An imported database is a state in which the protocol may start |
| Import.FreshImportAudits | pkg/payouts/audit.go:97-226 | Right after the import an audit finds no mismatch and every payout unstarted |
| Flatten.FlattenSQL | pkg/payoutdb/payoutdb.dbx.go:1182-1230 | On both paths the result is the words joined by single spaces |
| Flatten.WordsOfJoin | pkg/payoutdb/payoutdb.dbx.go:1182-1230 | Splitting joined words gives the words back |
| Flatten.FlattenKeepsWords | pkg/payoutdb/payoutdb.dbx.go:1182-1230 | Flattening keeps the words and is idempotent |

## Left out

- RPC, HTTP, SQLite and file access: node answers are arbitrary values, the database is tables with atomic commits that may fail.
- Signing, RLP, EIP-712, JSON and ABI encoding: a hash is an injective function of the transaction's contents.
- Text forms of addresses, hashes, times and decimals: the conversions are taken to be inverse on values. CSV fields are read by functions passed in (`Import.Readers`), and the CSV reader's own record splitting is not modelled.
- uint64 and int64 limits: nonces, ids and counts are unbounded. Nanosecond times are naturals.
- Money.FromUSDIsFloor: the decimal library's `Shift` adds exponents in 32 bits; the model keeps the sum unbounded and panics when the final exponent is out of range, so a `Shift` that wraps around is not captured.
- Payers.CheckNonceGroup: log messages, and the partial status list that accompanies an error, are not part of the result.
- Pipeline.Pipeline.ProcessPayouts: polling and the delay between transactions take arbitrary time; a process that waits for ever is one that is killed.
- Database.DB.PendingOrderedByNonce: the order of rows with equal nonces is unspecified by the query; the model inserts them in table order and promises nothing about it.
- Database.DB.FetchFirstUnfinishedUnattachedPayoutGroup: the query has no order, so the choice is arbitrary.
- Ledger.Token.upgrade: the external agent's answer is part of the call, and re-entry through `upgradeFrom` is not modelled; neither are the payload-size modifier, events, `safeMul`, `safeDiv` and the token's name and symbol.
- Audit.Audit: the node answers one way per hash during an audit, and failures of database reads are not modelled. Rows are in one of the four states by their type, so the default branch for other states, and with it the counter of unknown payouts, stays at zero for any database.
- Runs.Begin: the temporary directory and the final rename of the import.
- The columns for owner, spender, raw transaction and gas price. Payout runs leave the pipeline's configured owner unset (pkg/payouts/run.go:93-100), so the recorded owner is the zero address whatever account pays; nothing reads it back.
- Quote and gas-fee caches, preconditions other than "met or not", and the gas price and fee arithmetic.
- `RecordStart`, schema migration, configuration, commands, prompts, logging, receipt formatting, row sorting, the zkSync v1 commands, the zkSync Era auditor and `SimPayer`.
- Manual deletion of pending rows, other uses of the spender key, and changing the spender between runs.
