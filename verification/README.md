# Cashback money pipeline: a verified model

This project models the money pipeline of the BuyBack affiliate backend and proves what holds of it over
every run: a provider snapshot is ingested page by page and published into commissions and cashback
shares; payable commissions are put into a settlement batch and confirmed; confirming credits users'
wallets; users withdraw from their wallets. The five services share their tables through serializable
transactions, so a run is a sequence of transactions, each of which commits as a whole or leaves no trace.

To check the project, run `dafny verify dfyconfig.toml` with Dafny 4.11.

## How it is built

- `Tables.dfy` is the database as a value. A row's id is its position in its table; a commission and its
  cashback allocation live inside their checkout, and settlement items inside their batch, because unique
  foreign keys make them one-to-one or owned.
- `Engine`, `Settlement`, `Withdrawals`, `Wallets` and `Eligibility` say what each service call does to
  that value: the same branches, in the same order, with the same errors.
- `Services.dfy` holds the class `FinanceStore`, whose methods change the tables step by step, as the
  services do, and are proved to do what those functions say. `Transaction` runs a call and rolls back when
  it fails; `Serve` serves any sequence of requests.
- `Invariants.dfy` is what every reachable database satisfies. `Rows`, `Books`, `Issues`, `CoreSteps` and
  `Batches` prove that each single step keeps it; `Runs.dfy` puts the steps together into runs.
- `MoneyTheorems`, `CommissionTheorems`, `PublishTheorems`, `ReviewTheorems`, `ShareTheorems`, `Effects`,
  `Frames`, `ListView` and `Pipeline` state the results in the terms of the system rather than of the
  functions: labels, statuses, limits, defaults and errors are written out. `Progress` shows that the good
  paths stay open, and `Scenario` follows one purchase from its link to a completed withdrawal, so the
  conditions of the results are met by real runs.
- `Leases.dfy` is the job-lease protocol for any number of instances under one clock, and `LeaseTheorems`
  says what it guarantees; `Fencing.dfy` runs it together with the database, while every other service call
  happens in between. `Ingest.dfy` is the paging loop.
- `Money`, `Text`, `Contract`, `Payment`, `Inspection`, `Digests` and `Attribution` are the calculations
  and texts the services rest on; `Prelude` has sums over tables.

Foreign calls are parameters, fixed for a run (`Payment.Env`): the configured paid labels, trimming and
NFC normalisation of a label, the JSON text of a row, the item id a product URL carries, and the two
feature switches. A SHA-256 digest is represented by the text it is computed from, which says that hashes
do not collide. The answer of the approved-bank query is part of a withdrawal request. Credential, link
and policy changes are steps of a run.

## Where the documents and the code disagree

The code is followed in each case.

- The repository's `README.md` says that reconciliation, wallets and withdrawals are not implemented yet;
  the services are there.
- `docs/addlivetag-reconciliation.md` says that the known unpaid and rejected labels cannot be overridden
  by configuration. That is true of the rejected label only: the configured list is consulted before the
  pending labels. `Payment.KnownLabels` proves exactly when the promise holds, and
  `Payment.PendingCanBeConfigured` gives a configuration for which it does not.
- `docs/summary.md` gives the user's share as 85 %; the code's default is 8000 basis points.
- A comment in `prisma/schema.prisma` describes the tracking id as `bb_` and a 20-character nano id; the
  code prints `bb_` and the 32 digits of a UUID (section 4 of RFC 9562). The parser takes both.

## A gap in the lease

The publish transaction checks its lease at its start. What fences it from there to its commit is a conflict
on the batch row: an acquisition fails the account's RUNNING batches, and the publish marks its own batch as
COMPLETED, so one of the two is aborted. `LeaseTheorems.OvertakenExact` proves that this works exactly while
the batch is RUNNING. An instance that picked the same queued batch earlier, and notices late that it lost its
lease, marks that batch as FAILED (`GapIsReachable`); then nothing makes the two transactions conflict, and an
acquisition can come between the check and the commit.

## Model

| member | source | states |
|---|---|---|
| Runs.Reachable | src/modules/finance/finance.repository.ts:9-21 | Every database reachable from the empty one by any sequence of service transactions and setting changes, committed or rolled back, satisfies all invariants of `Invariants.dfy` |
| Runs.RunKeepsInv | src/modules/finance/finance.repository.ts:9-21 | The invariants are inductive: any run from any database that satisfies them keeps them |
| Services.FinanceStore.Transaction | src/modules/finance/finance.repository.ts:9-21 | The step-by-step methods, run in a transaction, end in exactly the state the specification gives, or in the old state with the specified error, and keep all invariants |
| Services.FinanceStore.Serve | src/modules/finance/finance.repository.ts:9-21 | Serving any sequence of requests leaves the store in the state the specified run leads to |
| MoneyTheorems.Conservation | src/modules/finance/settlement.service.ts:112-143 | After any run, available plus reserved over all wallets is the users' share of PAID commissions plus adjustments minus COMPLETED withdrawals; net VND of CONFIRMED batches is the total settled, which is the total of both shares, also after reversals |
| MoneyTheorems.UserSolvency | src/modules/finance/withdrawal.service.ts:34-82 | A user's completed and in-flight withdrawals never exceed the cashback ever credited plus the positive adjustments |
| MoneyTheorems.GlobalSolvency | src/modules/finance/settlement.service.ts:114-143 | Over all users, completed and in-flight withdrawals never exceed the raw amounts of all commissions ever paid plus the positive adjustments |
| MoneyTheorems.DebtIsClawback | src/modules/finance/wallet.service.ts:39-49 | An available balance is never below minus the reversals and negative adjustments: withdrawing alone makes no debt |
| MoneyTheorems.LedgerIsBalance | src/modules/finance/wallet.service.ts:34-63 | Each wallet holds the sums of its entries, each entry the running balances after it, no reserve is negative, and ledger and cached totals always agree |
| MoneyTheorems.ExactlyOnceCredit | src/modules/finance/settlement.service.ts:119-143 | A commission has exactly one CASHBACK_CREDIT entry iff it is PAID or REVERSED and exactly one CASHBACK_REVERSAL iff REVERSED, of the opposite amount for the same user |
| MoneyTheorems.ReservedIsWorkInFlight | src/modules/finance/withdrawal.service.ts:57-82 | Each wallet reserves the sum of its user's PENDING and PROCESSING withdrawals; each withdrawal has one reserve entry, and one final entry iff it is finished |
| MoneyTheorems.TransitionExact | src/modules/finance/withdrawal.service.ts:102-139 | PENDING moves to PROCESSING or REJECTED and PROCESSING to COMPLETED or FAILED, and to nothing else; repeating a status changes nothing; only a user in debt is kept from PROCESSING, no reserve check ever refuses a finalisation, and each refusal has its error |
| MoneyTheorems.CreateWithdrawalExact | src/modules/finance/withdrawal.service.ts:31-82 | A request is accepted iff withdrawals are enabled and it repeats an earlier one unchanged, which changes nothing, or is new, reaches the minimum (10000 VND without a stored policy), has an approved bank and is covered; each refusal has its error |
| Effects.RequestMoves | src/modules/finance/withdrawal.service.ts:57-82 | A new request moves its amount from available to reserved, for its user and nobody else, and is stored as made |
| Effects.TransitionMoves | src/modules/finance/withdrawal.service.ts:118-139 | Completing spends the reserve, rejecting or failing gives it back, processing moves nothing; nobody else's balance changes |
| Effects.RejectUndoesRequest | src/modules/finance/withdrawal.service.ts:109-139 | Rejecting a fresh request always works and restores every balance |
| Effects.AdjustExact | src/modules/finance/withdrawal.service.ts:243-258 | An adjustment is accepted iff it is not zero and its key is new or was used for the same adjustment; it moves the balance once however often it is sent |
| Frames.StepTouches | src/modules/finance/finance.repository.ts:9-21 | Each service call leaves every table it does not name as it is, row for row; the policy changes only by being set, within its bounds and keeping an unnamed minimum, or by being stored with its defaults |
| Frames.PublishMoves | src/modules/reconciliation/addlivetag-engine.ts:247-266 | Publishing a checkout takes the credited cashback back from its user and nobody else, when the checkout is wholly cancelled and nothing else is wrong, and moves no money otherwise |
| Services.FinanceStore.Post | src/modules/finance/wallet.service.ts:6-64 | The in-place posting is the specified one: same entry, same balances, same errors |
| Wallets.PostKeepsLedger | src/modules/finance/wallet.service.ts:20-63 | Every successful posting keeps the ledger equal to the balances |
| Wallets.FreshPost | src/modules/finance/wallet.service.ts:34-63 | A posting under a new key succeeds iff the funds asked for are there and the reserve stays non-negative, and then appends exactly its entry with the balances after it; each refusal has its error |
| Wallets.UsedPost | src/modules/finance/wallet.service.ts:20-33 | A posting under a used key is accepted iff it repeats the entry's user, amounts and reference, and then changes nothing |
| Wallets.PostOnce | src/modules/finance/wallet.service.ts:20-33 | A second posting under a used key returns the first entry or fails; it never moves money |
| Wallets.KeyTextInjective | src/modules/finance/settlement.service.ts:137 | Idempotency-key texts of different services and rows never collide, whatever text an adjustment key holds |
| Withdrawals.RequestKeyInjective | src/modules/finance/withdrawal.service.ts:36-37 | The joined key of a withdrawal request determines its user and key, since a user id holds no colon |
| Runs.PaidLifecycle | src/modules/finance/settlement.service.ts:119-130 | PAID is entered only by confirming a draft that names the commission, from VALIDATED; it is left only for REVERSED, which is final |
| Runs.RunEvolves | src/modules/reconciliation/addlivetag-engine.ts:135-140 | Over any run a commission's user and share are written once, revisions never go back, an unchanged revision means nothing but a payment happened, and paid money stays on record |
| Runs.ConfirmSeesCreate | src/modules/finance/settlement.service.ts:53-75 | If a draft is created, anything happens, and it is then confirmed, its checkouts were at every moment in between the ones it was created from, and their estimates add up to the gross amount |
| Runs.RunKeepsBatches | src/modules/finance/settlement.service.ts:205-217 | A batch keeps its contents until it is confirmed or cancelled, and then for ever |
| CommissionTheorems.NoDoublePayment | src/modules/finance/settlement-eligibility.ts:25-35 | For each external checkout at most one commission over all provider accounts is ever PAID or REVERSED |
| CommissionTheorems.CommissionCoherence | src/modules/reconciliation/addlivetag-engine.ts:309-335 | A cashback row exists iff the commission has a user; the states correspond; the two shares add up to the estimate before payment and to the settled amount after, the user's being the rounded-down fraction |
| CommissionTheorems.ValidatedIsPayable | src/modules/reconciliation/addlivetag-engine.ts:188-196 | Every VALIDATED commission has a user, a cashback row and a payload that passes the payment gate |
| CommissionTheorems.IssueCoherence | src/modules/reconciliation/addlivetag-engine.ts:119-133 | An unpaid commission is in MANUAL_REVIEW iff its checkout has an open issue, and every open issue carries the stored digest of its checkout |
| CommissionTheorems.ExcludeExact | src/modules/reconciliation/addlivetag-engine.ts:336-356 | No stuck reviews: excluding an open issue at the current revision succeeds iff the commission was never paid, and then it was in review |
| ReviewTheorems.ApproveExact | src/modules/reconciliation/addlivetag-engine.ts:357-420 | An approval is accepted iff the account is verified and active, no other account claims the checkout, the link of the id named is live and fits the stored user, the amount is at most the reported one, and every row is this affiliate's and void, paid or awaited, at least one completed; commission and cashback then go to that link's user for the accepted amount, and are payable iff the rows pass the payment gate |
| Approval.RowChecksExact | src/modules/reconciliation/addlivetag-engine.ts:367-406 | The checks of the rows, one after the other, accept exactly those rows; the status of the whole checkout decides nothing more |
| ReviewTheorems.ApprovalRefused | src/modules/reconciliation/addlivetag-engine.ts:357-410 | A refused approval throws the error of the first reason that holds, each reason a condition on the rows and the tables |
| ReviewTheorems.PaidOutNeverApproved | src/modules/reconciliation/addlivetag-engine.ts:370-377 | A checkout with a row of the status 'paid' can never be approved, although such a row under a paid label passes the payment gate |
| ReviewTheorems.ReviewAccepted | src/modules/reconciliation/addlivetag-engine.ts:336-350 | On a good database a review is accepted iff its issue is open, the checkout is unpaid and unchanged since the issue was raised and the reviewer saw it, and an approval meets its conditions; each refusal has its error |
| ReviewTheorems.ReviewExact | src/modules/reconciliation/addlivetag-engine.ts:347-440 | A review raises the revision by one; an exclusion rejects commission and cashback and changes nothing else of them; an approval names the link asked for and its user, sets the accepted amount and its split, and leaves the state to the payment gate; the conversion state is VALIDATED after an approval and REJECTED after an exclusion |
| ReviewTheorems.ReviewSettles | src/modules/reconciliation/addlivetag-engine.ts:421-440 | A review closes every issue of its checkout and touches no other checkout, issue, wallet, batch, link or credential |
| CommissionTheorems.PublishExact | src/modules/reconciliation/addlivetag-engine.ts:68-78 | On any reachable database, publishing succeeds iff the credential is the one the sync started with, with an error otherwise; no share or wallet step can fail |
| PublishTheorems.FindingExact | src/modules/reconciliation/addlivetag-engine.ts:80-142 | A snapshot raises an issue of a kind iff there are grounds for it, each kind's grounds written as a condition on the rows and the database |
| PublishTheorems.FindingPermutation | src/modules/reconciliation/addlivetag-engine.ts:80-246 | What a snapshot says, and the commission published from it, do not depend on the order of its rows |
| PublishTheorems.PublishRaises | src/modules/reconciliation/addlivetag-engine.ts:280-298 | After a checkout is published its open issues are exactly one for each ground, for the new digest |
| PublishTheorems.PublishReplacesIssues | src/modules/reconciliation/addlivetag-engine.ts:119-133 | Publishing a checkout closes its open issues, leaves all others as they are, and opens issues of different kinds for the new digest |
| PublishTheorems.PublishedRow | src/modules/reconciliation/addlivetag-engine.ts:143-169 | The published row holds the reported rows, their digest and amount and one more revision; its status is told by the rows, and it needs a review iff there are grounds for an issue; no other row changes |
| PublishTheorems.PublishedState | src/modules/reconciliation/addlivetag-engine.ts:187-246 | An unpaid commission is published as MANUAL_REVIEW iff there are grounds for an issue, else VALIDATED iff the rows pass the payment gate, REJECTED iff all rows are cancelled or all labels rejected, ESTIMATED otherwise; with the rows' amount, and a user and link that are kept once the user is set |
| PublishTheorems.PublishedShare | src/modules/reconciliation/addlivetag-engine.ts:240-246 | A published commission with a user has a cashback row that splits the rows' amount by the share it was made with, a new one by the policy's basis points, or 8000 without a stored policy; without a user the row stays as it was |
| ShareTheorems.PublishShares | src/modules/reconciliation/addlivetag-engine.ts:309-335 | After a whole snapshot is published, every commission that gained a cashback row splits its estimate by the policy's basis points, or 8000 without a stored policy |
| ShareTheorems.ShareIsPolicys | src/modules/reconciliation/addlivetag-engine.ts:320-321 | In any run, whatever step gives a commission its cashback row is a publish or a review, and the row splits the estimate by the policy in force then |
| PublishTheorems.PublishedPaid | src/modules/reconciliation/addlivetag-engine.ts:247-266 | A paid commission is reversed iff its checkout is wholly cancelled and nothing else is wrong; otherwise it stays as it is |
| CommissionTheorems.UnchangedIffStored | src/modules/reconciliation/addlivetag-engine.ts:115-119 | Publishing skips a checkout iff the reported rows are the stored ones in some order |
| CommissionTheorems.PublishStores | src/modules/reconciliation/addlivetag-engine.ts:143-169 | After publishing a checkout, the stored rows are the reported ones |
| CommissionTheorems.RepublishChangesNothing | src/modules/reconciliation/addlivetag-engine.ts:115-119 | Publishing a snapshot again, with checkouts and rows in any order, changes nothing at all |
| CommissionTheorems.ReviewSurvivesRepublish | src/modules/reconciliation/addlivetag-engine.ts:115-119 | Reporting the stored rows again changes nothing even after a human review |
| CommissionTheorems.NewRowsBumpRevision | src/modules/reconciliation/addlivetag-engine.ts:159-168 | Different rows of a stored checkout raise its revision by exactly one |
| CommissionTheorems.ConfirmExact | src/modules/finance/settlement.service.ts:83-173 | A batch is confirmed iff settlement is enabled and it is confirmed already, which changes nothing, or is a draft each of whose items has a checkout untouched since creation that nothing blocks; no later check can fail on its own, and the first item in the way decides the error |
| CommissionTheorems.PaidThroughOneBatch | src/modules/finance/settlement.service.ts:114-130 | A paid commission has exactly one settlement item, in a CONFIRMED batch, for the amount settled |
| Effects.CreateAllocates | src/modules/finance/settlement.service.ts:53-77 | A draft shares out exactly the net amount: every share but the last is the rounded-down fraction of its estimate; each item keeps the raw amount and revision it came from |
| Effects.CancelUndoesCreate | src/modules/finance/settlement.service.ts:205-219 | Cancelling a draft makes every commission as eligible as before, and the same request works again under a new reference |
| Effects.CancelExact | src/modules/finance/settlement.service.ts:205-220 | A draft can be cancelled at any time: its items are deleted, exactly its own commissions become free and nothing else changes; cancelling again changes nothing, and a confirmed batch is refused |
| Effects.DraftWithinEstimates | src/modules/finance/settlement.service.ts:53-59 | Every item of a draft but the last pays at most its estimate; the last one does iff what rounding takes from the others is at most the deduction times its estimate (both scaled by the gross amount) |
| MoneyTheorems.BatchRounding | src/modules/finance/settlement.service.ts:126-134 | In every CONFIRMED batch of a reachable database the shares stored for its commissions add up to its net amount, and rounding costs the users less than one VND an item |
| Progress.CreateExact | src/modules/finance/settlement.service.ts:34-82 | A draft is accepted iff it names 1 to 500 different commissions that nothing blocks, its amounts fit together and with them, and its reference is new; each refusal has its error, with the first blocker of the first blocked provider |
| Progress.DueCanBePaid | src/modules/finance/settlement.service.ts:34-174 | After any run, any 1 to 500 distinct due commissions can be drafted with any deduction up to their gross amount and confirmed; every one becomes PAID for its share, and every user's balance grows by exactly that user's shares |
| Progress.DueAloneCanBePaid | src/modules/finance/settlement.service.ts:34-174 | A single due commission worth something can be paid in full, which moves exactly its user's share into that user's wallet |
| Progress.CoveredCanBeWithdrawn | src/modules/finance/withdrawal.service.ts:31-139 | After any run, a new covered request goes through to COMPLETED and takes exactly its amount off its user's balance, and nothing off anybody else's |
| Scenario.EarnAndWithdraw | src/modules/reconciliation/addlivetag-engine.ts:79-246 | From the empty database, a completed and paid purchase through a generated link leads, by publish, settlement and withdrawal, to a PAID commission and a COMPLETED withdrawal of any part of the user's share from the minimum up |
| Services.FinanceStore.CreateSettlement | src/modules/finance/settlement.service.ts:34-82 | The row-by-row checks, the summing loop and the in-place insert do what `Settlement.Create` says, with the first blocker as the error |
| Services.FinanceStore.ConfirmSettlement | src/modules/finance/settlement.service.ts:83-174 | The summing and crediting loops do what `Settlement.Confirm` says |
| Services.FinanceStore.CancelSettlement | src/modules/finance/settlement.service.ts:205-220 | Deleting the items and setting the status does what `Settlement.Cancel` says |
| Services.FinanceStore.Publish | src/modules/reconciliation/addlivetag-engine.ts:68-299 | The loop over the groups does what `Engine.Publish` says |
| Services.FinanceStore.PublishGroup | src/modules/reconciliation/addlivetag-engine.ts:79-299 | One iteration, table by table, does what `Engine.PublishOne` says |
| Services.FinanceStore.UpsertCashback | src/modules/reconciliation/addlivetag-engine.ts:309-335 | An existing share is kept, a new one is the policy's, or 8000 basis points without a stored policy; the user gets the rounded-down fraction and the platform the rest |
| Services.FinanceStore.Review | src/modules/reconciliation/addlivetag-engine.ts:336-440 | The in-place review does what `Engine.ReviewIssue` says |
| Services.FinanceStore.RequestWithdrawal | src/modules/finance/withdrawal.service.ts:31-101 | The in-place request does what `Withdrawals.CreateWithdrawal` says |
| Services.FinanceStore.TransitionWithdrawal | src/modules/finance/withdrawal.service.ts:102-139 | The in-place transition does what `Withdrawals.Transition` says |
| Services.FinanceStore.AdjustWallet | src/modules/finance/withdrawal.service.ts:243-258 | The in-place adjustment does what `Withdrawals.Adjust` says |
| Services.FinanceStore.UpdatePolicy | src/modules/finance/finance-admin.controller.ts:432-445 | The policy upsert does what `Runs.UpdatePolicy` says; allocations keep their share |
| Eligibility.BatchExact | src/modules/finance/settlement-eligibility.ts:52-101 | For any list of checkouts of a database, if their providers and those of the open issues raised for the same external ids are well formed, the batched map holds for each of them exactly the blockers of the row-by-row form, in the same order |
| Eligibility.BatchBlockers | src/modules/finance/settlement-eligibility.ts:52-101 | The loops over sets and maps compute the batched map, for any database and any list |
| Eligibility.FindProviderBlockers | src/modules/finance/settlement-eligibility.ts:7-37 | The row-by-row form pushes exactly the specified blockers |
| Eligibility.ProviderBlockersExact | src/modules/finance/settlement-eligibility.ts:7-37 | The provider's blockers are exactly those that say something true of the checkout and the tables, in their order |
| Eligibility.CommissionBlockersExact | src/modules/finance/settlement-eligibility.ts:39-49 | The commission's own blockers are exactly those that say something true of it, in their order |
| Eligibility.JoinKeyInjective | src/modules/finance/settlement-eligibility.ts:59 | Between well-formed providers the joined key determines provider and checkout |
| Eligibility.BarePrefixOverwrites | src/modules/finance/settlement-eligibility.ts:59-99 | With a malformed provider in the list the map can hold a wrong entry, so the condition is needed |
| ListView.ListPage | src/modules/finance/finance-query.service.ts:342-387 | The list view shows for each commission its own blockers followed by the map's entry, which are its provider's blockers when the providers are well formed |
| ListView.ShownExact | src/modules/finance/finance-query.service.ts:342-387 | The blockers shown for a commission are exactly those that say something true, its own before its provider's |
| ListView.EligibleIffAccepted | src/modules/finance/settlement.service.ts:47-52 | A row is shown as eligible iff the row guards of settlement creation accept it |
| ListView.ReachablePage | src/modules/finance/finance-query.service.ts:342-387 | Every page of every reachable database meets the batched form's conditions |
| LeaseTheorems.LeaseFencing | src/modules/reconciliation/reconciliation.service.ts:287-311 | When a publish transaction commits, its instance acquired the account's lease earlier and held it, unexpired and alone, up to the lease check; if its job was running at the check, nobody acquires the account before the commit either, however long the transaction stays open, and no other running job of the account commits since the acquisition |
| LeaseTheorems.OvertakenExact | src/modules/reconciliation/reconciliation.service.ts:139-146 | An open publish transaction, ready to commit, can be overtaken by an acquisition of its account and still commit iff its job row is not RUNNING, since only then does the acquisition not write that row |
| LeaseTheorems.StoppedByOther | src/modules/reconciliation/reconciliation.service.ts:327-337 | The job of an instance that holds its lease stops running only when another instance, which took up the same job before losing its own lease, ends it late |
| LeaseTheorems.GapIsReachable | src/modules/reconciliation/reconciliation.service.ts:120-129 | A run of eleven steps in which that happens: the lease check passes for a job another instance failed |
| LeaseTheorems.TakenUpQueued | src/modules/reconciliation/reconciliation.service.ts:119-163 | Whoever is at work on a job found it QUEUED; an instance that picks a RUNNING job never runs it |
| LeaseTheorems.JobLifecycle | src/modules/reconciliation/reconciliation.service.ts:119-341 | A job row starts running when the instance that took it up starts it, is written with every page, completes by a publish transaction that saw it as it is, and fails when an instance at work on it ends it or, while running, when the account's lease is acquired; every write is a new version, and no other step writes it |
| Fencing.FencedPublish | src/modules/reconciliation/reconciliation.service.ts:287-302 | With the protocol and all services interleaved: a publish that goes through was acquired for and checked under the account's lease; if its job was running at the check, nobody acquires the account and no publish of a running job of it goes through from the acquisition to the commit; without a publish of the account, its rows are changed by no publish and its stored snapshots stay those of the acquisition |
| Leases.LeaseTable.Acquire | src/modules/reconciliation/reconciliation.service.ts:131-157 | The caller is refused iff somebody's lease is unexpired; otherwise it is the one holder for five minutes, the account's RUNNING jobs have failed, and no other account's lease or job changed |
| Leases.LeaseTable.Renew | src/modules/reconciliation/reconciliation.service.ts:190-196 | A lease is renewed iff the caller holds it, and is then held by the caller alone for five minutes |
| Leases.LeaseTable.Release | src/modules/reconciliation/reconciliation.service.ts:180-188 | The caller's own lease is gone; everybody else's stays |
| Leases.Cluster.TakeAll | src/modules/reconciliation/reconciliation.service.ts:119-196 | Any interleaving of the instances' steps through the lease table is a trace of the protocol |
| Ingest.RunIngest | src/modules/reconciliation/reconciliation.service.ts:210-286 | The paging loop, with its map, seen-set and running totals, terminates and returns what its page-by-page specification says |
| Ingest.IngestExact | src/modules/reconciliation/reconciliation.service.ts:218-286 | The loop succeeds iff some page completes the report and every page before it is sound and calls for another, and hands over the rows of all of them; otherwise it fails at the first page that does neither, with that page's error |
| Ingest.GroupedPartitions | src/modules/reconciliation/reconciliation.service.ts:263-268 | The groups partition the received rows by checkout, each group in received order |
| Ingest.IngestGuarantee | src/modules/reconciliation/reconciliation.service.ts:230-284 | What reaches publish is exactly the received rows, in as many groups as every page reported, no page taken twice, all bought on the days of the range in Vietnam time, whose inspected amounts differ from the reported total by at most 99 VND |
| Pipeline.SyncStoresEverything | src/modules/reconciliation/reconciliation.service.ts:287-302 | After a completed sync every checkout reported on any page is stored with exactly its rows and their amount |
| Inspection.InspectCheckout | src/modules/reconciliation/addlivetag-engine.ts:21-61 | The loop with its seen-set computes the specified inspection |
| Inspection.WalkIssuesExact | src/modules/reconciliation/addlivetag-engine.ts:46-59 | The seen-set walk finds exactly the rows whose product URL carries no item id of digits, and the pairs of rows with the same order and the same item id |
| Inspection.InspectPermutation | src/modules/reconciliation/addlivetag-engine.ts:21-61 | State, issues and amount do not depend on the order of the rows |
| Digests.CheckoutDigestIffSameRows | src/modules/reconciliation/addlivetag-engine.ts:11-20 | With the JSON text of a row, digests are equal iff the rows are equal as multisets |
| Digests.RowTextInjective | src/modules/reconciliation/addlivetag-engine.ts:17 | The JSON text of a row, quoting and escapes included, determines the row |
| Payment.FindPaymentBlockers | src/modules/reconciliation/commission-status.ts:19-46 | The loop with its set and counter computes the specified blockers in order |
| Payment.LabelMeans | src/modules/reconciliation/commission-status.ts:5-17 | A label is rejected iff it normalises to the rejected one, paid iff it is configured and not that, pending iff it is one of the two pending labels and not configured, and unknown otherwise |
| Payment.BlockersExact | src/modules/reconciliation/commission-status.ts:19-46 | The blockers are exactly those that say something true of the rows |
| Payment.PaymentGate | src/modules/reconciliation/commission-status.ts:19-46 | No blockers iff the rows are all cancelled at '0', or completed or paid under a configured label that is not the rejected one, at least one of the latter |
| Payment.PaymentGatePermutation | src/modules/reconciliation/commission-status.ts:19-46 | The gate does not depend on the order of the rows |
| Payment.KnownLabels | src/modules/reconciliation/commission-status.ts:5-17 | The rejected label is never paid; the pending labels stay unpaid iff none of them is configured as paid |
| Payment.PendingCanBeConfigured | src/modules/reconciliation/commission-status.ts:10-15 | Configuring a pending label, one that normalisation leaves as it is, makes it count as paid |
| Money.Allocate | src/modules/finance/domain/money.ts:10-19 | The loop that hands out what remains computes the specified shares or refuses |
| Money.AllocationExact | src/modules/finance/domain/money.ts:10-19 | Shares are non-negative and add up to the total; all but the last are floors; the last is at least its exact share and exceeds it by less than one VND for each other share |
| Money.LastShareExact | src/modules/finance/domain/money.ts:15-18 | The last share is its exact share plus exactly what rounding takes from all the others |
| Money.SharesWithinWeights | src/modules/finance/domain/money.ts:10-19 | No share exceeds its weight iff the total is at most the sum of the weights and the remainders of all weights but the last add up to at most (sum - total) times the last weight |
| Money.LastShareCanExceedWeight | src/modules/finance/domain/money.ts:15-16 | An input for which the last share does exceed its weight although the net amount is below the gross |
| Money.SplitCashback | src/modules/finance/domain/money.ts:21-25 | The user's share is the rounded-down fraction and the platform gets the rest; refused outside 0 to 10000 basis points or for a negative amount |
| Money.SplitsAlmostExact | src/modules/finance/domain/money.ts:21-25 | Over any batch of items rounding costs the users less than one VND an item |
| Attribution.PrintParse | src/modules/affiliate/services/generate-affiiliate.service.ts:113-119 | Parsing the utm printed for a link, tracking underscore kept or dropped, returns its five parts, iff the link has a channel |
| Attribution.GeneratedLinkRoundTrip | src/modules/reconciliation/addlivetag-engine.ts:94-114 | Rows reporting a generated link's utm are attributed to that saved link and its user |
| Attribution.AttributionExact | src/modules/reconciliation/addlivetag-engine.ts:94-114 | Rows are attributed to a link iff all five saved parts agree with their one utm, underscores of the tracking part aside, and to none iff there is no such link |
| Attribution.ParseExact | src/modules/finance/domain/money.ts:27-45 | A utm parses iff it is five parts joined by dashes: 32 hexadecimal digits three times, one of the three channels, and `bb`, an optional underscore and 20 to 32 word characters; it parses into these parts |
| Attribution.ParsedText | src/modules/finance/domain/money.ts:27-45 | A utm that parses is its five parts joined again |
| Contract.SplitDateRange | src/modules/reconciliation/addlivetag.contract.ts:71-92 | The chunks cover the range without gap or overlap, each at most the limit and all but the last exactly it; refused iff the range is empty |
| Contract.ProviderScopeInjective | src/modules/reconciliation/addlivetag.contract.ts:58 | The provider key determines the account |

## Left out

- HTTP controllers, guards, request schemas, rate limits, logging and health checks: plumbing without deep state. What the schemas guarantee (amounts of 1 to 18 digits, 100 to 10000 basis points, 1 to 500 distinct commissions, a non-zero adjustment, an account id of digits) is in the types or refused with `InvalidInput`.
- Fetching and decoding provider pages, retries and time-outs: a page is a value or an error.
- `INVALID_PROVIDER_ITEM` in the payment gate: a stored payload is always a list of decoded rows.
- Encryption, password hashing, tokens, notifications, e-mails and audit entries: foreign calls, or rows nothing reads back.
- The `provider_orders` rows written by publish, and item fields shown but never computed with: nothing else depends on them.
- The tables of users, banks and products and the foreign keys to them: users are named by id, and the approved-bank query is an input.
- Overflow of 64-bit columns: amounts have at most 18 digits, and sums are taken as unbounded integers.
- Rows from before this pipeline (other providers, issues without a digest, checkouts without a commission): a run starts from empty tables.
- Retries of a transaction after a serialisation conflict: an aborted attempt leaves no trace, so only the last attempt is a step.
- Transactions other than publish are one step each. The publish transaction is open from its lease check to its commit, and is aborted when its job row was written in between; a database may abort more, because it can find conflicts on coarser grounds than rows. Its changes take effect at its commit.
- The summary and page counters of a reconciliation batch row: no money depends on them. Its status and the fact of being written are in `Leases`.
- The choice of the oldest batch, the reuse of a queued one, cron schedules and the instance's `busy` flag as a field: the flag appears as the instance's phase in `Leases`.
- The text of the digest beyond the rows: its version prefix and the configured labels are the same throughout a run.
- The sort order of row texts compares code units; the model compares characters. Any total order gives the same results.
- URL parsing and Unicode normalisation: functions in `Payment.Env`, about which nothing is assumed.
- Row ids: a UUID key is a position in its table, so rows are listed in the order of creation and not in the order of random ids; a settlement request lists its commissions in row order.
- Money.AllocationExact: does not say that no share exceeds its weight, which is false in general; `Money.SharesWithinWeights` says exactly when it holds.
- Ingest.IngestExact: errors of a request and a lost lease both appear as a failed page.
- Services.FinanceStore.Examine: its rows are inspected before the stored snapshot is compared in the source and after it in the model; inspection changes nothing.
