# GCON coordinator: leasing, idempotent submission and billing

A Dafny model of three parts of the GCON coordinator, with proofs of what they promise together rather than call by call:

- **Hosted workers.** Leases move active, ending, sanitizing, ended; a registry caches each worker's lease; the scheduler
  claims workers from that cache under a different lock. The lease manager, the two repositories, the registry and the
  scheduler are classes proved against specification functions. A state machine (`LeaseProtocol`) splits every manager
  operation into its single database and registry writes, and a registration into its look-ups and its write, and
  interleaves them freely with claims, heartbeats, enrolments and coordinator restarts. `LeaseRefinement` shows that every
  manager operation is a run of that machine. `LeaseTenancy` is the part of the protocol invariant that no restart breaks and
  `LeaseCleaning` the rest of it, kept by every step but a restart in one gap; `LeaseSafety` proves the promises over all
  runs from them. `LeaseMoves` narrows the machine to the decisions the code itself makes, in the order of the clock, and with
  it `LeaseRestart` and `LeaseStranding` find the windows in which a restart goes wrong and what comes of it.
- **Idempotent submission.** Any number of threads step through the two guard sections, the counted lock objects and the
  look-up, create and record sequence. Every interleaving is shown equal to the same requests served one after another, and
  the promises are proved of that simple form.
- **Billing.** The text of instants and its order, calendar months, metering, receipt filtering, rounding, the plan's
  included usage and fee, invoices and their life, the monthly run with its catch-up and the organizations it goes through,
  several calls on one invoice at once, and the bounded history of plan terms.

`dafny verify dfyconfig.toml` checks the whole project.

## Conventions

Node and lease ids are integers (a lease's id is its position: rows are never deleted), instants in the lease part are
integers of microseconds, and texts compared as times there are justified by `IsoTime.TextOrderIsTimeOrder`. Clocks, minted
ids, what a worker answers, whether a request reaches it, provider replies and pricing are parameters. An answer that counts
is to a request that was sent, except for a stranded lease (`LeaseRefinement.AnswerRuns`); of the worker of a stranded lease
it is assumed in the runs that it does not report on a clean-up it was never asked for. Seconds, prices and
unrounded cents are reals. A validator, a score and the capability and staking filters are arbitrary functions. Raised
errors are results or flags. Text is compared character by character. A newly minted job or workflow id is one never used
before, and a period boundary spelled otherwise than isoformat does is a different text from every boundary isoformat
writes.

## What the proofs brought out

- **A restart can hand a worker on uncleaned.** A lease that ends uncleaned is marked ended and only then is its worker held
  (`src/gcon/cluster/worker_leases.py:293-309`). A coordinator that stops between the two writes comes back with the worker
  unleased and unheld. If the worker was lost before it was asked to clean itself it is on offer as soon as it is back;
  otherwise the clean-up outstanding keeps it off until a staff clean-up cannot be delivered, which drops it
  (`LeaseRestart.OnOfferAtOnceIff`). A restart can lead to a lease of a worker that has not cleaned itself since an earlier one
  if and only if it falls in that gap (`LeaseRestart.UncleanHandoverIff`, and in terms of the history alone
  `LeaseRestart.RestartGoesWrongIff`); `LeaseRestart.UncleanHandover` is such a run, made of the code's own decisions. The
  module's text says a restart loses nothing (`src/gcon/cluster/worker_leases.py:25-27`); the model follows the code. Nothing
  else depends on it: claims only for the lease holder, one open lease per worker, the cache and the cap hold in every run,
  wherever its restarts come (`LeaseSafety.EveryRunIsSafe`, `LeaseSafety.CacheAgreesInEveryRun`,
  `LeaseSafety.CapHoldsInEveryRun`).
- **A restart can strand a lease.** Between marking a lease sanitizing and noting the request, a restart leaves it
  sanitizing with nothing asked: no timeout applies, releasing it does nothing and staff clean-up is refused. It happens if and
  only if the restart falls there (`LeaseStranding.RestartStrandsIff`), and `LeaseStranding.StrandedFromStart` is a run of the
  code to such a lease. However the code runs on, the lease stays stranded and its worker off the list until a reaper pass
  gives the worker up as lost (`LeaseStranding.StrandedUntilLost`), which does end it (`LeaseStranding.LosingEndsIt`).
- **Receipts alone are never invoiced.** A month's run goes through the organizations with a job completed in the month or a
  fee for it (`src/gcon/billing/automation.py:178-184`), but a receipt is billed by its upload
  (`src/gcon/billing/invoicing.py:208-215`), and a replicated job's receipts are uploaded before it is marked completed
  (`src/gcon/cluster/coordinator.py:2985-2992`, `src/gcon/cluster/coordinator.py:3056-3057`). A receipt uploaded in one month
  of a job completed in the next is something to bill that no run bills and no other month's invoice has
  (`BillingRuns.ReceiptsAloneAreNeverBilled`, `BillingRuns.LateJobIsNeverBilled`). An organization with something to bill is
  invoiced if and only if it has a completed job in the month or owes a fee (`BillingRuns.RunInvoicesIff`). Nor does it help
  that the organization is invoiced for other jobs: over any number of runs, while jobs complete and receipts come in between
  them, a receipt is billed if and only if it and its completed job were stored when its month's invoice was made
  (`BillingOverTime.ReceiptBilledIff`), and one that misses that run is never billed (`BillingOverTime.MissedOnceMissedForGood`).
- **A charge that raises is made again.** The invoice stays a draft, and finalizing it again asks the provider again
  (`InvoiceLife.ChargedTwice`); a finalizing of a draft is its first charge if and only if none before it raised
  (`InvoiceLife.FirstChargeIff`). Calls that overlap can both charge: those under way can have an invoice charged twice if and
  only if two of them have read it as a draft to charge or been answered (`FinalizeRaces.ChargedTwiceIff`).
- **A paid invoice need not stay paid.** Marking is unconditional (`src/gcon/persistence/repositories/billing.py:171-194`), so
  of two overlapping calls one can be charged and mark the invoice paid and the other be declined and mark it failed, after
  which a payment by hand is taken for it too (`FinalizeRaces.PaidTwice`). A paid invoice stays paid if and only if every call
  then under way would itself mark it paid (`FinalizeRaces.StaysPaidIff`).
- **A workflow key whose workflow is gone is never settled again.** The workflow twin creates afresh, but the record insert
  meets the old row and keeps it, so every further retry creates one more workflow
  (`Idempotency.LostKeyKeepsCreating`); a retry is safe if and only if what the row names still exists
  (`Idempotency.RetryIsSafeIff`).
- **`is_calendar_month` has no answer** for a start whose day the next month lacks, or in December 9999
  (`Calendar.IsCalendarMonthMeans`).
- **The run's `generated` count** is right if and only if the run found no invoice only under another spelling of its period
  (`BillingRuns.GeneratedCountsWhatIsMadeIff`, `BillingRuns.SpellingIsCounted`); nothing is billed twice.
- **A negative included allowance** counts as none: the total is max(0, usage - max(0, included)) + max(0, fee)
  (`LineItems.NetBill`).
- **The claim grace** ends early when the worker is marked offline and then heartbeats idle
  (`Registry.OfflineEndsTheGrace`).
- **Plan history** is right everywhere if and only if no row has been dropped (`TermsHistory.RightEverywhereIff`).

## Model

| member | source | states |
|---|---|---|
| Registry.OpKeepsLawful | src/gcon/cluster/registry.py:136-208 | every registry operation keeps the organization rules: a hosted worker is never in the shared pool and has the organization of its lease, and a pool worker has none |
| Registry.BestIsUnique | src/gcon/cluster/registry.py:338-389 | there is at most one lowest-score, first-on-ties eligible worker |
| Registry.ClaimHoldsThroughGrace | src/gcon/cluster/registry.py:41-53 | within the grace, no sequence of worker heartbeats, resource reports and operations on others makes a claimed worker dispatchable again |
| Registry.OfflineEndsTheGrace | src/gcon/cluster/registry.py:408-422 | offline and then an idle heartbeat makes it idle inside the grace |
| Registry.NodeRegistry.Add | src/gcon/cluster/registry.py:114-219 | registering or re-registering an offline worker: refused exactly when a live one has the id, else a fresh record with the looked-up lease |
| Registry.NodeRegistry.Drop | src/gcon/cluster/registry.py:246-254 | removal of a record and nothing else |
| Registry.NodeRegistry.Update | src/gcon/cluster/registry.py:391-422 | heartbeats, reports, pool and staff flags change one record as specified and no other; for an unknown worker nothing changes |
| Registry.NodeRegistry.SetLeaseOf | src/gcon/cluster/registry.py:233-244 | the lease write: lease, organization and nothing else, and only on a hosted worker |
| Registry.NodeRegistry.CheckNodeHealth | src/gcon/cluster/registry.py:424-445 | exactly the workers past the timeout go offline |
| Registry.NodeRegistry.ClaimBestIdleNode | src/gcon/cluster/registry.py:338-389 | none exactly when nothing is eligible; otherwise the best one, marked busy in the same step |
| Scheduler.TakenByTheRightTenant | src/gcon/cluster/scheduler.py:100-113 | whatever a job takes is its organization's own worker or a sandboxed pool worker of nobody |
| Scheduler.Selector.SelectNode | src/gcon/cluster/scheduler.py:37-113 | own organization first, then the pool; none exactly when no worker may be taken; the result is the best of its tier |
| LeaseStore.LookupIs | src/gcon/cluster/worker_leases.py:116-119 | with at most one open lease per worker, the look-up returns exactly that one |
| LeaseStore.OneOpenAfterInsert | src/gcon/persistence/repositories/worker_leases.py:19-32 | inserting under the unique index keeps at most one open lease per worker |
| LeaseStore.CountOpenAfterInsert | src/gcon/persistence/repositories/worker_leases.py:70-73 | the insert raises the customer's open count by its size and no other's |
| LeaseStore.WorkerLeaseRepository.CreateMany | src/gcon/persistence/repositories/worker_leases.py:19-32 | all rows or none; refused exactly when a worker is repeated or already leased |
| LeaseStore.WorkerLeaseRepository.MarkEnding | src/gcon/persistence/repositories/worker_leases.py:79-85 | only from active |
| LeaseStore.WorkerLeaseRepository.MarkSanitizing | src/gcon/persistence/repositories/worker_leases.py:87-91 | only from ending |
| LeaseStore.WorkerLeaseRepository.MarkEnded | src/gcon/persistence/repositories/worker_leases.py:93-102 | ends an open lease and records why, never one that is over |
| LeaseStore.FleetNodeRepository.Enrol | src/gcon/persistence/repositories/fleet_nodes.py:26-34 | enrolling again keeps the existing record, hold included |
| LeaseStore.FleetNodeRepository.Hold | src/gcon/persistence/repositories/fleet_nodes.py:36-41 | holds the worker and drops its clean-up |
| LeaseStore.FleetNodeRepository.ReleaseHold | src/gcon/persistence/repositories/fleet_nodes.py:43-47 | lifts the hold and drops the clean-up |
| LeaseStore.FleetNodeRepository.BeginSanitize | src/gcon/persistence/repositories/fleet_nodes.py:49-53 | a new ref replaces the old; the hold stays |
| LeaseStore.FleetNodeRepository.ClearSanitize | src/gcon/persistence/repositories/fleet_nodes.py:55-58 | drops the ref; the hold stays |
| LeaseWrites.RunEnd | src/gcon/cluster/worker_leases.py:181-185 | the release writes, one by one, amount to the atomic release |
| LeaseWrites.RunSanitize | src/gcon/cluster/worker_leases.py:277-281 | likewise ending to sanitizing |
| LeaseWrites.RunFinishClean | src/gcon/cluster/worker_leases.py:288-292 | likewise a clean answer |
| LeaseWrites.RunGiveUp | src/gcon/cluster/worker_leases.py:293-309 | likewise a failed clean-up and a lost worker |
| LeaseWrites.TickOneOnlyRow | src/gcon/cluster/worker_leases.py:241-267 | one lease's share of a reaper pass changes no other lease's row |
| LeaseWrites.OnOfferExactly | src/gcon/cluster/worker_leases.py:121-139 | the list is sorted, without repeats, and holds exactly the available workers |
| WorkerLeases.RequestGrantsExactly | src/gcon/cluster/worker_leases.py:142-171 | an accepted request opens exactly `count` leases on distinct available workers, within the cap |
| WorkerLeases.WorkerLeaseManager.LookupLease | src/gcon/cluster/worker_leases.py:116-119 | the open lease's customer and state, or none |
| WorkerLeases.WorkerLeaseManager.ListAvailable | src/gcon/cluster/worker_leases.py:121-139 | the loop over the registry yields the list above |
| WorkerLeases.WorkerLeaseManager.Request | src/gcon/cluster/worker_leases.py:142-171 | each refusal in the source's order; all or nothing, also when a rival's leases land between look and write |
| WorkerLeases.WorkerLeaseManager.Release | src/gcon/cluster/worker_leases.py:173-186 | a customer ends only its own lease; ending or over, nothing changes |
| WorkerLeases.WorkerLeaseManager.AdvanceLease | src/gcon/cluster/worker_leases.py:270-283 | ending to sanitizing when the worker is quiet; an undeliverable request holds it |
| WorkerLeases.WorkerLeaseManager.FinishSanitize | src/gcon/cluster/worker_leases.py:285-298 | clean: free again; not clean: held |
| WorkerLeases.WorkerLeaseManager.EndLost | src/gcon/cluster/worker_leases.py:300-309 | a lost worker's lease is over and the worker held |
| WorkerLeases.WorkerLeaseManager.SanitizeHeldNode | src/gcon/cluster/worker_leases.py:188-204 | staff clean-up: each refusal, a new ref that replaces the old, dropped when it cannot be delivered |
| WorkerLeases.WorkerLeaseManager.OnSanitizeResult | src/gcon/cluster/worker_leases.py:207-221 | an answer counts only for the lease or the staff clean-up whose ref it carries; a late matching one still counts |
| WorkerLeases.WorkerLeaseManager.Reap | src/gcon/cluster/worker_leases.py:224-239 | a reaper pass is its leases in turn and then the overdue staff clean-ups, which end held |
| WorkerLeases.WorkerLeaseManager.TickLease | src/gcon/cluster/worker_leases.py:241-267 | unseen too long: given up; else by state: touched, released as idle, advanced or timed out |
| WorkerLeases.HoldOverdue | src/gcon/cluster/worker_leases.py:234-239 | exactly the overdue, unleased workers are held |
| LeaseTenancy.StepServes | src/gcon/cluster/worker_leases.py:25-27 | every step of the machine (one write, a look-up, a registration, a claim, any other registry change, a restart anywhere) keeps one open lease per worker, the cache, the tenant of each active lease and the claims so far in order |
| LeaseTenancy.EnterServes | src/gcon/cluster/registry.py:136-208 | a reconnecting worker comes back with the lease it has |
| LeaseTenancy.TakeServes | src/gcon/cluster/scheduler.py:106-113 | a claim between the two writes is still for the customer being served |
| LeaseTenancy.RunServes | src/gcon/cluster/worker_leases.py:12-27 | so all that holds in every reachable state |
| LeaseCleaning.StepInv | src/gcon/cluster/worker_leases.py:25-27 | every step but a restart in the gap also keeps what each worker's leases, hold and clean-up say of its cleaning |
| LeaseCleaning.RunInv | src/gcon/cluster/worker_leases.py:12-27 | the whole invariant holds in every state reached without such a restart |
| LeaseSafety.EveryRunIsSafe | docs/WORKERS_AND_ENROLLMENT.md:237-244 | in every run every claim on a hosted worker is for the holder of its current lease, before it stops; and in every run whose restarts miss the gap, between two leases of a worker it stopped, was asked to clean itself and answered that very request |
| LeaseSafety.UnbrokenMeansClean | docs/WORKERS_AND_ENROLLMENT.md:237-244 | a worker history whose automaton never breaks is clean between customers |
| LeaseSafety.CleanPhaseIff | src/gcon/cluster/worker_leases.py:285-298 | while the invariant holds, the automaton has a worker fresh or clean if and only if it has cleaned itself since each of its leases |
| LeaseSafety.NextLeaseIsUnclean | docs/WORKERS_AND_ENROLLMENT.md:237-244 | leasing out a worker that has answered nothing since its last lease breaks the promise of a clean handover |
| LeaseSafety.ServedMeansHolder | docs/WORKERS_AND_ENROLLMENT.md:237-244 | claims made for the tenant of the moment are inside the holder's lease |
| LeaseSafety.CacheAgreesInEveryRun | src/gcon/cluster/registry.py:136-208 | in every run, restarts anywhere: at most one open lease per worker, and outside the two writes of one operation every registered hosted worker's cached lease and organization are the table's, and it is never in the pool |
| LeaseSafety.OnOfferMeansClean | src/gcon/cluster/worker_leases.py:121-139 | in every run whose restarts miss the gap an available worker has answered clean since each of its leases; no timeout or lost worker is on offer |
| LeaseSafety.LeasesOnlyMoveForward | src/gcon/cluster/worker_leases.py:12-23 | in any run leases are never lost, never change hands and never move back |
| LeaseSafety.CapHoldsInEveryRun | src/gcon/cluster/worker_leases.py:147-154 | in every run, restarts anywhere: the only step that raises a customer's open count is its own request's insert, and it stays within the cap that request read |
| LeaseSafety.CountWithinCap | src/gcon/cluster/worker_leases.py:147-162 | the same from any state whose program fits its tables, with the exact increase |
| LeaseMoves.MovesAreSteps | src/gcon/cluster/worker_leases.py:188-309 | a run in which every decision meets the manager's own tests and time never goes back is a run of the machine |
| LeaseRestart.UncleanHandoverIff | src/gcon/cluster/worker_leases.py:293-309 | a restart can lead to an unclean handover, by a run of the code, if and only if it falls between ending a lease uncleaned and holding its worker; elsewhere no run of the machine gets there |
| LeaseRestart.RestartGoesWrongIff | src/gcon/cluster/worker_leases.py:293-309 | for every run from the start, in terms of its history: if and only if a hold is the next write and the worker has not cleaned itself since some lease |
| LeaseRestart.RestartInGapLeaks | src/gcon/cluster/worker_leases.py:293-309 | from any state in that gap the code's own moves make a lease of the worker with no clean-up between it and an earlier one |
| LeaseRestart.OnOfferAtOnceIff | src/gcon/cluster/worker_leases.py:121-139 | after such a restart the returning worker is available at once if and only if no clean-up was outstanding |
| LeaseRestart.UncleanHandover | src/gcon/cluster/worker_leases.py:300-309 | one such run of the code from the very start: dropped out, given up after the grace, restart, leased on |
| LeaseStranding.RestartStrandsIff | src/gcon/cluster/worker_leases.py:277-280 | with no lease stranded, a restart strands one if and only if it falls between marking it sanitizing and noting the request |
| LeaseStranding.StrandedFromStart | src/gcon/cluster/worker_leases.py:270-283 | a run of the code from the very start to a stranded lease: leased, released, clean-up begun, restart |
| LeaseStranding.StrandedUntilLost | src/gcon/cluster/worker_leases.py:241-267 | over every further run of the code, restarts included, it stays stranded and its worker off the list unless a pass gives the worker up as lost |
| LeaseStranding.LosingEndsIt | src/gcon/cluster/worker_leases.py:300-309 | and a worker out of reach is noticed and, after the grace, given up, which ends the lease |
| LeaseStranding.StrandedMeans | src/gcon/cluster/worker_leases.py:277-280 | a sanitizing lease has its own request outstanding unless it is stranded or about to ask; a stranded one has none |
| LeaseStranding.StrandedWaits | src/gcon/cluster/worker_leases.py:261-267 | the reaper and a release leave a stranded lease as it is, and its worker is not on offer |
| LeaseStranding.NoneStrandedInEveryRun | src/gcon/cluster/worker_leases.py:270-283 | in every run whose restarts miss both windows no lease is stranded |
| LeaseRefinement.ProgramRuns | src/gcon/cluster/worker_leases.py:25-27 | a decided operation runs to its end one write at a time, as it does alone |
| LeaseRefinement.RequestRuns | src/gcon/cluster/worker_leases.py:142-171 | the request the class performs is a run of the machine |
| LeaseRefinement.AdvanceRuns | src/gcon/cluster/worker_leases.py:270-283 | so is advancing a lease |
| LeaseRefinement.EndActiveRuns | src/gcon/cluster/worker_leases.py:181-185 | so is a release |
| LeaseRefinement.AnswerRuns | src/gcon/cluster/worker_leases.py:207-221 | so is any answer of a worker, but to a stranded lease: one that counts as clean is to a ref it was sent |
| LeaseRefinement.StaffCleanRuns | src/gcon/cluster/worker_leases.py:188-204 | so is a staff clean-up |
| LeaseRefinement.TickRuns | src/gcon/cluster/worker_leases.py:224-267 | so is a whole reaper pass |
| LeaseRefinement.ManagerKeepsInv | src/gcon/cluster/worker_leases.py:85-113 | so every manager operation started in a good state ends in one |
| Idempotency.LockNameSeparates | src/gcon/api/api_v1.py:680-684 | two requests share a lock name exactly when organization and lock key agree, whatever the organization's text; always for one row |
| Idempotency.SettledKey | src/gcon/api/api_v1.py:1581-1599 | once a key has its row and what it names exists, every request gets the recorded id or a mismatch by its fingerprint, and creates nothing |
| Idempotency.RowsStay | src/gcon/persistence/repositories/idempotency_keys.py:38-69 | a row once written is never changed |
| Idempotency.OneCreator | src/gcon/api/api_v1.py:1575-1603 | if one request created, every later one of the key is answered from its row and every earlier one had failed or lost its row |
| Idempotency.AllAccounted | src/gcon/api/api_v1.py:1600-1602 | everything created is recorded under its key, could not be recorded, or was created because the recorded workflow was lost |
| Idempotency.CreatedAtMostOnce | src/gcon/api/api_v1.py:1575-1603 | over any sequence, recorded creations of a key plus a row it had before is one if it has a row, else none |
| Idempotency.LostKeyKeepsCreating | src/gcon/api/api_v1.py:1864-1881 | with the recorded workflow lost, n accepted retries create n workflows and the row stays |
| Idempotency.RetryIsSafeIff | src/gcon/api/api_v1.py:1864-1881 | retries of a recorded key never create if and only if what the row names still exists |
| KeyedSubmissions.SubmissionDesk.Enter | src/gcon/api/api_v1.py:683-685 | the first guard section: the existing entry or a new one, counted |
| KeyedSubmissions.SubmissionDesk.Leave | src/gcon/api/api_v1.py:690-693 | the second: counted down, and gone at zero |
| KeyedSubmissions.SubmissionDesk.LookUpOrCreate | src/gcon/api/api_v1.py:1582-1603 | look up, create, record: one served request |
| KeyedSubmissions.SubmissionDesk.Submit | src/gcon/api/api_v1.py:1575-1603 | the whole keyed path serves the request and leaves the locks as they were |
| IdempotencyLocks.StepLockInv | src/gcon/api/api_v1.py:680-693 | every step of every thread keeps the lock invariant |
| IdempotencyLocks.OneInBody | src/gcon/api/api_v1.py:680-693 | at most one thread per lock name is in the body |
| IdempotencyLocks.LocksAreExact | src/gcon/api/api_v1.py:680-693 | with the guard free, a name has an entry exactly while threads are between the guard sections; the count is their number; they share that entry; names share none |
| IdempotencyLocks.NothingLeftBehind | src/gcon/api/api_v1.py:690-693 | when all threads are through, the dictionary is empty and the guard free |
| IdempotencyLocks.SomeoneCanMove | src/gcon/api/api_v1.py:680-693 | no deadlock |
| IdempotencyRuns.EveryRunIsSequential | src/gcon/api/api_v1.py:622-627 | every interleaving of any threads has the effect and the answers of the same requests served one after another, each exactly once |
| IdempotencyRuns.OneCreatorInEveryRun | src/gcon/api/api_v1.py:1575-1603 | two overlapping requests of a key never both create and record; the other replays the same id, mismatches by fingerprint, or had failed |
| IdempotencyRuns.AtMostOneEachInEveryRun | src/gcon/api/api_v1.py:1575-1603 | however requests overlap a key has at most one job, even while its row is being written, save those whose row could not be written |
| IdempotencyRuns.LaterRequestsReplay | src/gcon/api/api_v1.py:1582-1599 | a request that arrives once the key has its row is answered from it |
| IsoTime.FieldsOrderTime | src/gcon/billing/invoicing.py:79-81 | comparing calendar fields is comparing positions on the time line |
| IsoTime.TextOrderIsTimeOrder | src/gcon/billing/invoicing.py:79-81 | isoformat texts of UTC instants are ordered as the instants, although zero microseconds are omitted |
| Calendar.ShiftsCompose | src/gcon/billing/automation.py:57-59 | month shifts add up and are undone by their negation; when one fails |
| Calendar.IsCalendarMonthMeans | src/gcon/billing/invoicing.py:379-383 | true exactly when the period has exactly one calendar month's instants; no answer exactly in the two cases above |
| Calendar.PreviousMonthsTile | src/gcon/billing/automation.py:62-65 | n consecutive whole calendar months, each where the last ended, up to the start of the current month, none later than now |
| Calendar.PreviousMonthsExist | src/gcon/billing/automation.py:62-65 | exactly when the window lies in the calendar |
| Calendar.MonthsAreIntervals | src/gcon/billing/invoicing.py:551-559 | from one month's start to the next's are exactly the month's instants |
| Calendar.MonthLength | src/gcon/billing/invoicing.py:402-403 | a month is as long as the calendar says, so within the longest period |
| Metering.CleanRuntime | src/gcon/billing/invoicing.py:107-120 | missing and unusable runtimes bill nothing, the rest at most the cap; what was set aside is counted |
| Metering.MeasureJobs | src/gcon/billing/invoicing.py:129-170 | the loop computes the sum of the jobs' shares |
| Metering.MeasureAdds | src/gcon/billing/invoicing.py:129-170 | usage of a concatenation is the sum of the parts |
| Metering.MeasureIgnoresOrder | src/gcon/billing/invoicing.py:129-170 | usage does not depend on the order of the jobs |
| Metering.MeteringIsBounded | src/gcon/billing/invoicing.py:107-170 | own seconds within all seconds within the caps and within what was reported; every job in exactly one class |
| Metering.OwnSecondsAreTheOwnJobs | src/gcon/billing/invoicing.py:138-153 | own-worker seconds are what the jobs that ran on the organization's own workers come to by themselves |
| Metering.PeriodsShareNoJob | src/gcon/billing/invoicing.py:74-96 | a job is in at most one of two periods that do not overlap, whatever its completion time reads |
| Metering.InPeriodIsInInterval | src/gcon/billing/invoicing.py:74-96 | for isoformat times the text selection is the interval of instants |
| Metering.PeriodsAdd | src/gcon/billing/invoicing.py:74-96 | usage over a period is that of its two parts together |
| Receipts.ValidateReceipts | src/gcon/billing/invoicing.py:242-268 | the loop keeps and counts as specified |
| Receipts.EveryReceiptIsCounted | src/gcon/billing/invoicing.py:252-268 | kept plus the four rejections is all of them |
| Receipts.KeptAreFirstGood | src/gcon/billing/invoicing.py:248-250 | kept are exactly the first good receipts of their ids, in input order; a bad copy blocks nothing |
| Receipts.ValidIdsDiffer | src/gcon/billing/invoicing.py:254-268 | kept receipts have distinct ids |
| Receipts.FilteringTwice | src/gcon/billing/invoicing.py:242-268 | filtering the kept ones again rejects nothing |
| LineItems.CentsIsNearest | src/gcon/billing/invoicing.py:300-302 | rounding is to the nearest cent, halves away from zero |
| LineItems.BuildLineItems | src/gcon/billing/invoicing.py:313-340 | the appended lines are the specified ones, in order |
| LineItems.ComputeChargedByPlace | src/gcon/billing/invoicing.py:313-324 | each second is charged once, at the rate of where it ran, up to half a hundredth of a second per line |
| LineItems.EverythingCharged | src/gcon/billing/invoicing.py:325-340 | the lines together charge every count at its own price, besides the compute, and nothing else |
| LineItems.EmptyMeansUnused | src/gcon/billing/invoicing.py:313-340 | no lines exactly when nothing billable was used |
| LineItems.UsageNeverCredits | src/gcon/billing/invoicing.py:305-340 | with prices that are not negative no usage line is |
| LineItems.RoundedOnce | src/gcon/billing/invoicing.py:343-356 | the adjusted lines sum to the exact total rounded once, the usage lines unchanged |
| LineItems.AdjustmentIsSmall | src/gcon/billing/invoicing.py:343-356 | twice the adjustment is at most the number of lines |
| LineItems.BoundIsTight | src/gcon/billing/invoicing.py:343-356 | and for every even number some lines reach it |
| LineItems.BillTotal | src/gcon/billing/invoicing.py:359-376 | for lines of any sign: usage less the credit, which never exceeds it, plus the fee in full |
| LineItems.NetBill | src/gcon/billing/invoicing.py:428-430 | the bill is the rounded usage less the included usage, not below zero, plus the fee |
| LineItems.NothingToBillIff | src/gcon/billing/invoicing.py:428-459 | an invoice would be empty exactly without usage and fee |
| PeriodContent.ReceiptTotals | src/gcon/billing/invoicing.py:271-297 | the counting loop |
| PeriodContent.WorkOutContent | src/gcon/billing/invoicing.py:413-430 | selection, filtering, metering and lines composed |
| PeriodContent.UsageIsSound | src/gcon/billing/invoicing.py:315-316 | measured usage is never cut when the lines are made |
| PeriodContent.BillIgnoresJobOrder | src/gcon/billing/invoicing.py:413-430 | the bill does not depend on the order jobs are stored in |
| PeriodContent.AmountDue | src/gcon/billing/invoicing.py:413-430 | from stored jobs and receipts to the amount of the invoice |
| Invoices.InvoiceRepository.GetForPeriod | src/gcon/persistence/repositories/billing.py:134-139 | the invoice stored under the same text |
| Invoices.InvoiceRepository.FindSameOrOverlapping | src/gcon/persistence/repositories/billing.py:92-108 | the invoice of the same instants, else the first that shares time; unreadable rows skipped |
| Invoices.InvoiceRepository.CreateInvoice | src/gcon/persistence/repositories/billing.py:34-90 | existing, refused or a new draft |
| Invoices.InvoiceRepository.MarkStatus | src/gcon/persistence/repositories/billing.py:171-194 | the row's new state; first finalization and payment times stay |
| Invoices.CreateCovers | src/gcon/persistence/repositories/billing.py:34-90 | creating finds or makes the invoice of exactly these instants, or is refused because some of the time is billed; only then is there none |
| Invoices.CreateKeepsApart | src/gcon/persistence/repositories/billing.py:51-62 | an organization's invoices never come to overlap |
| Invoices.NoJobTwice | src/gcon/billing/invoicing.py:74-96 | no completed job is in the periods of two such invoices |
| Invoices.GenerateInvoice | src/gcon/billing/invoicing.py:433-469 | each refusal, the skipped empty period, the invoice |
| Invoices.FinalizeInvoice | src/gcon/billing/invoicing.py:487-524 | each branch, with the charge asked of the provider |
| Invoices.RecordManualPayment | src/gcon/billing/invoicing.py:527-538 | only from open or failed, only with a reference, cut to 200 characters |
| InvoiceLife.EveryLifeIsOrderly | src/gcon/billing/invoicing.py:487-538 | over any sequence of calls: at most one answered charge per invoice, none for a bill of nothing, a positive bill paid only by an accepted charge or by hand with a reference, paid is final, amounts never change, a row has a finalization time exactly when it is no draft and a payment time exactly when paid |
| InvoiceLife.ByHandMeansNoCharge | src/gcon/billing/invoicing.py:513-515 | an issuing provider is never asked to charge |
| InvoiceLife.NoTimeBilledTwice | src/gcon/billing/invoicing.py:446-451 | over any sequence of generations, by hand or automatic, no organization is billed twice for the same time |
| InvoiceLife.NothingBilledTwice | src/gcon/billing/automation.py:7-10 | so no completed job and no uploaded receipt is in the periods of two invoices |
| InvoiceLife.FirstChargeIff | src/gcon/billing/invoicing.py:506-524 | while an invoice is a draft, finalizing it is its first charge if and only if no earlier finalizing raised in the provider |
| InvoiceLife.ChargedOnceUnlessItRaises | src/gcon/billing/invoicing.py:516-524 | over any calls of which none raises in the provider an invoice is charged at most once |
| InvoiceLife.ChargedTwice | src/gcon/billing/invoicing.py:516-521 | two calls that charge any positive draft twice: the first raises |
| FinalizeRaces.AloneIsFinalize | src/gcon/billing/invoicing.py:503-524 | the steps of one call with nothing in between do to the books, attempts included, what the finalizing does: every refusal, a draft of nothing, every provider and reply |
| FinalizeRaces.AloneIsManualPayment | src/gcon/billing/invoicing.py:527-538 | likewise recording a payment by hand |
| FinalizeRaces.RunInv | src/gcon/billing/invoicing.py:503-524 | over any interleaving the answers on the books are those of the calls, and while the invoice is a draft the calls with an answer have all yet to mark it |
| FinalizeRaces.ChargedTwiceIff | src/gcon/billing/invoicing.py:506-524 | the calls under way can have an invoice charged twice between them if and only if two of them have read it to charge or been answered; a draft of nothing is read to charge by none |
| FinalizeRaces.OneAtATime | src/gcon/billing/invoicing.py:503-538 | calls that never overlap are answered at most one charge, and once paid the invoice is settled |
| FinalizeRaces.StaysPaidIff | src/gcon/persistence/repositories/billing.py:171-194 | a paid invoice stays paid under all further calls and interleavings if and only if every call under way would mark it paid; otherwise it can come to stand open or failed |
| FinalizeRaces.PaidTwice | src/gcon/billing/invoicing.py:527-538 | a run in which an invoice is charged and marked paid, then marked failed by an overlapping call, then paid by hand |
| PeriodContent.PeriodsShareNoUpload | src/gcon/billing/invoicing.py:208-215 | an upload is in at most one of two periods that do not overlap |
| PeriodContent.ReceiptIsBillable | src/gcon/billing/invoicing.py:421-430 | one good receipt uploaded in the period is something to bill |
| BillingScope.OrgsOfAre | src/gcon/billing/automation.py:178-184 | a month's run goes through exactly the organizations with a job completed in it or a fee owed for it |
| BillingScope.FeeOrgsAre | src/gcon/management/management_layer.py:1506-1509 | the plan list is the registered organizations whose fee is positive |
| BillingScope.SameScope | src/gcon/billing/automation.py:175-193 | neither the organizations nor their lines depend on the time of the run or on how payments stand |
| BillingRuns.BillingAutomation.RunOnce | src/gcon/billing/automation.py:150-212 | the run: refused while another goes, one window of the months asked for or else configured, the organizations the stored jobs and the plans give, the summary |
| BillingRuns.BillingAutomation.WorkOut | src/gcon/billing/automation.py:191-193 | an organization's lines for a month from what is stored, or a failure |
| BillingRuns.BillingAutomation.RunThrough | src/gcon/billing/automation.py:175-206 | its loops over months and organizations |
| BillingRuns.BillingAutomation.BillOrganization | src/gcon/billing/automation.py:185-206 | one organization and month |
| BillingRuns.RunIsCalls | src/gcon/billing/automation.py:186-199 | a run does to the books what some sequence of generating and finalizing calls does |
| BillingRuns.MonthsResolve | src/gcon/billing/automation.py:175-206 | a run only adds non-empty invoices of covered months with that month's content; afterwards every pair is billed, empty or failing; where that was so before it adds none |
| BillingRuns.RunInvoicesIff | src/gcon/billing/automation.py:150-212 | after a run an organization with something to bill for a covered month, none of it billed before, has an invoice for it if and only if it has a completed job in the month or owes a fee |
| BillingRuns.RunInvoicesEveryMonth | src/gcon/billing/automation.py:152-153 | when it has, it is exactly one, of exactly that month, with what there was to bill |
| BillingRuns.RunBillsTheAmountDue | src/gcon/billing/automation.py:191-193 | and its amount is the amount due for the stored jobs and receipts |
| BillingRuns.ReceiptsAloneAreNeverBilled | src/gcon/billing/automation.py:178-184 | good receipts uploaded in a month without a completed job or a fee are something to bill that the run leaves unbilled, and no other period's invoice has them |
| BillingRuns.LateJobIsNeverBilled | src/gcon/cluster/coordinator.py:2985-2992 | such an input, for any window: a job completed after the month its receipt was uploaded in |
| BillingRuns.RunningAgainMakesNothing | src/gcon/billing/automation.py:9-12 | a second run over the same window makes no invoice and, when only drafting, changes nothing |
| BillingRuns.GeneratedInAll | src/gcon/billing/automation.py:187-196 | a run's count of generated invoices is what it made plus the invoices it found under another spelling only |
| BillingRuns.GeneratedCountsWhatIsMadeIff | src/gcon/billing/automation.py:187-196 | so it is right if and only if the run found none of those |
| BillingRuns.SpellingIsCounted | src/gcon/billing/automation.py:187-196 | such a case |
| BillingOverTime.ReceiptBilledIff | src/gcon/billing/automation.py:175-199 | over any runs and whatever is stored at each, a receipt uploaded in a month is ever picked for an invoice if and only if it and its completed job were stored at the run that made the month's invoice |
| BillingOverTime.PickedIsBilled | src/gcon/billing/invoicing.py:421-430 | and picked means that the invoice's lines and amount were worked out from receipts with this one among them |
| BillingOverTime.MissedOnceMissedForGood | src/gcon/billing/automation.py:186-189 | so one that comes in, or whose job completes, after that run is never billed |
| BillingOverTime.MakesInvoiceIff | src/gcon/billing/automation.py:174-196 | a run that goes through its months makes the invoice of one if and only if it covers it, nothing of it is billed yet, there is something to bill, and the organization has a completed job in it or owes a fee |
| BillingSchedule.Schedule.MaybeTick | src/gcon/billing/automation.py:125-138 | when a pass starts a run |
| BillingSchedule.Schedule.Ended | src/gcon/billing/automation.py:140-147 | a run's end |
| BillingSchedule.RunsAreSpaced | src/gcon/billing/automation.py:125-147 | scheduled runs never overlap and start at least the interval apart |
| TermsHistory.History.RecordChange | src/gcon/billing/terms_history.py:53-59 | the new rows; the same value records nothing |
| TermsHistory.History.ReadValueAt | src/gcon/billing/terms_history.py:62-73 | the loop finds the last row at or before the moment |
| TermsHistory.HistoryIsTrue | src/gcon/billing/terms_history.py:53-73 | at and after the oldest kept row, and everywhere while none is dropped, the answer is the value then in force |
| TermsHistory.OldestAnswersForAllBefore | src/gcon/billing/terms_history.py:69-73 | before the oldest kept row the answer is that row's |
| TermsHistory.RightEverywhereIff | src/gcon/billing/terms_history.py:27-59 | with changes at distinct instants, right at every moment if and only if no row has been dropped |
| TermsHistory.ChangeDoesNotReachBack | src/gcon/billing/terms_history.py:12-14 | a change leaves every earlier answer alone while no row is dropped |
| TermsHistory.ClosedPeriodsKeepTheirTerms | src/gcon/billing/terms_history.py:16-17 | a period that started before any number of changes keeps its terms |

## Left out

- WorkerLeases.WorkerLeaseManager.Request: other coordinators appear only as leases inserted between its look and its
  write; the runs of `LeaseProtocol` have one coordinator, and leader election is not part of this model.
- LeaseSafety.EveryRunIsSafe: the clean handover is for runs without a restart in the gap described above; the exact condition
  is `LeaseRestart.UncleanHandoverIff`.
- LeaseRefinement.AnswerRuns: not for an answer to a stranded lease, which the code would accept unasked.
- WorkerLeases.WorkerLeaseManager.Reap: an exception inside one lease's share, which the source logs and passes over, and
  an exception of the sending function; a lease share here always completes.
- LineItems.NetBill: for prices that are not negative; `LineItems.BillTotal` has lines of any sign.
- TermsHistory.RightEverywhereIff: for changes at distinct instants; the other history lemmas allow equal ones.
- InvoiceLife.EveryLifeIsOrderly: counts the charges a provider answered; how often it is asked is
  `InvoiceLife.FirstChargeIff`, and calls that overlap are in `FinalizeRaces`.
- BillingOverTime.ReceiptBilledIff: between the runs only what is stored changes; invoices made by hand in between appear only
  as the ledger the runs start from.
- BillingRuns.BillingAutomation.RunOnce: what is stored and what the plans charge do not change during a run; the job query
  lists its organizations in the order of their first job.
- Metering.MeasureJobs: reals instead of floats, so an infinite timeout is not represented; likewise `_cents` on values
  beyond decimal precision.
- A write failing half way inside a running process, as against a restart; database transactions are taken as atomic.
- Events published to the bus, log lines, error message texts and the notes kept in an invoicing run's summary.
- Parsing of instants, of versions and of stored JSON; stored values that parse differently from how they print appear
  only as differently spelled invoice boundaries.
- Fingerprints and receipt signatures: a fingerprint is a text, a signature check an arbitrary function.
- Requests without an Idempotency-Key, and the HTTP answers built around an outcome.
- A look-up under the lock that raises: it has no effect other than leaving the lock, as a failed creation has.
- Capability matching, staking, the autoscaler, dashboards, telemetry, artifacts and the command-line check.
