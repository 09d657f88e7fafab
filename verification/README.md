# Verified model of the quota journal, pricing, failover, replacement and BER admission

This project models the parts of RouteX that decide whether a request may run, what it is charged,
and what survives a crash, and proves what those parts promise. `dafny verify dfyconfig.toml` checks it
(Dafny 4.11).

**The quota journal** (`pkg/eventqueue`). The facts of the journal are pending and ready payloads, rate
events, leases, receipts, account creation times, invalidated bound revisions and the expiry index; a
value of type `Core` holds them all. `Ledger.dfy` states every operation over the facts alone: where the
program reads an incremental count or counter, it counts events, leases and receipts directly, with
unbounded sums. `LedgerInvariant.dfy` and `LedgerSteps.dfy` give the invariant and prove that every
operation keeps it; a run (`Ledger.IsRun`) is any sequence of operations from the empty journal, with
`OpOpen` standing for a crash or stop followed by startup. Whole-run results are in `LedgerRuns.dfy`,
`LedgerSafety.dfy`, `LedgerFacts.dfy`, `LedgerReceipts.dfy`, `LedgerRecovery.dfy`, `LedgerRefinement.dfy`,
`LedgerRevisions.dfy` (a revision whose bound was exceeded is never admitted under a ceiling again),
`LedgerStatements.dfy` (what is delivered and settled is what was stated last), and where the guarantees end in
`LedgerBoundaries.dfy`.

What the operations over the facts mean is in turn proved in plain terms, over accounts, windows, bounds and
settlements and without the functions that compute them: exactly what each counter gains
(`LedgerMeasures.dfy`), exactly when an admission or preflight passes and what it leaves
(`LedgerAdmissions.dfy`), the plain queue operations, activation and startup (`LedgerQueue.dfy`), and for every
error a condition that holds of the journal (`LedgerRefusals.dfy`).

`Journal.dfy` is the program's own form: class `Queue` holds the buckets together with the incremental
rate counts, lease counts and 64-bit counters (`Counters.Db`) and changes them step by step in loops, with
rollback on error. Each method is proved to do exactly what its counterpart over the facts does and to
leave every count and counter equal to the fold it stands for, including startup from indexes that hold
anything at all. The contracts are conditional on a valid journal because the program, too, fails on a
damaged one. `ExpiryOrder.dfy` covers the bytes of the index keys.

**Pricing** (`pkg/pricing`). `Pricing.dfy` charges a usage and reserves for a capacity, from schedule
validation to the text of an amount; `PricingBounds.dfy` proves that a reservation covers every charge
within its capacity and is monotone; `PricingMeaning.dfy` reads quotes and reservations back off their own text
against schedule, exchange rates and counts; `DecimalText.dfy` proves the text round trips; `PricedSettlement.dfy`
joins pricing and journal.

**Bounded failover** (`pkg/routeattempt`). The hooks of a run are arbitrary functions of everything that
happened before, and the results are read off the trace of their calls. `FailoverChoices.dfy` says which
attempt comes next by the earlier attempts and the answers of one round alone.

**File replacement** (`internal/deliverycontroller`). The disk keeps, for slot and record, both what
programs see and the set of states that a crash at this moment may leave. Which steps fail, and how the agent
ran, are parameters.

**BER admission** (`pkg/ldap/bounds.go`), after section 8.1 of X.690 and section 5.1 of RFC 4511.

## Findings

Four statements one might expect of the journal do not hold as such. The code is modelled as it is, with
a concrete witness where it fails and the exact condition under which it holds. The runs on active journals
are proved for every calendar in which January and February 1970 in UTC are what they are
(`LedgerBoundaries.UtcBegins`); there is one whose months partition time (`LedgerBoundaries.TwoMonthsPartition`).

- Startup can refuse a journal that only its own operations and a crash produced: settling an admission
  without a measured amount frees the in-flight counter but not the window, so a second admission of the
  largest bound succeeds, and interrupting it overflows one counter (`LedgerBoundaries.RecoveryCanFail`).
  Startup succeeds exactly when the used and the held tokens of every rebuilt window fit in 64 bits
  (`RecoveryTotalIff`), in particular whenever an account's retained tokens do (`RecoveryIsTotal`).
- On a version 1 journal an id that was acknowledged and admitted again at the same logical instant reuses
  its event key, and the stored count exceeds the events (`LedgerBoundaries.KeysCanCollide`). The counts agree
  after an admission exactly when its keys were new (`Counters.CountsAgreeIffFresh`); on a version 2 journal
  receipt retention guarantees that, except, at the very instant of the switch, against the events that version 1
  left (`LedgerRuns.FreshByRetention`, `LedgerRuns.FreshAtSwitch`).
- Completing the running admissions one by one can overflow on charges of windows that ended and were not
  pruned yet, where startup does not: advancing the clock by a version 1 observation prunes no quota history, so a request admitted in the
  last nanosecond of January still counts when its seven days have just ended, beside one admitted in February
  (`LedgerBoundaries.CompletionCanFail`). Completion succeeds, in any order, exactly when for every counter of
  every window what it holds now, ended charges included, plus what the running admissions would add is at most
  2^63 - 1 (`LedgerRefinement.CompletionTotalIff`). Startup and completion part exactly when the rebuilt
  counters fit and the ended charges on top of them do not; without such charges they succeed together
  (`LedgerRefinement.RecoveryRefinesCompletion`).
- Preflight on an active journal does not ask whether the in-flight counters have room: with one request of the
  largest bound in flight, preflight of a second one passes and its admission is refused
  (`LedgerBoundaries.PreflightCanMislead`). The admission succeeds exactly when preflight does and there is
  room (`LedgerFacts.PreflightIsExact`); before activation preflight is exact
  (`LedgerFacts.PreflightBeforeActivation`).

## Model

| member | source | states |
|---|---|---|
| `LedgerInvariant.PruneQuotaKeeps` | pkg/eventqueue/quota_counters.go:176-221 | Pruning a valid journal leaves a valid journal: no kept key loses its receipt, no open window loses a charge, no counter leaves its range. |
| `LedgerInvariant.KeptKey` | pkg/eventqueue/quota_counters.go:176-221 | A key that pruning keeps still has its receipt: a receipt goes only after all its window contributions. |
| `LedgerInvariant.PruneLimitsKeeps` | pkg/eventqueue/limits.go:127-151 | Dropping the rate events of the last minute's past keeps the invariant. |
| `LedgerSteps.ReserveKeeps` | pkg/eventqueue/queue.go:100-118 | A plain reservation keeps the invariant, whether it succeeds or not. |
| `LedgerSteps.UpdatePendingKeeps` | pkg/eventqueue/queue.go:123-135 | Replacing a fallback keeps the invariant. |
| `LedgerSteps.CompletePlainKeeps` | pkg/eventqueue/queue.go:139-166 | Delivering a plain fact and releasing its leases keeps the invariant. |
| `LedgerSteps.AckKeeps` | pkg/eventqueue/queue.go:186-191 | Acknowledging keeps the invariant. |
| `LedgerSteps.LimitStepsKeep` | pkg/eventqueue/limits.go:193-287 | Version 1 admissions and observations keep the invariant. |
| `LedgerSteps.EnableKeeps` | pkg/eventqueue/quota.go:23-59 | The switch to quota accounting keeps the invariant. |
| `LedgerSteps.PreflightKeeps` | pkg/eventqueue/quota.go:256-270 | A preflight keeps the invariant. |
| `LedgerSteps.ReserveQuotaKeeps` | pkg/eventqueue/quota.go:166-198 | A quota admission keeps the invariant. |
| `LedgerSteps.UpdatePendingQuotaKeeps` | pkg/eventqueue/quota.go:203-232 | Replacing fallback and crash settlement keeps the invariant. |
| `LedgerSteps.CompleteQuotaKeeps` | pkg/eventqueue/quota.go:497-566 | A settlement keeps the invariant: receipt, charges, invalidated revision, delivery and lease together. |
| `LedgerSteps.ObserveQuotaKeeps` | pkg/eventqueue/quota.go:584-625 | Reading an account's usage, which advances the clock and prunes, keeps the invariant. |
| `LedgerSteps.SettleFold` | pkg/eventqueue/quota.go:521-555 | A settlement moves every counted amount: out of flight for the named accounts, and into exactly their open windows. |
| `LedgerSteps.InsertFold` | pkg/eventqueue/quota.go:186-196 | An admission adds its bound to the in-flight amounts of exactly its accounts and to no window. |
| `LedgerRecovery.OpenKeeps` | pkg/eventqueue/queue.go:38-92 | Startup, successful or refused, leaves a valid journal. |
| `LedgerRecovery.StepKeeps` | pkg/eventqueue/quota.go:497-566 | Every operation, a crash and restart included, keeps the invariant. |
| `LedgerRecovery.RunKeeps` | pkg/eventqueue/queue.go:38-92 | Every state of every run, crashes included, satisfies the invariant. |
| `LedgerRefinement.RecoveryNeverOverruns` | pkg/eventqueue/quota_recovery.go:83-92 | A receipt that a crash interrupts is never marked as overrun: its crash settlement lies within its bound. |
| `LedgerRefinement.CompletionImpliesRecovery` | pkg/eventqueue/quota_recovery.go:64-116 | If completing every running admission with its stored crash settlement and fallback succeeds, in any order and at any time up to the saved clock, startup succeeds and yields the same receipts (tagged interrupted), expiry index, revisions and ready facts after pruning. |
| `LedgerRefinement.RecoveryRefinesCompletion` | pkg/eventqueue/quota_recovery.go:64-116 | The same equality. Those completions succeed if and only if every rebuilt counter would also have room for the charges of ended windows; startup and completion differ if and only if the rebuilt counters fit without those charges and not with them; on a journal without such charges they succeed together. On a version 1 journal startup succeeds and is completing every pending fact. |
| `LedgerRefinement.CompleteEachFinishes` | pkg/eventqueue/quota.go:497-560 | Completing the running admissions yields one closed form, whatever their order. |
| `LedgerRefinement.CompleteEachSucceeds` | pkg/eventqueue/quota.go:497-560 | In any order, every single completion on the way fits when the counters of the completed journal do. |
| `LedgerRefinement.CompletionTotalIff` | pkg/eventqueue/quota.go:497-560 | Completing all running admissions with their stored crash settlements succeeds, in any order, if and only if for every account, window and 64-bit counter the amount counted now plus what the running admissions would add is at most 2^63 - 1. |
| `LedgerRefinement.FinishedFold` | pkg/eventqueue/quota.go:521-555 | Each completed counter is the counter before plus the contributions of exactly the running admissions that name the account and whose window is open. |
| `LedgerRefinement.FinishedOverRebuilt` | pkg/eventqueue/quota_recovery.go:93-110 | Each completed counter is the one startup rebuilds plus the charges whose window has ended. |
| `LedgerRefinement.PrunedFold` | pkg/eventqueue/quota_counters.go:153-221 | After a prune each window's fold is the sum over exactly the settled receipts that name the account and whose window ends later. |
| `LedgerRefinement.PruneLeavesNoStale` | pkg/eventqueue/quota_counters.go:176-221 | Right after a prune no charge of an ended window is left. |
| `LedgerSafety.QuotaSafety` | pkg/eventqueue/quota.go:391-491 | In every state of every run: if an account was only admitted under hard ceilings of at most a limit (tokens, or money in one currency), then used plus held in any window of that kind, plus everything in flight, is at most the limit plus the excess over the receipts' own bounds. |
| `LedgerSafety.RunGuarded` | pkg/eventqueue/quota.go:391-434 | The inductive form of quota safety: amounts up to each receipt's own bound stay within the limit in every window, through settlement, pruning and recovery. |
| `LedgerSafety.ExcessIsBarred` | pkg/eventqueue/quota.go:537-549 | In every state of every run: if an account was only admitted under hard ceilings of a kind, every receipt that names it and contributes to the excess of that kind is settled, marked as overrun, and its bound revision, which is not empty, is barred. |
| `LedgerSafety.RunProven` | pkg/eventqueue/quota.go:391-491 | In every state of every run, every receipt naming such an account has a proven bound of that kind, in the ceiling's currency, under a revision; and no receipt is ever settled in another currency than its bound's. |
| `LedgerReceipts.StepReceipts` | pkg/eventqueue/quota.go:497-566 | What any single operation may do to a receipt: it appears only by a quota admission, with that admission's bound and accounts at the new clock; it keeps its admission; it is settled at most once, in its bound's currency, by its completion with what that states or by startup with the stored crash settlement and fallback; nothing else but a replacement of the crash settlement changes it; and it goes only settled and after its last window ended. |
| `LedgerSafety.CeilingRoom` | pkg/eventqueue/quota.go:391-483 | An admission that passes its checks leaves the window's load plus its bound within every hard ceiling it states. |
| `LedgerSafety.SettleGuarded` | pkg/eventqueue/quota.go:521-555 | A settlement moves at most its bound from flight into a window, up to recorded excess. |
| `LedgerSafety.OpenGuarded` | pkg/eventqueue/quota_recovery.go:64-116 | Recovery, which settles everything in flight at once, stays within the limit too. |
| `LedgerSafety.FoldSplits` | pkg/eventqueue/quota_counters.go:81-131 | Used plus held equals the part within the bounds plus the excess, for every account and window. |
| `LedgerRuns.SlidingWindowRate` | pkg/eventqueue/limits.go:127-287 | For an account always admitted under rate caps of at most a number, no half-open minute of logical time ever holds more of its admissions, across clock regressions and restarts. Its successful admissions must use new event keys on version 1 and, at the instant of the switch, differ from the events version 1 left. |
| `LedgerRuns.ClockMonotone` | pkg/eventqueue/limits.go:169-188 | The stored clock never runs backwards in any run. |
| `LedgerRuns.EventPersists` | pkg/eventqueue/limits.go:127-151 | An admission's event stays in the journal for a minute of logical time, through every operation and restart. |
| `LedgerRuns.FreshByRetention` | pkg/eventqueue/limits.go:260-287 | On a version 2 journal, at any other instant than that of the switch, retained receipts alone make every quota admission's event keys new. |
| `LedgerRuns.EventsHaveReceipts` | pkg/eventqueue/limits.go:260-287 | In every run, an event at the current instant that version 1 did not leave there belongs to a retained receipt admitted at that instant. |
| `LedgerRuns.FreshAtSwitch` | pkg/eventqueue/quota.go:284-300 | At the instant of the switch a quota admission's event keys are new as soon as they differ from the events that version 1 left: receipts keep quota admissions apart. |
| `LedgerRuns.LeaseConservation` | pkg/eventqueue/limits.go:152-287 | In every state of every run the leases naming an account stay within the concurrency cap it was always admitted under, and every lease belongs to a pending id. |
| `LedgerFacts.NoFactLost` | pkg/eventqueue/queue.go:50-191 | Until its delivery is acknowledged, a reserved id is in exactly one of pending and ready, through every operation and crash. |
| `LedgerFacts.DeliveredFactIsFinal` | pkg/eventqueue/queue.go:139-166 | The first fact accepted for delivery, or the last fallback at a crash, is the one delivered: it is never rewritten. |
| `LedgerFacts.StepFacts` | pkg/eventqueue/queue.go:100-191 | What any single operation may do to a queued fact: keep it, rewrite a pending one for its own id, deliver it, or drop an acknowledged one. |
| `LedgerFacts.SettledReceiptIsFinal` | pkg/eventqueue/quota.go:504-520 | A settled receipt never changes while it is retained. |
| `LedgerFacts.SettlementIsIdempotent` | pkg/eventqueue/quota.go:504-520 | While its receipt is retained, repeating a settlement succeeds and changes nothing, and any other settlement or payload is a conflict. |
| `LedgerFacts.PreflightIsExact` | pkg/eventqueue/quota.go:256-327 | On an active journal the admission succeeds if and only if preflight does and the in-flight counters have room; a refused preflight predicts the status, and an accepted one changes only clock and pruning. |
| `LedgerFacts.PreflightBeforeActivation` | pkg/eventqueue/quota.go:256-327 | On a version 1 journal preflight succeeds if and only if activating in its zone and then admitting, at the same time, would; it changes only clock and pruned events when it succeeds and nothing when it does not. |
| `LedgerMeasures.CompletionGains` | pkg/eventqueue/quota_counters.go:81-131 | Settling a running request: every open window of every named account gains a measured amount as used and an unmeasured one as held at exactly the bound; unknown grows only when there is neither. Tokens and money of every currency, each on its own. |
| `LedgerMeasures.SettlementMoves` | pkg/eventqueue/quota.go:521-555 | For every account and window, named or not and open or not: what the settlement adds there, and what it takes out of flight. |
| `LedgerMeasures.CompletionIff` | pkg/eventqueue/quota.go:497-566 | A settlement succeeds if and only if it is well-formed, the journal active, and it is the one accepted before, or the request runs, the currencies agree and every counter has room. |
| `LedgerMeasures.CompletionEffects` | pkg/eventqueue/quota.go:527-560 | The whole state after a first settlement: receipt, overrun by comparison with the bound, barred revision, delivery, lease, clock, and nothing else but the index. |
| `LedgerMeasures.CompletionFiles` | pkg/eventqueue/quota_counters.go:153-175 | Which expiry keys a settlement files: one charge per open window of each account, at the instant the window ends, and one retirement after the last. |
| `LedgerMeasures.WindowAmounts` | pkg/eventqueue/quota_counters.go:153-221 | After a prune a counter is the sum of what exactly the settled requests whose window is open count for, each by its measured amounts or bound. |
| `LedgerMeasures.RecoveredAmounts` | pkg/eventqueue/quota_recovery.go:64-117 | After startup the same holds of every window, the requests that a crash interrupted counting by their stored crash settlements, and nothing is in flight. |
| `LedgerMeasures.AdmissionReserves` | pkg/eventqueue/quota.go:186-196 | An admission adds its bound in flight for exactly the accounts of its policies; the windows hold what still counts there. |
| `LedgerRevisions.OverrunBars` | pkg/eventqueue/quota.go:537-549 | A settlement above its bound in tokens or money bars the revision of the bound. |
| `LedgerRevisions.BarredStays` | pkg/eventqueue/quota.go:546-549 | In every run a barred revision stays barred, through every operation and crash. |
| `LedgerRevisions.CeilingsNeedRevision` | pkg/eventqueue/quota.go:353-491 | An admission or preflight that passes with any ceiling at all states a bound revision, and one that is not barred. |
| `LedgerRevisions.BarredForever` | pkg/eventqueue/quota.go:485-549 | In every run: after a settlement above its bound, whatever is admitted or passes preflight under that revision has policies without any ceiling. |
| `LedgerStatements.UpdateEffect` | pkg/eventqueue/quota.go:203-232 | Replacing fallback and crash settlement of a running request replaces exactly these two. |
| `LedgerStatements.UpdateIff` | pkg/eventqueue/quota.go:203-232 | It succeeds if and only if it is well-formed, the request runs, and the crash settlement is within the bound and in its currency. |
| `LedgerStatements.PendingIsStated` | pkg/eventqueue/queue.go:100-135 | In every state of every run a pending fallback is the one that the last successful call stated for its id. |
| `LedgerStatements.RecoveryIsStated` | pkg/eventqueue/quota.go:166-232 | In every state of every run the crash settlement of a running request is the one that the last successful admission or replacement stated. |
| `LedgerStatements.StartupUsesLastStatement` | pkg/eventqueue/quota_recovery.go:83-92 | In every run, startup delivers the fallback stated last and settles with the crash settlement stated last, for every request a crash left running. |
| `LedgerAdmissions.LimitAdmissionIff` | pkg/eventqueue/limits.go:193-287 | A version 1 admission succeeds if and only if the journal is not active, the entry well-formed, the id new, and queue, history, every rate and every lease limit have room; it adds one event and one lease per account and the fallback, and nothing else. |
| `LedgerAdmissions.PolicyIff` | pkg/eventqueue/quota.go:353-491 | The checks of one policy pass if and only if it allows the request: proofs, revision and creation time, every token ceiling over what settled and running requests count for, monthly money in one currency, coverage, and a bound revision that is not barred. |
| `LedgerAdmissions.PreflightIff` | pkg/eventqueue/quota.go:256-327 | A preflight passes if and only if it is well-formed, an active journal is in the stated zone, and limits, quota history, month and every policy allow the request. |
| `LedgerAdmissions.QuotaAdmissionIff` | pkg/eventqueue/quota.go:166-198 | An admission succeeds if and only if entry, bound and crash settlement are well-formed and consistent, the journal is active, limits, quota history, month and every policy allow the request, and its bound fits in flight. |
| `LedgerAdmissions.AdmissionQueue` | pkg/eventqueue/limits.go:260-287 | What an admission adds to the queue: fallback, one event and one lease per account; events of the last minute and everything else stay. |
| `LedgerAdmissions.AdmissionReceipt` | pkg/eventqueue/quota.go:302-327 | The receipt it stores states accounts and revisions of the policies, bound, month and crash settlement; every other receipt stays until it is settled, acknowledged and out of its windows. |
| `LedgerAdmissions.AdmissionRecords` | pkg/eventqueue/quota.go:353-390 | An account's creation time is recorded with its first admission and never rewritten. |
| `LedgerQueue.PlainIff` | pkg/eventqueue/queue.go:100-191 | The plain operations: exactly when each succeeds, and the whole state it leaves. |
| `LedgerQueue.ActivationIff` | pkg/eventqueue/quota.go:23-59 | Activation: exactly when it succeeds, and that it starts coverage at once and forgets nothing of the queue. |
| `LedgerQueue.ObservationIff` | pkg/eventqueue/quota.go:584-625 | Observing usage: exactly when it succeeds, and that it only advances the clock and forgets events a minute old and collectable receipts. |
| `LedgerQueue.PrunedIndex` | pkg/eventqueue/quota_counters.go:176-221 | A charge is dropped if and only if its window has ended, a retirement if and only if it is due and the fact was acknowledged. |
| `LedgerQueue.StartupEffects` | pkg/eventqueue/queue.go:38-92 | Startup delivers every fallback and drops every lease; ready facts, rate history, clock, account records and barred revisions survive as they are. |
| `LedgerQueue.QueueBounded` | pkg/eventqueue/queue.go:100-118 | In every state of every run, pending and ready facts together are at most the capacity. |
| `LedgerRefusals.LimitAdmissionRefusal` | pkg/eventqueue/limits.go:193-258 | Why a version 1 admission is refused: for each error the condition, of the first limit without room, that holds. |
| `LedgerRefusals.PolicyRefusal` | pkg/eventqueue/quota.go:353-491 | Why a policy refuses: for each error a ceiling, coverage gap, unknown amount, foreign currency, missing bound, barred revision or record that bears it out. |
| `LedgerRefusals.PreflightRefusal` | pkg/eventqueue/quota.go:256-327 | Why a preflight is refused, down to the first policy that refuses. |
| `LedgerRefusals.QuotaAdmissionRefusal` | pkg/eventqueue/quota.go:166-198 | Why an admission is refused, down to the first policy that refuses. |
| `LedgerRefusals.CompletionRefusal` | pkg/eventqueue/quota.go:497-566 | Why a settlement is refused: for each error the condition that holds. |
| `LedgerRefusals.UpdateRefusal` | pkg/eventqueue/quota.go:203-232 | Why a replacement of fallback and crash settlement is refused. |
| `LedgerRefusals.PlainRefusal` | pkg/eventqueue/queue.go:100-191 | Why a plain operation is refused. |
| `LedgerRefusals.ModeRefusal` | pkg/eventqueue/quota.go:23-59 | Why an activation, observation or startup is refused. |
| `LedgerBoundaries.RecoveryTotalIff` | pkg/eventqueue/quota_recovery.go:13-117 | Startup of a valid active journal succeeds if and only if used and held tokens of every rebuilt window each fit in a signed 64-bit integer; no other check can fail. |
| `LedgerBoundaries.RecoveryIsTotal` | pkg/eventqueue/quota_recovery.go:13-117 | Startup succeeds whenever no account's retained tokens exceed a signed 64-bit integer. |
| `LedgerBoundaries.RecoveryCanFail` | pkg/eventqueue/quota_counters.go:36-52 | For any calendar that begins as UTC does: a run of four successful operations after which startup is refused. |
| `LedgerBoundaries.CompletionCanFail` | pkg/eventqueue/quota_counters.go:153-175 | For any calendar that begins as UTC does: a run of five successful operations across the end of a month, after which startup would succeed but the request still running cannot be completed with its own crash settlement. |
| `LedgerBoundaries.PreflightCanMislead` | pkg/eventqueue/quota.go:256-327 | For any calendar that begins as UTC does: a run of two operations after which preflight of a request passes and its admission is refused as invalid. |
| `LedgerBoundaries.TwoMonthsPartition` | pkg/eventqueue/quota_types.go:138-150 | A calendar exists that begins as UTC does and whose months partition the time they cover: every instant lies in its month, and all instants of a month have that month. |
| `LedgerBoundaries.KeysCanCollide` | pkg/eventqueue/limits.go:260-287 | For every configuration with room for one fact: a run of four successful version 1 operations in which two admissions share one event. |
| `Counters.ChangeCount` | pkg/eventqueue/limits.go:97-126 | Changes one account's count by the delta and no other, refuses exactly a negative result, and keeps no zero entry. |
| `Counters.EntryApplied` | pkg/eventqueue/quota_counters.go:36-131 | Applying a receipt to a counter changes every amount by its contribution, and succeeds exactly when each result is non-negative and the 64-bit ones stay in range. The contribution, dimension by dimension: a measured amount is used, an unmeasured one held at the bound, one with neither unknown. |
| `Counters.TableApplied` | pkg/eventqueue/quota_counters.go:81-131 | Applying a receipt to the table changes one counter by its contributions and leaves all others alone. |
| `Counters.TableDetermined` | pkg/eventqueue/quota_counters.go:17-35 | Tables with the same amounts are the same table: nothing stale can hide. |
| `Counters.IndexesDetermined` | pkg/eventqueue/limits.go:73-96 | The indexes are a function of the facts, so rebuilding agreeing indexes is the identity. |
| `Counters.CountsAgreeIffFresh` | pkg/eventqueue/limits.go:260-287 | After an admission the stored counts equal the events if and only if none of its event keys was present. |
| `IndexSteps.PruningHasReceipt` | pkg/eventqueue/quota_counters.go:176-221 | A due key that the cursor reaches has its receipt: charges precede retirements. |
| `IndexSteps.ChargeTaken` | pkg/eventqueue/quota_counters.go:186-200 | The counter of a visited charge covers its receipt, so taking it out cannot underflow, and agreement is kept. |
| `IndexSteps.PruningEnds` | pkg/eventqueue/quota_counters.go:176-221 | Where the cursor stops, pruning is complete. |
| `QuotaChecks.FitsCeiling` | pkg/eventqueue/quota.go:418-433 | Subtracting the amounts one by one from the ceiling decides whether their unbounded sum is within it. |
| `QuotaChecks.MoneyLeft` | pkg/eventqueue/quota.go:464-483 | The money loop accepts exactly when no foreign currency occurs and the unbounded sum fits; the status of each refusal is stated. |
| `QuotaChecks.ForeignIffKey` | pkg/eventqueue/quota.go:464-483 | The stored maps hold a foreign currency exactly when some amount in one is positive. |
| `Projection.AddedOne` | pkg/eventqueue/quota_counters.go:153-175 | One more counter of a projection accepts the receipt exactly when it has room. |
| `Rebuilding.PartialGrows` | pkg/eventqueue/quota_recovery.go:64-110 | Projecting one more receipt adds its contributions to exactly its open windows' folds. |
| `Rebuilding.NoRoomNoFit` | pkg/eventqueue/quota_recovery.go:64-110 | A counter without room on the way, in any order, means that the rebuilt counters do not fit. |
| `Rebuilding.RecoverableReceipt` | pkg/eventqueue/quota_recovery.go:66-100 | What startup checks of a stored receipt holds of every receipt of a valid journal. |
| `ExpiryOrder.EncodedOrder` | pkg/eventqueue/quota_counters.go:144-149 | Byte order of the expiry keys puts earlier instants first, and charges before retirements at the same instant. |
| `ExpiryOrder.CursorOrder` | pkg/eventqueue/quota_counters.go:176-186 | The first key of the byte-ordered index is one that no other key must precede, as the prune loop needs. |
| `ExpiryOrder.JournalCursor` | pkg/eventqueue/quota_counters.go:176-186 | In a valid journal any keys still to visit can be written, exactly one of them comes first in byte order, and it is a key that the pruning loop may take next. |
| `ExpiryOrder.DecodeEncode` | pkg/eventqueue/quota_counters.go:144-205 | A written key reads back as instant, kind, account, window name and id. |
| `ExpiryOrder.EncodeInjective` | pkg/eventqueue/quota_counters.go:144-149 | Different keys have different bytes, window names included. |
| `ExpiryOrder.EventKeyOrder` | pkg/eventqueue/limits.go:265-275 | Event keys are walked in time order, and different admissions have different keys. |
| `ExpiryOrder.PruneTwice` | pkg/eventqueue/quota_counters.go:176-221 | Pruning at an earlier and then at a later instant equals pruning at the later one. |
| `Journal.Queue.constructor` | pkg/eventqueue/queue.go:38-92 | A new journal is valid and empty. |
| `Journal.Queue.PruneEvents` | pkg/eventqueue/limits.go:127-151 | The cursor loop removes exactly the events older than a minute and keeps counts and total in agreement. |
| `Journal.Queue.LogicalLimitTime` | pkg/eventqueue/limits.go:169-188 | Rejects a time that is not positive, and otherwise stores the larger of clock and time. |
| `Journal.Queue.ReleaseLimits` | pkg/eventqueue/limits.go:152-168 | Releases one id's leases exactly once, with the counts. |
| `Journal.Queue.CheckLimitAdmission` | pkg/eventqueue/limits.go:215-258 | Decides and answers as counting events and leases directly would, and prunes. |
| `Journal.Queue.ApplyLimitAdmission` | pkg/eventqueue/limits.go:260-287 | Adds one event, one lease and one count per account, and the fallback. |
| `Journal.Queue.CheckTokenWindow` | pkg/eventqueue/quota.go:391-434 | The status of one token window equals the status over unbounded folds, in the program's order of checks. |
| `Journal.Queue.CheckMoney` | pkg/eventqueue/quota.go:435-483 | The same for the monthly money of a policy. |
| `Journal.Queue.CheckQuota` | pkg/eventqueue/quota.go:353-491 | All checks of one policy, and the account record it establishes; which policies pass is `LedgerAdmissions.PolicyIff`. |
| `Journal.Queue.CheckAdmission` | pkg/eventqueue/quota.go:272-327 | The common check of preflight and admission over the pruned history, with the receipt it prepares. |
| `Journal.Queue.ProjectTerminal` | pkg/eventqueue/quota_counters.go:153-175 | Charges every open window and files every key, and fails exactly when some counter has no room. |
| `Journal.Queue.PruneHistory` | pkg/eventqueue/quota_counters.go:176-221 | The cursor loop over the expiry index succeeds, equals pruning as a set operation, and keeps every counter in agreement. |
| `Journal.Queue.HoldInFlight` | pkg/eventqueue/quota.go:186-190 | Adds the bound to each named account's in-flight counter, and fails exactly when one has no room. |
| `Journal.Queue.ReleaseInFlight` | pkg/eventqueue/quota.go:521-526 | Takes the bound out of each named account's in-flight counter; this cannot underflow. |
| `Journal.Queue.InitLimits` | pkg/eventqueue/limits.go:73-96 | Drops leases and rebuilds rate counts from the events, whatever the counts held before. |
| `Journal.Queue.RecoverEntry` | pkg/eventqueue/quota_recovery.go:66-109 | On a valid journal one receipt is checked, interrupted if it was running, and projected; it is refused only when the rebuilt counters do not fit. |
| `Journal.Queue.RecoverQuota` | pkg/eventqueue/quota_recovery.go:13-117 | Rebuilds counters and expiry index from receipts alone, in any order, and succeeds exactly when the rebuilt counters fit. |
| `Journal.Queue.Replay` | pkg/eventqueue/queue.go:62-84 | Every pending fallback becomes ready. |
| `Journal.Queue.Open` | pkg/eventqueue/queue.go:38-92 | Startup does what startup over the facts does, from arbitrary indexes, and leaves a valid journal or changes nothing; what it delivers, charges and drops is stated in `LedgerStatements.StartupUsesLastStatement`, `LedgerMeasures.RecoveredAmounts` and `LedgerQueue.StartupEffects`. |
| `Journal.Queue.Reserve` | pkg/eventqueue/queue.go:100-118 | Equals its counterpart over the facts and leaves a valid journal. |
| `Journal.Queue.UpdatePending` | pkg/eventqueue/queue.go:123-135 | Equals its counterpart over the facts and leaves a valid journal. |
| `Journal.Queue.CompleteFact` | pkg/eventqueue/queue.go:150-166 | Moves a pending fact to ready and releases its leases; a ready fact stays as it is. |
| `Journal.Queue.Complete` | pkg/eventqueue/queue.go:139-149 | Equals its counterpart over the facts and leaves a valid journal. |
| `Journal.Queue.Ack` | pkg/eventqueue/queue.go:186-191 | Equals its counterpart over the facts and leaves a valid journal. |
| `Journal.Queue.ReserveWithLimits` | pkg/eventqueue/limits.go:193-213 | Equals its counterpart over the facts, for which `LedgerAdmissions.LimitAdmissionIff` says when it succeeds and what it adds; afterwards the counts agree exactly when the event keys were new. |
| `Journal.Queue.ObserveLimits` | pkg/eventqueue/limits.go:290-307 | Returns the number of live events and leases of the account. |
| `Journal.Queue.EnableQuota` | pkg/eventqueue/quota.go:23-59 | Equals its counterpart over the facts and leaves a valid journal. |
| `Journal.Queue.PreflightWithQuota` | pkg/eventqueue/quota.go:256-270 | Equals its counterpart over the facts and leaves a valid journal: when it passes is `LedgerAdmissions.PreflightIff`. |
| `Journal.Queue.ReserveWithQuota` | pkg/eventqueue/quota.go:166-198 | Commits checks, events, leases, holds, fallback, crash settlement and receipt together or nothing, as its counterpart does; exactly when, with what effect and why not is stated in `LedgerAdmissions`, `LedgerMeasures.AdmissionReserves`, `LedgerRevisions.CeilingsNeedRevision` and `LedgerRefusals.QuotaAdmissionRefusal`. |
| `Journal.Queue.UpdatePendingQuota` | pkg/eventqueue/quota.go:203-232 | Equals its counterpart over the facts and leaves a valid journal: by `LedgerStatements.UpdateEffect` it replaces exactly the fallback and the crash settlement. |
| `Journal.Queue.CompleteQuota` | pkg/eventqueue/quota.go:497-566 | Equals its counterpart over the facts and leaves a valid journal: when and with what effect is stated in `LedgerMeasures`. |
| `Journal.Queue.ObserveQuota` | pkg/eventqueue/quota.go:584-625 | Equals its counterpart over the facts and leaves a valid journal. |
| `DecimalText.QuotaRoundTrip` | pkg/eventqueue/quota_types.go:111-131 | Every amount with at most 60 integer digits reads back from its text as the same number. |
| `DecimalText.FormatReads` | pkg/pricing/decimal.go:40-55 | An amount below 10^(18 + n) is written with at most n integer digits and at most 18 fractional ones, and reads back. |
| `DecimalText.DecimalKeeps` | pkg/pricing/decimal.go:17-35 | The canonical form of an amount is accepted again and denotes the same number. |
| `DecimalText.DecimalIsFormat` | pkg/pricing/decimal.go:17-55 | The canonical form of an input is what formatting its value produces. |
| `DecimalText.CanonicalForms` | pkg/pricing/decimal.go:17-25 | Two amounts have the same canonical form if and only if they are the same number. |
| `PricingTypes.HalfEven` | pkg/pricing/decimal.go:40-55 | The result is a nearest integer, and the even one of two. |
| `Pricing.Rounded` | pkg/pricing/decimal.go:40-55 | Writes the value rounded half to even to 18 places. |
| `Pricing.ValidateSchedule` | pkg/pricing/pricing.go:76-127 | Accepts exactly the schedules with known protocol and threshold, at most ten valid rates, one per metric and tier, and no enabled long-context rate without a threshold. |
| `Pricing.ValidateFX` | pkg/pricing/pricing.go:128-145 | Accepts exactly the tables of positive rates of known currencies in which the platform currency, if listed, is one. |
| `Pricing.Select` | pkg/pricing/bound.go:62-73 | Finds an enabled rate for the metric and tier exactly when one is listed. |
| `Pricing.ByMetricListed` | pkg/pricing/pricing.go:164-177 | The rate a metric is charged at is the enabled one that the schedule lists for it. |
| `Pricing.ChargeLine` | pkg/pricing/pricing.go:187-222 | One line: rate and exchange rate in canonical form, and the charge rounded once; unpriced exactly when rate or exchange rate is missing. |
| `Pricing.Calculate` | pkg/pricing/pricing.go:151-227 | Invalid exactly for invalid inputs, unpriced exactly when nothing is enabled or a used metric has no price; otherwise one line per used metric and the exact sum of the rounded charges. What tier, rates and charges a quote states is `PricingMeaning.QuoteSays`. |
| `Pricing.HighestPrices` | pkg/pricing/bound.go:37-97 | The largest input price and the largest output price over all reachable tiers and cache classes; unpriced exactly when one of them is missing. |
| `Pricing.AddMedia` | pkg/pricing/bound.go:98-136 | Adds image and document prices and counts their components. |
| `Pricing.RoundUp` | pkg/pricing/bound.go:137-151 | Zero for a free worst case; otherwise half a unit per component on top, rounded up to a whole unit and written. |
| `Pricing.ReserveBound` | pkg/pricing/bound.go:26-152 | Invalid and unpriced exactly when they should be; otherwise the reservation for the capacity, read back by `PricingMeaning.ReservationSays`. |
| `PricingBounds.Dominance` | pkg/pricing/bound.go:22-25 | Every valid usage within a capacity that can be reserved for can be charged, and its total is at most the reservation, over tiers, cache classes, exchange rates and component roundings. |
| `PricingBounds.TotalNearParts` | pkg/pricing/pricing.go:187-226 | The total is within half a unit per component of the unrounded charge, and zero when that is zero. |
| `PricingBounds.PartsCovered` | pkg/pricing/bound.go:37-136 | A usage within the capacity costs, before rounding, at most the worst case, in at most the counted number of components. |
| `PricingBounds.ReserveMonotone` | pkg/pricing/bound.go:37-151 | A capacity that is larger in every quantity and cache class and still prices never reserves less. |
| `PricingBounds.ReserveUnique` | pkg/pricing/bound.go:26-152 | Schedule, rates and capacity determine the reservation. |
| `PricingBounds.ReserveBelow` | pkg/pricing/bound.go:138-151 | Every reservation is below 10^77 units: fewer than 60 integer digits. |
| `PricingBounds.SumBelow` | pkg/pricing/pricing.go:187-226 | So is every charge, and every total. |
| `PricedSettlement.ReservationIsAccepted` | pkg/eventqueue/quota_types.go:111-124 | The journal accepts every reservation's amount and currency, and reads the same number. |
| `PricedSettlement.TotalIsAccepted` | pkg/eventqueue/quota_types.go:111-124 | The journal accepts every quote's total and reads the same number. |
| `PricedSettlement.QuoteConserves` | pkg/pricing/pricing.go:218-226 | A quote's total, as written, is the sum of its lines as written. |
| `PricedSettlement.ChargeNeverOverruns` | internal/routex/service/quota_admission.go:131-192 | With a bound of the capacity's tokens and reservation, and a settlement of the usage's tokens and charge, a usage within the capacity exceeds the bound neither in tokens nor in money; the settlement is valid and its currency matches. |
| `PricedSettlement.SettlementKeepsRevision` | pkg/eventqueue/quota.go:497-566 | Settling with such a usage is not refused for its currency, does not mark the receipt as overrun and invalidates no revision. |
| `PricingMeaning.QuoteSays` | pkg/pricing/pricing.go:151-227 | Read off a quote: the tier is long if and only if the input exceeds a threshold; there is exactly one line per metric with a count; its rate is the schedule's enabled one in that tier (media in the base tier), its exchange rate the table's, and its charge the product rounded half to even once. |
| `PricingMeaning.ChargeableSays` | pkg/pricing/pricing.go:187-217 | A usage is priced if and only if every metric it counts has an enabled rate in its tier that can be converted. |
| `PricingMeaning.ReservationSays` | pkg/pricing/bound.go:26-152 | Read off a reservation: the highest prices within reach of the capacity, each attained, at the full quantities, and the least amount that also covers half a unit per possible line; nothing for a free worst case. |
| `PricingMeaning.BoundPricedSays` | pkg/pricing/bound.go:37-136 | A capacity is priced if and only if every tier and metric in its reach has an enabled rate that can be converted. |
| `AttemptPlan.New` | pkg/routeattempt/plan.go:56-98 | Plans exactly the valid target lists; the plan is a copy with every target's credentials sorted by priority and id. |
| `AttemptPlan.SortCredentials` | pkg/routeattempt/plan.go:89-94 | The result is a permutation of the credentials in strictly increasing order. |
| `AttemptPlan.CheckCredentials` | pkg/routeattempt/plan.go:77-88 | Accepts exactly well-formed, distinct credentials that no other connection owns. |
| `AttemptSelection.ExactWeights` | pkg/routeattempt/plan.go:158-172 | Each candidate is selected by exactly as many draws in [0, total) as its weight. |
| `AttemptSelection.WeighedPick` | pkg/routeattempt/plan.go:166-172 | The subtraction loop ends at the candidate of the draw's interval and never runs past the last. |
| `AttemptSelection.AttemptKeyInjective` | pkg/routeattempt/plan.go:113 | Keys tell target and credential apart. |
| `AttemptSelection.AskTarget` | pkg/routeattempt/plan.go:122-149 | Offers the least credential by priority and id that is neither excluded nor declined, or reports that all were. |
| `AttemptSelection.SelectAttempt` | pkg/routeattempt/plan.go:115-173 | Whatever is chosen is what some open target offers, so on its target the least credential by priority and id that is neither excluded nor declined; it stays on the preferred target when that offers one, and otherwise draws from the total weight over exactly one candidate per offering target; every error is borne out by the last calls, and a cancellation that was seen ends the selection. |
| `FailoverRun.Dispatch` | pkg/routeattempt/execute.go:98-118 | Execution is permitted only after a fresh preparation of that attempt, at most one admission and a last look that saw no cancellation; a halt is a cancellation exactly when the last look saw one, and otherwise names the hook that refused; nothing is executed on the way. |
| `FailoverRun.Run` | pkg/routeattempt/execute.go:74-159 | For all hooks: at most the allowed number of attempts, distinct target and credential pairs, none after one that may have done work, no reuse of a failed connection or rejected credential, each freshly prepared and executed right after a look, one admission before the first execution, and a stop reason that the trace bears out. Every attempt is the one that the earlier attempts and the answers of its round decide: the least eligible credential of the target on which a credential was just rejected, or, when that offers none, of the target whose share of the offered weight the draw fell into. It stops for want of candidates only when every credential of every weighted target was attempted, rejected, on a failed connection, or declined after the last execution; and a cancellation that was seen starts nothing more. |
| `FailoverRun.AttemptIsSafe` | pkg/routeattempt/execute.go:119-157 | An attempt that selection permits repeats no pair and uses nothing that failed. |
| `FailoverRun.Verdict` | pkg/routeattempt/execute.go:127-157 | What an outcome means for the run: the stop reason that it bears out, or that another attempt may follow. |
| `FailoverRun.StaysOnTarget` | pkg/routeattempt/execute.go:143-149 | After a rejected credential the next attempt is on the same target, unless that had nothing left to offer in the round that chose it. |
| `FailoverChoices.TracksOneMore` | pkg/routeattempt/execute.go:119-154 | The exclusions carried along are exactly those that the attempts so far justify, no fewer and no more. |
| `FailoverChoices.DrawnIs` | pkg/routeattempt/plan.go:150-172 | A drawn choice is the least eligible credential of the target whose share of the total offered weight the draw fell into. |
| `FailoverChoices.NothingOffered` | pkg/routeattempt/plan.go:115-156 | No candidate means that every credential of every weighted target is accounted for. |
| `FileReplacement.Controller.SaveOperation` | internal/deliverycontroller/state.go:59-65 | Saving a record keeps every possible crash safe; when it fails, the old or the new record may be found. |
| `FileReplacement.Controller.ExactIdentity` | internal/deliverycontroller/replacement.go:78-90 | Comparing the metadata behind the name and behind the descriptor held since the review: it succeeds if and only if both can be read, the name refers to the very file held, that has no other name, and its recorded metadata is unchanged and valid. |
| `FileReplacement.Controller.PromoteReplacement` | internal/deliverycontroller/replacement.go:131-172 | At every crash point the slot names the old file, or the new one under a durable record naming both; success means that the slot held the reviewed file before and now names, durably, the very file that was staged; and it succeeds whenever no step fails and a valid new file is staged. |
| `FileReplacement.Controller.Deliver` | internal/deliverycontroller/controller.go:137-265 | The same over the whole operation; the slot lock is given up only when slot and record agree whatever a crash leaves. At most one report is sent, that of the outcome on record: written. When no step fails and the agent delivers, it succeeds. |
| `FileReplacement.Controller.Replace` | internal/deliverycontroller/controller.go:44-265 | Refuses while an operation is on record or the slot is locked; success means a durable, reported replacement, and at most that is ever reported. When no step fails and the agent delivers a valid new file, it succeeds with that very file in the slot, one report, and the lock released. |
| `FileReplacement.Controller.RetryReport` | internal/deliverycontroller/controller.go:271-322 | Changes nothing but the phase on record, which stays readable; sends exactly one report, of exactly the agent and output states on record, if and only if the record is valid and neither reading it, saving the intent nor connecting fails; reports "written" only of a durable replacement; and succeeds if and only if that report and the receipt are taken. |
| `FileReplacement.Controller.Restart` | internal/deliverycontroller/state.go:67-83 | Whatever a crash leaves is safe, and every record that may be found passes validation. |
| `FileReplacement.PendingIsSafe` | internal/deliverycontroller/replacement.go:149-153 | The record saved before the rename is valid and names both files, so either file may be found with it. |
| `Ber.TreeUnique` | pkg/ldap/bounds.go:247-282 | Two element trees at the front of the same bytes are the same tree. |
| `Ber.BerSpan` | pkg/ldap/bounds.go:247-282 | Succeeds exactly when some tree within the limits spans the front, and returns its size and the shared counter plus its number of elements. |
| `Ber.ValidBer` | pkg/ldap/bounds.go:238-245 | Accepts a byte string if and only if it has at most 65536 bytes and encodes one tree of definite-length, low-tag elements within depth 32, 4096 elements and the integer sizes. |
| `Ber.EncodingUnique` | pkg/ldap/bounds.go:238-245 | The tree is unique. |
| `Ber.ReadFrame` | pkg/ldap/bounds.go:201-236 | Returns exactly the bytes that the outer header announces, within frame size and remaining budget, and nothing else. |
| `Ber.FrameIsOneElement` | pkg/ldap/bounds.go:201-245 | An admitted frame is one SEQUENCE whose children fill everything after its header. |

## Left out

- The storage engine below a transaction: buckets are atomic ordered maps and an error rolls back.
- Sizes across restarts: capacity, maximum payload and quota capacity are the same before and after every restart; opening with a smaller maximum payload makes startup refuse a fact that is too long (`pkg/eventqueue/queue.go:66-69`), which the model does not contain.
- JSON encodings of receipts, counters and operations; the settlement digest is an injective function of settlement and payload.
- Time zones: a month is an arbitrary function from zone and instant to its start and end, with an end after the instant; quota safety over months assumes that the months of a zone partition time (`Ledger.CalendarOk`), and says nothing of a zone whose clock skips the first midnight of a month, where `pkg/eventqueue/quota_types.go:143-145` may end that month late.
- The account-prefix rules of monthly behaviours and the key and membership proofs: two booleans of a policy.
- Reading ready facts in key order, queue depth, installation binding, usage views, proofs and batches: projections of the modelled state.
- Journal.Queue.Open: a bucket that does not exist is an empty map, so a missing bucket is not told apart from an empty one; record fields are typed, so undecodable records do not occur.
- Journal.Queue.RecoverEntry: the contract speaks of valid journals only; what startup does with a damaged one is a refusal that is modelled but not characterised.
- Version 1 journals whose event keys collided: the journal goes on with a count that is too high, and nothing further is claimed of it until the next startup.
- FailoverRun.Run: nil hooks and contexts; the hooks of a run answer one call at a time, and the order of calls of concurrent runs of one plan is not modelled.
- AttemptPlan.SortCredentials: the library sort is written as an insertion; ids are compared as character strings.
- FileReplacement.Controller.Replace: first deliveries, which replace nothing, the contents of the files and of the agent configuration, process control and the network; another writer in the directory is excluded, as the source requires of its operator.
- Ber.ReadFrame: short reads that are resumed later; the stream is what the connection delivers.
- LDAP response shapes, OAuth, SAML, secret storage, migrations, scripts and the web interface.
