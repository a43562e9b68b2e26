# Traio: a verified model of the ledger and what is built on it

Traio collects account history from several broker sources, keeps it as an exact
ledger of numbered activity revisions, and derives daily performance from that
ledger. This project models the parts of it that are state machines or exact
arithmetic, and proves what they keep over every run.

| file | part |
|---|---|
| `Activities`, `EffectMatching` | activities, legs and dates; matching one activity's effects with another's |
| `Ledger` | raw records, identities, revisions, issues: every transaction as a function on the tables |
| `Intake` | a reported record: securities looked up, texts checked and made canonical, failures quarantined |
| `LedgerInvariant`, `LedgerRuns`, `LedgerPriority`, `LedgerConvergence`, `LedgerJobs`, `LedgerReads`, `LedgerReview`, `DirtyMarks` | what every step and every run of the ledger keeps |
| `LedgerDisputes`, `LedgerDuplicates`, `LedgerTouches` | what an arriving observation, an answer to a possible duplicate, and any step does to the books, in words of its own |
| `LedgerStore` | the tables as a class; each method is proved to have the effect of the function |
| `Paging` | cursor paging over the ledger |
| `Market`, `Valuation`, `DayValues`, `Returns`, `Calculator` | prices and rates, replay and valuation, what a day is worth, returns, and the calculation loop |
| `PerformanceCache`, `PerformanceSteps`, `PerformanceStore`, `PerformanceExamples` | stored days, dirty marks and rebuilds, and three runs in which they go wrong |
| `Leases` | history jobs and their leases |
| `Sessions` | broker sessions across three locks and reloads |
| `Decimal`, `DecimalArithmetic` | decimal text and its arithmetic |
| `Coverage`, `Reconciliation` | day coverage and balance reconciliation |
| `Orders`, `Refresh`, `AccountLinks` | order submission, the refresh queue, primary connections |
| `Folds` | folds, filters and sums whose order does not matter |

`dafny verify dfyconfig.toml` checks everything.

How the model reads the source:

- A table is a map, a transaction one step, and a rejected transaction changes
  nothing. Dates are day numbers, ids are counters, clocks are integers, JSON
  equality is datatype equality, and a hash is the value it is taken of.
- Every clock is read in the same step as the update it guards.
- Amounts are integers scaled by 10^18 (`DecimalArithmetic.ScaledAdd` says why that
  is the same as the text), rationals are `real`, and stored performance figures
  are rounded to eighteen digits.
- Iteration over a Go map is modelled as taking keys in any order.

Where the code and its documentation differ, the code is followed:

- `DeleteBrokerConnection` says that accounts without a connection are deleted; the
  code archives them.
- Raw rows are unique without their source, so a row saved again from a feed of
  lower rank by a newer parser lowers a priority (`LedgerPriority.LoweringIsUpgrade`,
  `LedgerPriority.ResavedFeedLowersPriority`). The store accepts such a row; no
  adapter sends one, because each has its own namespace ("ibkr.execution" for the
  gateway, "ibkr.flex" for reports, "schwab.transaction", "alpaca.activity"), and
  on what the adapters send no priority falls (`LedgerPriority.AdaptersNeverLower`).
- A revision conflict is meant to be decided by an operator, but one that is raised
  by the accepted revision's own record, re-read by a newer parser, is refused as
  stale for ever (`LedgerReview.ConflictAcceptedExactly`,
  `LedgerReview.SelfDisputeNeverAccepted`, `LedgerReview.ConflictNobodyCanAccept`).
- A job reads its records before its first transaction. A row that another job saves
  again under a newer parser in between is booked as it was read and counts as done,
  so the newer record is never booked (`LedgerReads.OutdatedReadSettles`,
  `LedgerReads.SettledIsNeverBooked`).
- A blank trade date gives a sort key that sorts after every dated bound, so such an
  activity never enters a performance calculation (`PerformanceCache.IsLoaded`).
- Lease expiry carries nanoseconds and is compared as text with a time cut to
  seconds; within one second the two text orders are spelt out in `Leases`.

## Model

| member | source | states |
|---|---|---|
| `LedgerRuns.RunProgress` | internal/store/activity_records.go:396-451 | Over every run of saves, normalisations and resolutions: each activity's revisions are numbered 1 to current without gaps, no revision, source or identity ever changes or moves, generations never fall, and a changed current revision raises its account's generation |
| `LedgerRuns.ReachableIsValid` | internal/store/activity_records.go:396-451 | The ledger invariant, including that an identity leads to an activity of its own account, holds in every reachable ledger |
| `LedgerRuns.StepProgress` | internal/store/activity_resolution.go:30-246 | The same for one committed or rejected step of any kind |
| `LedgerInvariant.AppendKeeps` | internal/store/activity_records.go:562-630 | Appending the next revision keeps every table consistent and touches no earlier revision |
| `LedgerPriority.ReachablePriority` | internal/store/activity_records.go:416-495 | From the empty ledger on, no activity's current source priority falls between two moments, as long as no raw row is saved again from a feed of another rank |
| `LedgerPriority.RunPriority` | internal/store/activity_records.go:416-495 | The same from any backed ledger |
| `LedgerPriority.AdaptersNeverLower` | internal/broker/ibkr/history_parse.go:177-180 | On what the adapters deliver, each feed in its own namespace, no activity's current source priority ever falls, over every run from the empty ledger on |
| `LedgerPriority.RankedRunIsStable` | internal/store/activity_records.go:186-212 | If the namespace of a saved key fixes the rank of its feed, no run saves a row again from a feed of another rank |
| `LedgerPriority.LoweringIsUpgrade` | internal/store/activity_records.go:436-490 | One step lowers a current priority if and only if it is a parser upgrade of the revision's own record, by a record of lower rank than that revision |
| `LedgerPriority.ResavedFeedLowersPriority` | internal/store/activity_records.go:146-225 | A concrete run in which saving a report's raw row again from a gateway feed lowers the priority from 30 to 10: the upsert accepts it, although no adapter shares a namespace between the two |
| `LedgerPriority.DecidedStays` | internal/store/activity_records.go:436-490 | A manual-review revision survives every step, an accepted one every automatic step |
| `LedgerPriority.ReviewedForever` | internal/store/activity_resolution.go:194-223 | No run ever replaces a manual-review revision |
| `LedgerPriority.AcceptedThroughAutomation` | internal/store/activity_records.go:436-490 | No run of automatic steps replaces an accepted revision |
| `LedgerConvergence.BestObservationLeads` | internal/store/activity_records.go:396-499 | For one identity lineage with distinct, comparable effects, over every run of saves and normalisations by any jobs, in any order, repeated at will and mixed with unrelated records: the best observation normalised so far is the principal of the current revision |
| `LedgerConvergence.ReachableBestLeads` | internal/store/activity_records.go:396-499 | The same over every such run from the empty ledger |
| `LedgerConvergence.ArrivalOrderIsIrrelevant` | internal/store/activity_records.go:396-499 | Two runs that normalised the same observations, from whatever ledgers, end in the same effects, priority, source time and principal |
| `LedgerConvergence.FetchOrderIsIrrelevant` | internal/history/scheduler.go:76-129 | Observations fetched one by one, each saved and normalised by its own job, end the same in every order and for every choice of jobs |
| `LedgerConvergence.ArrivalsAreNormalised` | internal/store/activity_records.go:289-322 | Every such arrival is in fact normalised, none rejected |
| `LedgerConvergence.ReportWins` | internal/store/activity_records.go:416-419 | Once a report of the event is normalised, a report leads, whichever feeds came before or after |
| `LedgerDisputes.AcceptedIsDisputedExactly` | internal/store/activity_records.go:436-495 | Against a revision that an operator accepted, an arriving report opens a dispute if and only if its content differs and its time is later, equal, or one of the two is blank; every other observation is filed as evidence with outcome duplicate, the books unchanged |
| `LedgerDisputes.EqualRankExactly` | internal/store/activity_records.go:436-495 | Between two observations of equal rank with other content, the later becomes the next revision, an earlier one is filed, and one whose order is unknown opens a dispute |
| `LedgerDisputes.ReportReplacesFeed` | internal/store/activity_records.go:436-495 | A report that differs replaces what a feed of lower rank said, whenever either was |
| `LedgerDisputes.LowerIsFiled` | internal/store/activity_records.go:436-495 | A feed of lower rank, anything after an operator's review, and anything about a linked duplicate changes no revision and opens no issue |
| `LedgerDisputes.LotCostsAreTaken` | internal/store/activity_records.go:467-472 | A source of no lower rank that only adds lot costs to a transfer replaces it, whatever the times |
| `LedgerDisputes.RereadingExactly` | internal/store/activity_records.go:436-495 | A newer parser's reading of the record behind the current revision becomes the next revision exactly if it differs and the activity is no linked duplicate, and closes the open doubts about the row; otherwise nothing but the row's status changes |
| `LedgerDisputes.FirstBookingExactly` | internal/store/activity_records.go:562-665 | A record that no identity leads anywhere starts an activity with its own rank, time and principal; it is booked in doubt exactly if it takes effect and may be held already (`LedgerDisputes.DoubtIs`) |
| `LedgerDisputes.ArrivalLearns` | internal/store/activity_records.go:396-415 | Every further observation teaches the activity its free identities, whatever else becomes of it |
| `LedgerDisputes.FindExactly` | internal/store/activity_records.go:396-415 | The identities of a record lead nowhere, to one activity, or to two, which is a contradiction |
| `LedgerDisputes.RefusedExactly` | internal/store/activity_records.go:323-415 | A pending record under its lease is refused for an unknown feed, a contradicting provider or identities of two activities, in that order, and for nothing else |
| `LedgerDisputes.DoubtIs` | internal/store/activity_records.go:501-561 | When a record may be held already: another activity of the account has its kind, trade date and legs, and it either states no identity, or the other came from another family of sources and has no identity of a namespace and kind that it states |
| `LedgerDisputes.EnrichmentIs` | internal/store/activity_transfer_cost.go:5-24 | A report enriches a transfer if and only if it is the same but for added lot costs and the warnings these settle |
| `LedgerDuplicates.SameIsVoid` | internal/store/activity_resolution.go:139-223 | After every committed confirmation of a duplicate its activity is void and does not count, the other activity's current revision is unchanged, and the link and the corroboration are on record |
| `LedgerDuplicates.SameCountsOnce` | internal/store/activity_resolution.go:139-223 | It moves no balance of any account and day and no reconciliation: what was in doubt never counted, and the other activity counts as before |
| `LedgerDuplicates.SameNeverCounts` | internal/store/activity_resolution.go:139-223 | Whatever run follows, it never counts again |
| `LedgerDuplicates.DistinctTakesEffect` | internal/store/activity_resolution.go:55-223 | After every committed answer that they are distinct the current revision is effective, with the legs and costs of its own record and no warning |
| `LedgerDuplicates.DistinctCountsItself` | internal/store/activity_resolution.go:55-223 | What is reconciled then gains exactly that record's legs, once booked and traded, in every unit, and nothing else |
| `LedgerDuplicates.SameExactly` | internal/store/activity_resolution.go:30-193 | When a duplicate can be confirmed: who asks, which issue, which target, and every condition on the two |
| `LedgerDuplicates.DistinctExactly` | internal/store/activity_resolution.go:30-84 | When the answer that they are distinct is accepted |
| `LedgerJobs.JobCountsAddUp` | internal/store/activity_records.go:235-287 | Records equal added + updated + duplicates + unsupported + conflicts, plus the one that stopped the job, wherever the lease is lost |
| `LedgerJobs.JobIsARun` | internal/store/activity_records.go:235-287 | A job is the run that normalises its records in order up to the first refused one or the loss of its lease, and each count is the number of records with that outcome |
| `LedgerJobs.RestartIsInvisible` | internal/store/activity_records.go:289-322 | Stopped after any prefix by a crash, a lost lease or a rejection and run again, the job ends with the ledger, counts and verdict of one uninterrupted run |
| `LedgerReads.EarlyReadIsHarmless` | internal/store/activity_records.go:235-268 | Whatever any jobs and operators do between a job's read and its transaction, the outcome is that of reading inside the transaction, unless the row was saved again under another parser version |
| `LedgerReads.OutdatedReadSettles` | internal/store/activity_records.go:298-322 | If it was, the outdated record decides what is booked, and the row is settled with the new record in it |
| `LedgerReads.SettledIsNeverBooked` | internal/store/activity_records.go:298-322 | A settled row is never booked from again, by any job over any run, until it is saved under yet another parser version |
| `LedgerReads.SavedExactly` | internal/store/activity_records.go:186-212 | A saved row is new and pending, or takes over the record and is pending again exactly if another parser read it before, or stays as it is; its feed is that of its first delivery |
| `LedgerReads.RepeatedExactly` | internal/store/activity_records.go:298-322 | A settled row repeats the outcome on file without a trace, or notes for this job the outcome that its status stands for |
| `LedgerReview.ConflictAcceptedExactly` | internal/store/activity_resolution.go:250-402 | A conflict that normalisation has just raised can be accepted if and only if its record is not itself the principal of the current revision and the activity reviewed from it is acceptable and equal to the proposal; it is then booked exactly as proposed, with priority 100, its record as principal and the issue closed |
| `LedgerReview.AcceptExactly` | internal/store/activity_resolution.go:250-402 | Any conflict is accepted if and only if it is open about the current revision and the operator's reading of its record is acceptable and equal to the proposal |
| `LedgerReview.OwnRowDisputes` | internal/store/activity_records.go:460-467 | The principal report of an accepted revision, saved again with other legs and the same time by another parser version, always disputes that revision |
| `LedgerReview.SelfDisputeNeverAccepted` | internal/store/activity_resolution.go:320-330 | Such a conflict is refused for every operator after every run |
| `LedgerReview.ConflictNobodyCanAccept` | internal/store/activity_resolution.go:320-330 | A concrete run from the empty ledger that leads to one: two reports dispute, an operator accepts the second, a newer parser re-reads it |
| `EffectMatching.MatchEffects` | internal/store/activity_resolution.go:484-519 | The loop over used indices computes the greedy matching |
| `EffectMatching.ActivityEffectsContained` | internal/store/activity_resolution.go:484-519 | Legs and cost adjustments are both matched, and an empty candidate is refused |
| `EffectMatching.GreedyIsSound` | internal/store/activity_resolution.go:484-519 | An accepted candidate has an injective pairing of its effects with agreeing target effects |
| `EffectMatching.ContainmentIsExact` | internal/store/activity_resolution.go:484-532 | With no blank settlement date before an otherwise equal dated leg, the greedy answer is exact for every target |
| `EffectMatching.EarlyWildcardRejects` | internal/store/activity_resolution.go:521-532 | Every candidate that has such a pair of legs, among any others, has a target that contains it and that greedy matching refuses |
| `EffectMatching.GreedyIsExactly` | internal/store/activity_resolution.go:484-540 | Greedy matching decides containment in every target if and only if no blank settlement date precedes an otherwise equal dated leg, or the candidate holds an effect that matches nothing |
| `EffectMatching.LegsAgreeExactly` | internal/store/activity_resolution.go:521-532 | A leg agrees with one that is the same but for a settlement date it leaves blank, the instrument of cash and the currency of a position, and only if it is dated and names its instrument |
| `EffectMatching.CostsAgreeExactly` | internal/store/activity_resolution.go:534-552 | Cost adjustments agree if instrument, currency, allocation, evidence and the three basis figures are equal |
| `EffectMatching.DatesAgreeExactly` | internal/store/activity_resolution.go:471-482 | The trade dates are known and equal, and no other date that the candidate states differs |
| `LedgerStore.ActivityStore.FindByIdentity` | internal/store/activity_records.go:396-415 | The identity loop: blank keys say nothing, two different activities clash |
| `LedgerStore.ActivityStore.DetectWeakDuplicate` | internal/store/activity_records.go:501-561 | The lookalike scan agrees with its declarative meaning |
| `LedgerStore.ActivityStore.Judge` | internal/store/activity_records.go:436-495 | The chain of flags agrees with the declarative verdict, whose law is stated by `LedgerDisputes` |
| `LedgerStore.TransferCostOnlyEnrichment` | internal/store/activity_transfer_cost.go:5-24 | Whether a later report only adds lot costs to a transfer that had none |
| `LedgerStore.ActivityStore.BookRecord` | internal/store/activity_records.go:444-665 | First booking: new activity, revision 1, sources, identities, generation, mark, issue and outcome |
| `LedgerStore.ActivityStore.ReplaceRevision` | internal/store/activity_records.go:562-665 | Replacement: next revision, inherited corroboration, closed issues on upgrade, generation, mark and outcome |
| `LedgerStore.ActivityStore.KeepAsEvidence` | internal/store/activity_records.go:496-665 | No replacement: corroboration, identities, and a conflict issue if there is one |
| `LedgerStore.ActivityStore.NormalizeHistoryRecord` | internal/store/activity_records.go:289-322 | The whole transaction under its lease; a rejected one changes nothing |
| `LedgerStore.ActivityStore.ProcessRecord` | internal/store/activity_records.go:396-666 | Matching, verdict and booking of a pending record |
| `Intake.TakeExactly` | internal/store/activity_records.go:323-395 | No record is lost before booking: it fails exactly if a named security cannot be looked up, or if it names no account |
| `Intake.QuarantineExactly` | internal/store/activity_records.go:371-395 | What is left of a record that fails validation always passes it, unless the record names no account |
| `Intake.EffectiveIsWhole` | internal/store/activity_records.go:323-395 | What takes effect was reported as effective and is taken whole: every position has the instrument of its security, no amount changed, no leg or cost dropped, no warning added |
| `Intake.TakenIsSound` | internal/store/activity_records.go:323-395 | Every record taken has all its instruments, passes validation again unchanged, and states the exact sums of its legs as its cash effects |
| `Intake.TakenExactly` | internal/store/activity_records.go:323-395 | What is taken is the report with each leg looked up, checked, if header, content and sums fit, and else what quarantine leaves: the same report in review without effects |
| `Intake.ValidatedExactly` | internal/activity/validation.go:57-172 | A report passes if and only if its header and each text fit and no running cash sum reaches 10^20 |
| `Intake.ValidatedMeans` | internal/activity/validation.go:57-172 | Validation keeps every leg, cost and fill with its figures, each in canonical text of the same value, changes nothing else, and stores the sums of the reported cash legs |
| `Intake.HeaderInWords` | internal/activity/validation.go:57-92 | What a header must state to be valid, and the precision it is given |
| `Intake.CostInWords` | internal/activity/validation.go:136-155 | What a cost adjustment must state to be valid |
| `Intake.ValidationIsStable` | internal/activity/validation.go:57-172 | Validating a validated activity changes nothing |
| `Intake.SumsExactly` | internal/activity/validation.go:11-31 | Adding the cash legs as text fails if and only if a running sum of a currency leaves the range; otherwise each currency's text is the exact sum of its legs |
| `Intake.EffectsAreBooked` | internal/activity/validation.go:11-31 | The stored cash effects are what the activity's legs move in reconciliation, currency by currency |
| `Intake.CashEffects` | internal/activity/validation.go:11-31 | The loop over cash legs computes those sums |
| `Intake.Draft.Validate` | internal/activity/validation.go:57-172 | Validation in place: it succeeds exactly when the report passes, and then leaves the canonical one |
| `Intake.Draft.ResolveLegs` | internal/store/activity_records.go:331-347 | Each named position is looked up in place, each unnamed one adds a warning and asks for a review |
| `Intake.Draft.TakeIn` | internal/store/activity_records.go:323-395 | The whole preparation in place; nothing that a failed validation half changed survives the quarantine |
| `LedgerStore.ActivityStore.NormalizeHistoryJob` | internal/store/activity_records.go:235-287 | The job loop with its counts, stopped by the first error or by the loss of its lease |
| `LedgerStore.ActivityStore.SaveHistoryRaw` | internal/store/activity_records.go:146-225 | A batch is stored whole or, on a lost lease, not at all; the error is that of the first refused record, for its source, provider, account, job request, connection, identity or payload |
| `LedgerStore.AcceptedExactly` | internal/store/activity_records.go:146-225 | A batch passes exactly when each of its records does |
| `LedgerStore.BatchIsStored` | internal/store/activity_records.go:163-215 | After a stored batch every record is on file under the present parser version and observed by the job; every touched row belongs to an account the job asked for, linked to its connection; every outcome on file and all other tables are unchanged |
| `LedgerStore.ActivityStore.InsertReview` | internal/store/activity_resolution.go:194-245 | An operator's revision at priority 1000 with inherited roles; issue and raw record closed |
| `LedgerStore.ActivityStore.ResolveHistoryDuplicate` | internal/store/activity_resolution.go:30-246 | The two answers to a possible duplicate with every refusal; what each does to the books is stated by `LedgerDuplicates` |
| `LedgerStore.ActivityStore.ConfirmSameSource` | internal/store/activity_resolution.go:139-193 | Same source: effects contained in the target, link kept, own booking voided; what it is then worth is `LedgerDuplicates.SameIsVoid` |
| `LedgerStore.ActivityStore.ResolveHistoryRevisionConflict` | internal/store/activity_resolution.go:250-402 | Acceptance of an ordering conflict with every refusal |
| `Activities.LegNotBeforeBoundary` | internal/store/performance.go:388-413 | No dated leg falls before the activity's dirty boundary, although the two are computed by different rules |
| `DirtyMarks.StepMarks` | internal/store/activity_records.go:608-617 | Every step that adds or moves an activity marks its account dirty no later than the earliest date of the old and the new form, never moves a mark forward, and raises the generation |
| `DirtyMarks.RunMarks` | internal/store/activity_records.go:608-617 | Over every run, each new or moved activity and each moved mark shows in its account's generation |
| `LedgerTouches.StepTouches` | internal/store/activity_records.go:608-617 | Every step leaves activities, generations and marks alone, or changes one activity: its account, and no other, rises by exactly one generation and is marked exactly from the first of its old mark and all days that the activity named and now names |
| `LedgerTouches.EarliestExactly` | internal/store/performance.go:388-413 | The boundary of an activity is the first of all days it names, and blank if it names none |
| `Paging.PagesAddUp` | internal/store/activity_records.go:693-818 | Following cursors with any limits, with ledger steps in between: the pages form a prefix of the rows in order, and all of them when no cursor is left, unless one is refused as stale |
| `Paging.CompleteListing` | internal/store/activity_records.go:693-818 | A listing followed to its end is exactly the rows selected at its start, in order |
| `Paging.PageExactly` | internal/store/activity_records.go:693-818 | A page is refused if and only if its cursor is no longer good; otherwise it holds the first rows to follow, as many as fit, and a good cursor at its last row if and only if there are more |
| `Paging.OrderedMeaning` | internal/store/activity_records.go:786-791 | That order holds each selected row once, descending by sort key and id |
| `Paging.SameGenerationsSameRows` | internal/store/activity_records.go:707-741 | Unchanged generations in scope mean an unchanged selection, whatever the ledger did |
| `Paging.ChangeMakesStale` | internal/store/activity_resolution.go:239-239 | Every run that books or revises an activity in scope makes earlier cursors stale |
| `Market.FindLatest` | internal/performance/calculator.go:398-417 | The scan over a map's keys finds the last day not after the asked one, or none |
| `Market.FindPrice` | internal/performance/calculator.go:398-417 | The latest price, unless missing or more than seven days old |
| `Market.FindRate` | internal/performance/calculator.go:419-443 | The latest rate, one for the base currency itself, none for a blank currency |
| `Market.LookBackSuffices` | internal/performance/service.go:283-291 | Loading market data from ten days before the start changes no price and no rate of any day of the run |
| `DayValues.RateExactly` | internal/performance/calculator.go:419-443 | A rate is one for the base currency, and otherwise the usable entry filed for the pair under the latest day not after the asked one and at most seven days old |
| `DayValues.PriceExactly` | internal/performance/calculator.go:398-417 | A price is the usable entry filed under the latest day not after the asked one and at most seven days old |
| `DayValues.DayIsWorth` | internal/performance/calculator.go:83-136 | A day's figures from the legs and the market's tables alone: cash is the sum of balance * rate, holdings of quantity * price * rate, flow the same over the day's external legs, each balance the sum of the effective booked legs dated up to the day; the total is cash plus holdings if all three are known |
| `DayValues.ReplayIsBook` | internal/performance/calculator.go:186-209 | The book of a day names a currency or instrument if and only if some leg moves it by then, and holds the sum of those legs |
| `Valuation.ReplayIsSum` | internal/performance/calculator.go:186-209 | Each balance is the sum of the effective booked legs in its currency or instrument |
| `Valuation.RowOrderIsIrrelevant` | internal/performance/calculator.go:31-46 | A day's cash, holdings, flow and total do not depend on the order of the activities |
| `Valuation.NextDay` | internal/performance/calculator.go:83-92 | Applying a day's legs to the book of all earlier legs gives the book of all legs up to that day |
| `Valuation.LoadedValues` | internal/performance/service.go:283-299 | A day's values are the same over the loaded market window as over all market data |
| `Calculator.ValueCash` | internal/performance/calculator.go:219-241 | In any order of the currencies: the sum of balance * rate, and unknown if and only if a non-zero balance has no rate |
| `Calculator.ValuePositions` | internal/performance/calculator.go:243-280 | In any order of the instruments: the sum of quantity * price * rate, and unknown if and only if a non-zero position lacks price or rate |
| `Calculator.ExternalFlow` | internal/performance/calculator.go:282-345 | The sum of amount * rate or quantity * price * rate over a day's deposit, withdrawal and transfer legs; unknown if and only if one of them cannot be valued |
| `Calculator.GroupByDate` | internal/performance/calculator.go:37-46 | Legs are filed under their dates up to the end |
| `Calculator.OpeningBook` | internal/performance/calculator.go:48-61 | The replay of everything dated before the start |
| `Calculator.Calculate` | internal/performance/calculator.go:30-184 | Every point is dated and stores the day's cash, holdings, flow and total by `DayValues.DayIsWorth` over all legs dated up to its day, and the gains of the exact values, each in its own field rounded to eighteen digits, whatever the row order |
| `Calculator.StoredValuesAre` | internal/performance/calculator.go:164-182 | Each stored figure is its own exact figure rounded to the nearest multiple of 10^-18, half away from zero, and is blank if and only if that is |
| `Calculator.StartIsIrrelevant` | internal/performance/calculator.go:30-136 | A day's stored values are the same for every start date, market window and anchor |
| `Returns.ProfitExactly` | internal/performance/calculator.go:141-146 | Exactly when a day carries profit and return, and what they are |
| `Returns.TwrExactly` | internal/performance/calculator.go:68-163 | Exactly when a day carries a cumulative return |
| `Returns.NoReturnAfterGap` | internal/performance/calculator.go:151-162 | After an incomplete day no later day of the run carries a cumulative return |
| `Returns.TwrIsProduct` | internal/performance/calculator.go:141-152 | One plus the cumulative return is the product of (V_d - F_d) / V_(d-1) |
| `Returns.TwrIsChained` | internal/performance/calculator.go:68-163 | The same for every reported return, from an anchor and across days worth nothing, whose ratios are left out |
| `Returns.TwrFromAnchor` | internal/performance/calculator.go:68-81 | The same for a run that continues from a stored point |
| `Returns.ProfitTelescopes` | internal/performance/calculator.go:141-146 | Total profit plus total flow is the last value minus the first |
| `PerformanceCache.StoredDaysAreFresh` | internal/performance/service.go:256-318 | After every run of ledger steps, revocations and thorough rebuilds, every stored day before the mark (every stored day of an unmarked account) equals a calculation from scratch over the ledger as it then is |
| `PerformanceCache.ReachableCacheAgrees` | internal/store/performance.go:280-413 | The same from nothing on, with rebuilds in one base currency and no other condition but that legs do not precede their trade date |
| `PerformanceCache.RebuildAgreesExactly` | internal/store/performance.go:280-305 | A rebuild keeps the stored days right if and only if, in clearing the account's mark, it leaves no outdated day of another base currency behind |
| `PerformanceExamples.SecondBaseGoesStale` | internal/store/performance.go:280-305 | A concrete run: days stored in euros, a deposit, a rebuild in dollars; the euro day is outdated and unmarked |
| `PerformanceCache.InterleavedRebuildExactly` | internal/performance/service.go:235-313 | With load and replacement in separate transactions, the stored days are right afterwards if and only if the loaded ledger still shows what the present one shows on the days written, and no outdated day that loses its mark is left |
| `PerformanceExamples.InterleavedDepositIsLost` | internal/performance/service.go:235-313 | A concrete run: load, book a deposit, replace; the stored day does not show the deposit and its mark is gone |
| `PerformanceCache.GenerationGuards` | internal/store/performance.go:80-88 | While an account's generation is unchanged, so are all its days and its mark, whatever the ledger did |
| `PerformanceCache.CheckedRebuildAgrees` | internal/performance/service.go:235-318 | Comparing the loaded generation before replacing would make an interleaved rebuild exactly as good as one in a single step: the stored days are right after the one if and only if they are after the other |
| `PerformanceCache.EndMattersExactly` | internal/store/performance.go:88-88 | What a day sees is independent of the end of the calculation if and only if no leg of the account takes effect before its activity's trade date |
| `PerformanceExamples.EarlyLegGoesStale` | internal/store/performance.go:88-88 | A concrete run: a deposit whose leg takes effect a day before its trade date, a rebuild of both days; the first day stored differs from the calculation up to it |
| `PerformanceCache.CleanDaysKept` | internal/store/performance.go:380-413 | A ledger step changes no day before the resulting mark |
| `PerformanceStore.Tables.MarkDirty` | internal/store/performance.go:380-386 | A mark only ever moves to an earlier day |
| `PerformanceStore.Tables.ReplaceSeries` | internal/store/performance.go:280-305 | Delete the suffix of one base currency, insert the series, clear the mark if asked |
| `PerformanceStore.Tables.InvalidateSource` | internal/store/performance.go:310-353 | Every account's days from its boundary on are dropped, in all base currencies, and marked |
| `PerformanceStore.Rebuild` | internal/performance/service.go:224-318 | The default start, the rebuild boundary, the calculation over what was loaded earlier, and the replacement in the tables as they then are |
| `PerformanceStore.FindStart` | internal/performance/service.go:386-410 | A request without a start begins no later than any loaded activity takes effect |
| `PerformanceSteps.InputExactly` | internal/store/performance.go:80-88 | A calculation reads the current revision of every activity of the account traded by its last day, each once, and no other |
| `PerformanceSteps.RebuildExactly` | internal/performance/service.go:224-318 | A rebuild begins at the mark or where asked, stores there to its end the day's worth by `DayValues` in one account and currency, drops what was stored after, touches nothing else, and clears the mark exactly if it reaches today |
| `PerformanceSteps.RebuildCompletes` | internal/performance/service.go:224-318 | After a rebuild up to today the account has no mark, and every day from its beginning on is stored as a calculation from scratch gives it |
| `PerformanceSteps.RevokeExactly` | internal/store/performance.go:310-353 | Revoking a source keeps exactly the days before each account's boundary and marks it at the earlier of mark and boundary |
| `PerformanceSteps.StartExactly` | internal/performance/service.go:386-410 | A rebuild without a start begins on the first day on which anything it loaded takes effect, or on its last day if nothing does |
| `Leases.RunIsExclusive` | internal/store/activity_jobs.go:132-203 | Over every run with an advancing clock: one live lease per source and connection, no generation falls, an expired lease becomes live only under a new generation |
| `Leases.RefusedForever` | internal/store/activity_records.go:132-142 | A token that is refused once is refused for ever |
| `Leases.SupersededForever` | internal/store/activity_jobs.go:132-168 | Another claim of the job supersedes a token at once and for ever |
| `Leases.ClaimFencesScope` | internal/store/activity_jobs.go:140-146 | After a claim no earlier token of the same source and connection is accepted |
| `Leases.OneWriter` | internal/store/activity_records.go:132-142 | Writes accepted at one moment within one scope come from one claim |
| `Leases.DeletionExactly` | internal/store/activity_schema.go:118-125 | Deleting a connection keeps exclusion if and only if no live job that loses it meets a live job of the same source without one |
| `Leases.DeletionBreaksExclusion` | internal/store/activity_schema.go:118-125 | Two deletions that put two live jobs into one scope |
| `Leases.NobodyIsForgotten` | internal/store/activity_jobs.go:132-168 | A running job whose lease has expired and a queued or waiting one whose time has come are claimed next, or one created no later is, unless another live job holds the scope |
| `Leases.OnlyDueIsClaimed` | internal/store/activity_jobs.go:132-168 | Nothing else is ever claimed |
| `Leases.CrashedIsClaimedAgain` | internal/store/activity_jobs.go:132-168 | Whatever happens to other jobs after a worker falls silent: once its 120 seconds have passed and the scope is free, its job is next in turn, and whoever claims it does so under a higher generation |
| `Leases.ClaimLasts` | internal/store/activity_jobs.go:132-168 | A claim is good for 120 seconds and not longer |
| `Leases.FinishedComesBack` | internal/store/activity_jobs.go:180-203 | A finished job is due again if and only if it waits for a retry and 60 * attempt^2 seconds, or an hour, have passed |
| `Leases.WokenIsDue` | internal/store/activity_jobs.go:417-423 | New credentials make exactly the waiting report downloads of a connection due at once |
| `Leases.JobTable.ClaimHistoryJob` | internal/store/activity_jobs.go:132-168 | If any job is due in a free scope, one created no later is claimed, under a new generation and a token that holds; otherwise nothing changes |
| `Leases.JobTable.Pick` | internal/store/activity_jobs.go:140-146 | The oldest job that is due or whose lease has expired, and whose scope no other live job holds; none only if there is none |
| `Leases.JobTable.RenewHistoryJob` | internal/store/activity_jobs.go:169-179 | Renewed if and only if the token holds |
| `Leases.JobTable.FinishHistoryJob` | internal/store/activity_jobs.go:180-203 | Finished with a valid status if and only if the token holds |
| `Leases.JobTable.SaveUnderLease` | internal/store/activity_records.go:132-142 | A guarded write goes through if and only if the token holds |
| `Leases.JobTable.RetryHistoryConnectionFetches` | internal/store/activity_jobs.go:417-423 | Wakes exactly the waiting report fetches of a connection |
| `Sessions.InUseIsOpen` | internal/runtime/connections.go:86-249 | In every interleaving of calls and reloads, a session in use through the manager, market data or trading is open |
| `Sessions.FailedReload` | internal/runtime/connections.go:112-166 | A reload that fails before publication leaves all tables as they were, with every session it opened closed and no other |
| `Sessions.LeakExactly` | internal/runtime/connections.go:178-189 | A step loses track of an open session if and only if it leaves the closing loop early, as an error from closing a session does |
| `Sessions.NothingLeaks` | internal/runtime/connections.go:86-189 | In every interleaving without such an error, whenever no reload is under way the open sessions are exactly those in the manager's table |
| `Sessions.ChangedGetsNew` | internal/runtime/connections.go:112-189 | In every interleaving, whenever a reload is published each wanted connection has the session it had if its configuration is unchanged and otherwise a new open one, and no other connection has any |
| `Sessions.CallGetsSession` | internal/runtime/connections.go:191-249 | A call gets the session its service has for the connection at that moment and gives it back whole; only a reload under publication keeps it out |
| `Sessions.ReloadCompletes` | internal/runtime/connections.go:86-189 | From any sound idle state every wanted set of connections can be reached: all services then offer it, and exactly the replaced sessions are closed |
| `Sessions.ReplaceMarketStep` | internal/broker/market_data_service.go:72-104 | Replacing the market-data table keeps every call served |
| `Sessions.ReplaceTradingStep` | internal/broker/trading.go:68-118 | Replacing the trading table keeps every call served, and what is then closed is in no table |
| `Sessions.ConnectionManager.Reload` | internal/runtime/connections.go:86-189 | One reload on its own: each connection has its old session exactly if its configuration is unchanged and a new one otherwise, replaced ones are closed, or nothing changes |
| `Sessions.BuildTable` | internal/runtime/connections.go:123-166 | The build loop up to the first connection that cannot be used |
| `DecimalArithmetic.CanonicalDecimal` | internal/activity/decimal.go:12-54 | The parser as written computes the canonical text |
| `Decimal.CanonicalPreserves` | internal/activity/decimal.go:12-54 | Canonical text denotes the same number and is its own canonical text |
| `Decimal.SpaceIsIgnored` | internal/activity/decimal.go:12-16 | White space around a text changes neither what it denotes nor whether it is accepted |
| `Decimal.OnlySpaceIsCut` | internal/activity/decimal.go:12-16 | Nothing but white space is cut off, and none is left at either end |
| `Decimal.TextIsValue` | internal/activity/decimal.go:12-54 | Two accepted texts have the same canonical text if and only if they denote the same number |
| `Decimal.AcceptedExactly` | internal/activity/decimal.go:12-54 | A well-formed decimal is accepted if and only if its magnitude is below 10^20 and it is a multiple of 10^-18 |
| `Decimal.DecimalTextIsRead` | internal/activity/decimal.go:12-54 | An optional sign, digits and an optional point with digits on at least one side, with any space around, is read as written |
| `Decimal.ReadIsDecimalText` | internal/activity/decimal.go:12-54 | Nothing else is read |
| `Decimal.CanonicalShape` | internal/activity/decimal.go:12-54 | A canonical text has a minus exactly before a number below zero, no superfluous zero, and a point only between digits |
| `DecimalArithmetic.ExactExactly` | internal/activity/decimal.go:66-73 | A rational has a decimal text if and only if it fits, and the text denotes it |
| `DecimalArithmetic.AddExactly` | internal/activity/decimal.go:74-84 | Addition is exact and fails if and only if the magnitude reaches 10^20 |
| `DecimalArithmetic.SubExactly` | internal/activity/decimal.go:85-95 | Subtraction is exact and fails if and only if the magnitude reaches 10^20 |
| `DecimalArithmetic.MulExactly` | internal/activity/decimal.go:96-106 | Multiplication is exact and fails also when 18 fractional digits are not enough |
| `DecimalArithmetic.NegateTwice` | internal/activity/decimal.go:118-118 | Negation never fails and undoes itself |
| `DecimalArithmetic.AddThenSub` | internal/activity/decimal.go:74-95 | What was added can be taken away again |
| `DecimalArithmetic.CompareIsOrder` | internal/activity/decimal.go:107-117 | Comparison is zero exactly for equal canonical text and changes sign with the order of its arguments |
| `DecimalArithmetic.ScaledAdd` | internal/activity/decimal.go:74-84 | Adding texts is adding integers scaled by 10^18, below 10^38 |
| `Coverage.IntervalsCover` | internal/history/scheduler.go:154-177 | Sort and sweep decide exactly whether every day of a non-empty range lies in some interval; the sweep of reconciliation is the same |
| `Coverage.CompletelyCovered` | internal/history/scheduler.go:134-152 | There are accounts, and every day of a non-empty range lies in a usable row of each |
| `Coverage.SummarizeCoverage` | internal/performance/service.go:343-377 | Unknown without windows, incomplete exactly if a day lies in no usable window, complete exactly if at every stop of the walk all usable windows have passed |
| `Coverage.WalkIsShortest` | internal/performance/service.go:343-377 | The walk stops as rarely as possible: no choice of usable windows covers the range with fewer windows than it has stops |
| `Coverage.ReconciledIsPassed` | internal/performance/service.go:343-377 | Each day of a range called complete lies in a passed window |
| `Coverage.DisjointWindowsExactly` | internal/performance/service.go:343-377 | Where usable windows do not overlap, complete means exactly that every day lies in a passed window |
| `Coverage.OverlapHoldsBack` | internal/performance/service.go:343-377 | Where they do overlap it does not: a failed window on one day keeps a range incomplete although another window has passed all of it |
| `Coverage.WindowsInWords` | internal/performance/service.go:343-377 | What makes a day usable and what makes it passed |
| `Coverage.RowsInWords` | internal/history/scheduler.go:134-177 | What makes a day of an account covered |
| `Coverage.HistoryWindows` | internal/history/scheduler.go:190-206 | Adjacent windows from the first day to the last, each but the last of exactly 365 days |
| `Coverage.TilesPartition` | internal/history/scheduler.go:190-206 | Each day of the range lies in exactly one window, and no other day in any |
| `Reconciliation.Reconcile` | internal/activity/validation.go:189-239 | The running sum, its failures and the verdict agree with opening plus booked legs |
| `Reconciliation.WindowsCompose` | internal/activity/validation.go:189-239 | Windows that pass one after the other pass as one window |
| `Reconciliation.ReconcileAccount` | internal/store/activity_reconciliation.go:208-291 | It fails if and only if some compared unit has a figure without decimal text; an unready account is incomplete; a ready one passes or mismatches, and mismatches if and only if some currency or instrument has a closing balance other than opening plus booked legs |
| `Reconciliation.PassedExactly` | internal/store/activity_reconciliation.go:208-291 | A ready account passes if and only if closing equals opening plus booked legs for every currency and instrument there is, absent balances being zero |
| `Reconciliation.ReconciledExactly` | internal/activity/validation.go:189-239 | Each answer of one comparison with its condition, stated over the booked legs of settled activities |
| `Reconciliation.ReadyExactly` | internal/store/activity_reconciliation.go:208-291 | When an account is ready, and what it is for a unit to balance |
| `Orders.SentAtMostOnce` | internal/broker/alpaca/orders.go:51-98 | In every interleaving each client order id is sent at most once, only for a request shown at most ten minutes before |
| `Orders.AdmittedOnce` | internal/broker/order_session.go:66-88 | After an admission the same request gets the recorded attempt and another one is refused, for ever |
| `Orders.OrderSession.Begin` | internal/broker/order_session.go:66-88 | Admission, with every refusal, and what it changes |
| `Orders.PreviewAdmits` | internal/broker/order_session.go:66-106 | A preview admits exactly its own request, for ten minutes, unless the id was used before, and opens nothing to other ids |
| `Orders.AdmissionIsUsedUp` | internal/broker/order_session.go:80-87 | An admitted request is not admitted twice; it is found in progress |
| `Orders.OutcomeIsReturned` | internal/broker/order_session.go:108-132 | The outcome of a submission is what a repeated place and a look-up return, and only to its own account |
| `Orders.AnswerExactly` | internal/broker/order_session.go:66-106 | Every answer to a placed request: the recorded attempt, a refusal as duplicate, a refusal for want of an equal preview of at most ten minutes, or admission |
| `Orders.ShownIsSent` | internal/broker/alpaca/orders.go:51-98 | A new request that is placed within ten minutes of its preview does reach the broker, and its outcome is then on record |
| `Refresh.InvalidationIsKept` | internal/portfolio/account_refresh.go:26-43 | After an invalidation the account is queued for at most 750 ms later or has been taken since, whatever follows |
| `Refresh.TakenInTime` | internal/portfolio/account_refresh.go:63-80 | The first pass of an idle worker after 750 ms has taken it |
| `Refresh.AtMostThreePasses` | internal/portfolio/account_refresh.go:81-99 | At most three passes follow the last invalidation |
| `Refresh.InvalidationExactly` | internal/portfolio/account_refresh.go:26-43 | An invalidation is due after 750 ms or when an earlier one is, restarts the attempts and touches nothing else |
| `Refresh.PassIsFollowed` | internal/portfolio/account_refresh.go:81-99 | A first pass is followed by one after five seconds, a second by one after fifteen, a third by none |
| `Refresh.RetryHappens` | internal/portfolio/account_refresh.go:63-99 | The first pass of an idle worker after that time has taken the account, and none before it |
| `Refresh.RefreshQueue.InvalidateAccount` | internal/portfolio/account_refresh.go:26-43 | Invalidations coalesce to the earlier due time and restart the attempts |
| `Refresh.RefreshQueue.TakeReady` | internal/portfolio/account_refresh.go:63-80 | Exactly the due entries leave the queue; all of them go when syncing is off |
| `Refresh.RefreshQueue.Requeue` | internal/portfolio/account_refresh.go:88-98 | Five seconds, then fifteen, then no more; never over a newer entry |
| `AccountLinks.OnePrimary` | internal/store/broker_projections.go:67-138 | After every run from sound tables an account is archived exactly when it has no link, any other has exactly one primary link, and electing again changes nothing |
| `AccountLinks.ReachableHasOnePrimary` | internal/store/broker_projections.go:164-191 | The same from the empty tables on |
| `AccountLinks.ElectionIsStable` | internal/store/broker_projections.go:164-191 | Running the election on its own result changes nothing |
| `AccountLinks.FindPreferred` | internal/store/broker_projections.go:174-180 | One pass finds the present primary if it is among the most usable links, and otherwise the one of them known longest, of the lowest connection among equals |
| `AccountLinks.DiscoveryExactly` | internal/store/broker_projections.go:67-138 | A reported account is live and linked to the connection and keeps its other links, an unreported one loses the link and is archived if it was the last, the primary is elected again in both, and no other account changes |
| `AccountLinks.SwitchingExactly` | internal/store/broker_catalog.go:530-590 | Switching a connection keeps all links; the accounts it serves elect again, after switching off without regard to its having been the primary |
| `AccountLinks.DeletionExactly` | internal/store/broker_catalog.go:630-670 | Deleting a connection takes its link from every account, which then elects again or is archived without links |
| `AccountLinks.Promote` | internal/store/broker_projections.go:164-191 | Archive without links, elect otherwise |
| `AccountLinks.LinkTables.ReplaceConnectionAccounts` | internal/store/broker_projections.go:67-138 | Reported accounts are linked and revived, unreported ones lose the link; duplicates are refused |
| `AccountLinks.LinkTables.SetConnectionEnabled` | internal/store/broker_catalog.go:530-578 | Enabling or disabling re-elects every linked account |
| `AccountLinks.LinkTables.DeleteConnection` | internal/store/broker_catalog.go:630-670 | Deleting removes the links and re-elects or archives |

## Left out

- LedgerStore.ActivityStore.ProcessRecord: takes the result of `Intake` as the field `booked` of a raw record, so that a look-up which changes between two readings of one record shows as a changed record; the operator's stricter look-up is the field `reviewable`.
- LedgerStore.ActivityStore.NormalizeHistoryJob: reads each record inside its transaction, while the code reads all rows before the loop; `LedgerReads.EarlyReadIsHarmless` says when that is the same and `LedgerReads.OutdatedReadSettles` what happens otherwise.
- The descriptive fields of an activity, its fills and orders: one field that is compared and never read.
- The list of sources stored in a payload: always empty when stored and overwritten before every comparison.
- Sources other than gateway, flex, xml, schwab and alpaca, and source names that merely contain "flex": one unknown feed that is rejected.
- `NormalizeDate`: an easy member. In `Intake` dates and times are already read as valid or not, and a failed look-up is a missing entry.
- Paging.ListPage: sort keys are ranks given by an arbitrary function of the activity; the symbol searched for is the set of instruments that have it.
- Cost-basis warnings, quality and finality labels, lists of missing prices, and the names of price sources in performance points; which stored days used a revoked source is a parameter of the revocation step.
- Errors from unparsable market values.
- PerformanceCache.StoredDaysAreFresh: is about value fields, not returns, because anchors are rounded and a day after a zero value has no return; market data are fixed; and a rebuild is one step that clears the mark only when no other base currency still needs it (PerformanceCache.InterleavedRebuildExactly and PerformanceCache.RebuildAgreesExactly say what happens otherwise).
- The in-memory series cache used when persistence is off: a simpler form of the stored one.
- The anchor's query does not filter by base currency: anchors are parameters here, and no claim depends on their origin.
- LedgerConvergence.ArrivalOrderIsIrrelevant: assumes pairwise distinct effects, comparable rank and time, and no rule upgrade, cost-only pair or resolution in the run; without these a re-observation keeps the older priority.
- Leases.RunIsExclusive: connection deletion and the one-off flex migration, which move jobs between scopes, are not steps of the run; Leases.DeletionExactly says when a deletion is safe.
- The reuse of a waiting job for an equal request when a job is created.
- Sessions: event subscriptions and trading workers keep sessions outside the locks and are no part of the claim; whether waiting ends is not modelled, and errors from closing a session only end the closing loop.
- Orders: the provider's own validation before `Begin`, instrument memory, and the shape of the network request.
- Refresh.InvalidationIsKept: shutdown and switching syncing off, which drop the queue, are not steps of the run.
- AccountLinks: names, currencies and sync times of accounts; changing a connection's authentication type.
- Reconciliation: which snapshots and activities are loaded, and the issue rows it writes.
- HTTP, authentication, broker clients, report parsing, schema migration, portfolio snapshots (floating point), news, watchlists, candles and settings.
