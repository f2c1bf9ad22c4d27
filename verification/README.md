# Models of the evaluation machinery

Holdpoint's evaluation spends real money under one hard cap, plays Assistants against simulated worlds, and judges
what happened with oracles and statistics. These Dafny modules model that machinery and prove what each part is for.

- **The spend ceiling.** `Prices`, `CeilingRules`, `Ceiling`, `SharedLedger`, `BudgetWait`, `Campaign`, and `Accounting`
  model the prices, the clamp and the worst case of a request, the ceiling with its outcome counts, the shared ledger
  of many processes, the in-process budget with its condition variable, and whole campaigns as interleavings of locked
  steps. `SharedBudget`, `Ceiling`, and `Budget` are classes whose methods are proved equal to the step functions the
  interleavings are built from. Money is exact.
- **Statistics and transformations.** `PassHatK` (over `Binomials`), `Wilson`, `Percentiles`, `SchemaRewrite` (over
  `JsonValues`), and `NumberReader`.
- **Simulated worlds and oracles.** `WorldRules`, `WorldRuns`, `WorldSnapshot`, and `World` for the precision world;
  `ComplexRules`, `ComplexRuns`, `ComplexCounts`, and `ComplexWorld` for the one with customers, faults, denials, and
  revocations; `OracleCounts`, `CorpusOracle`, and `EpisodeOracle` for the two oracles; `FreshWorld` for shipping and
  loyalty; `TaskDns` for the task-shaped DNS Action. Snapshot keys and ids are the same texts the code builds.
- **Merging and concurrency.** `MergeCompletions`, `CancelToken`, and `WorkingSet`.

`Options` and `Texts` hold an optional value and facts about joined, split, and decimal texts.

Five properties turned out to need an exact condition, which is proved in both directions:

- The price bound covers cache traffic exactly up to the input it was computed for (`Prices.BoundExactly`).
- Not every request the ceiling cannot bound is refused as unsupported. Bounding raises past every handler for three
  kinds of request, and for no other: a body nested too deep to parse, one whose first unreadable limit is an infinity,
  and one that has to be encoded anew but cannot be, such as a text with a lone surrogate
  (`CeilingRules.CrashesExactly`, with inputs in `InfiniteLimitCrashes` and `UnlimitedCrashesExactly`). Admission adds
  one kind: a bounded request with a price whose counts do not convert to floats (`AdmissionCrashesExactly`).
- "Settled exactly once" holds exactly when every priced count of the response converts to a float; otherwise the
  `OverflowError` of the price comes before the settlement and the reservation stays open (`Ceiling.Ceiling.Forward`,
  with an input in `CeilingRules.UnpriceableReported`). Under the ceiling's stated assumptions every count converts
  (`CeilingRules.AssumptionsSettle`, `Campaign.TrustedAnswerSettles`).
- The rewrite of an optional property that itself accepts null loses that null (`SchemaRewrite.ImageExactly`, with the
  input in `NullableOptionalIsLost`).
- The complex world's ledger names a changed snapshot key exactly when the key is free of `|`
  (`ComplexRuns.DifferencesClaimedExactly`, with a family of inputs in `ComplexCounts.MarkedTitleUnclaimed`).

`dafny verify dfyconfig.toml` checks everything.

## Model

| member | source | states |
|---|---|---|
| Campaign.CapSafety | eval/cost.py:289-335 | Over every interleaving of any number of requests, processes, settlements, and crashes, what is spent or still reserved never exceeds the cap by more than settlements took beyond their reservations, and not at all while none is counted as exceeded. |
| Campaign.HardCap | eval/ceiling.py:21-24 | If every reported usage stays within the bytes sent and the allowance, and within the output limit, no run ever spends or reserves more than the cap. |
| Campaign.SettledOnce | eval/ceiling.py:266-304 | In every run a request that has ended was settled exactly once, and one that has not was never settled. |
| Campaign.AnswerSettles | eval/cost.py:329-335 | In every reachable state a request in flight still holds its own open reservation, so no settlement of the campaign is refused, and an answer ends its request exactly when it can be priced. |
| Campaign.TrustedAnswerSettles | eval/ceiling.py:286-304 | On every run an answer within the stated assumptions settles its request, so only a crash or an answer outside them leaves a reservation open. |
| Campaign.RefusalIsFinal | eval/cost.py:312-327 | A refused waiter's amount fits in no state of any continuation. |
| Campaign.CrashStaysCharged | eval/cost.py:266-271 | A reservation whose process died stays open at its whole worst case for ever. |
| Campaign.LedgerAccountedFor | eval/cost.py:289-335 | At every point of every interleaving, spent is the sum of what the answered requests had to pay, held is what was granted and not released, and the overrun, the exceeded count, and the waits are such sums too. |
| Campaign.WaitedExactly | eval/cost.py:312-327 | On every run a request that asks again is marked as waiting exactly when one of its passes slept. |
| Accounting.RequestsAccountedFor | eval/ceiling.py:245-304 | At every point of every interleaving a ceiling's `requests` are those in flight or never settled, those settled but not yet counted, the billed ones, and its throttled, rejected, failed, and unreported counts. |
| Accounting.UnknownAccountedFor | eval/ceiling.py:297-302 | With one ceiling, the ledger's unknown settlements are the failed and unreported requests and those about to be counted so. |
| SharedLedger.ReserveKeepsCap | eval/cost.py:312-327 | Every pass of a reservation keeps the cap up to the overrun so far, and a granted one leaves the ledger within the cap itself. |
| SharedLedger.ReserveExact | eval/cost.py:312-327 | A pass is granted exactly when all spent, open, and asked for is within the cap, and otherwise sleeps exactly when it may wait and would fit with nothing open. |
| SharedLedger.RaisesExactly | eval/cost.py:241-335 | An operation raises, and writes nothing, exactly on a negative amount, a file that is no ledger of non-negative amounts, or a reservation that is not open. |
| SharedLedger.SettleKeepsCap | eval/cost.py:329-335 | A settlement raises the overrun by exactly what it exceeds its reservation by. |
| SharedLedger.SettlementExact | eval/cost.py:329-335 | A settlement closes its own reservation only, moves the committed amount by charge less reservation, and never lowers it when the cost is unknown. |
| SharedLedger.SettlementCharges | eval/cost.py:329-335 | A known cost is charged as it is, an unknown one as the larger of it and the reservation; the unknown and exceeded counts move by one exactly then. |
| SharedLedger.SecondSettlementRefused | eval/cost.py:329-335 | A second settlement of a reservation is refused and leaves the ledger as it was. |
| SharedLedger.PendingNeedsOpen | eval/cost.py:312-327 | A pass sleeps only while some positive reservation is open. |
| SharedLedger.WaitedIsOnePass | eval/cost.py:312-327 | Waiting is the first pass that does not sleep, counted as a wait exactly when one did before it. |
| SharedLedger.SharedBudget.Create | eval/cost.py:278-287 | A negative cap is refused first, then an existing ledger, which is never replaced; otherwise the ledger starts empty. |
| SharedLedger.SharedBudget.SumOpen | eval/cost.py:318-318 | The loop over the open reservations computes their sum. |
| SharedLedger.SharedBudget.Pass | eval/cost.py:289-327 | One locked pass does to the file and answers what the step of the interleavings does. |
| SharedLedger.SharedBudget.ReserveAmount | eval/cost.py:312-327 | The polling loop ends with the first pass that is not pending, whatever the other processes do during each sleep. |
| SharedLedger.SharedBudget.SettleReservation | eval/cost.py:329-335 | The settlement does what the step does, and an unreadable file or an unknown reservation leaves it unchanged. |
| BudgetWait.CapSafety | eval/cost.py:194-215 | Over every interleaving of threads, what is spent and reserved exceeds the cap by no more than settlements exceeded their reservations. |
| BudgetWait.HardCap | eval/cost.py:194-215 | If no settlement costs more than its reservation, the process never spends or reserves more than its cap. |
| BudgetWait.PurseAccountedFor | eval/cost.py:194-215 | At every point of every run each quantity of the purse is the sum of what grants and settlements added. |
| BudgetWait.AttemptExact | eval/cost.py:194-206 | An attempt is granted exactly when it fits, sleeps exactly when it may wait and would fit with nothing reserved, and only a grant changes the purse. |
| BudgetWait.WaitedIsOneAttempt | eval/cost.py:194-206 | Waiting is the first attempt that does not sleep, counted as a wait exactly when one did before it. |
| BudgetWait.NoStuckWaiter | eval/cost.py:194-215 | In every reachable state a sleeping reserver is blocked, would fit without the work in flight, and some thread holds a positive reservation whose settlement, at any cost, wakes every sleeper. |
| BudgetWait.RefusedForGood | eval/cost.py:194-207 | A waiter is refused exactly when its amount does not fit beside what is already spent, and would then be refused in every later state. |
| BudgetWait.RunsEnd | eval/cost.py:194-215 | Every run without new arrivals is finite: at most the work left, once for each thread and once more, and the threads awake at its start. |
| BudgetWait.AllAnswered | eval/cost.py:194-215 | When no thread can move, nobody sleeps: every reservation was granted and settled, or refused, one willing to wait only because it no longer fits beside what was spent. |
| BudgetWait.Budget.Create | eval/cost.py:183-192 | A negative cap is refused; otherwise nothing is spent, reserved, or counted. |
| BudgetWait.Budget.Reserve | eval/cost.py:194-206 | The condition-variable loop computes the spec of waiting, whatever other threads do while it sleeps. |
| BudgetWait.Budget.Settle | eval/cost.py:208-215 | A settlement releases its amount, charges the cost or at least the reservation when unknown, counts, and notifies all waiters once. |
| Prices.BoundCovers | eval/cost.py:128-159 | Whatever the cache does with up to N tokens, a call of at most N input and M output tokens costs between zero and its bound. |
| Prices.BoundExactly | eval/cost.py:145-159 | The bound covers every usage with up to C cached tokens exactly when C is at most N, or input is free. |
| Prices.BoundReached | eval/cost.py:156-159 | The bound is the least one: some usage within it costs exactly that. |
| Prices.MarginalCosts | eval/cost.py:128-153 | Token by token, fresh input, cache reads, cache writes, and output each pay their own rate, and input hidden by cache traffic pays nothing. |
| Prices.CostOfSum | eval/cost.py:120-153 | A sum of usages is known exactly when both are, and costs their sum while each one's cache traffic is within its input, never more otherwise. |
| Prices.MillionTokens | eval/cost.py:88-101 | A million tokens cost their list price in dollars, cached ones at their multiple of it. |
| Prices.FirstFound | eval/cost.py:88-101 | A price is that of the first entry of the model, the catalog before the evaluation models. |
| Prices.PricesOrdered | eval/cost.py:88-100 | Of every known model a cache read is never dearer than fresh input and a cache write never cheaper. |
| CeilingRules.SentBodyBounded | eval/ceiling.py:214-243 | In the body sent every limit field is null or an integer within the limit, the endpoint's own field is such an integer, and no other field changed. |
| CeilingRules.SentUnchangedExactly | eval/ceiling.py:238-243 | For every limit, a body is re-encoded exactly when it did not already meet the bound. |
| CeilingRules.ChatBounded | eval/ceiling.py:229-243 | What becomes of any addressed chat body: sent as it is, sent with each limit cut and the own field set, refused, or crashed, each exactly when. |
| CeilingRules.BoundedExactly | eval/ceiling.py:214-243 | A request is bounded exactly when it is a known endpoint's unstreamed JSON object naming a model, which is a priced embedding model, or whose limits all read and whose changed body can be encoded. |
| CeilingRules.CrashesExactly | eval/ceiling.py:214-243 | Bounding a request raises past the handler exactly when its body is nested too deep, its first unreadable limit is infinite, or all limits read but the body must change and cannot be encoded. |
| CeilingRules.AdmissionCrashesExactly | eval/ceiling.py:245-256 | Admission raises exactly when bounding does or a bounded, priced request has a count that does not convert to a float, which a limit and a body size that convert rule out. |
| CeilingRules.AdmissibleExactly | eval/ceiling.py:245-256 | A request is admissible exactly when it is bounded, within its model's priced input, priced, and its counts convert. |
| CeilingRules.WorstCaseExact | eval/ceiling.py:245-256 | The worst case is the most any usage can cost whose input and cache traffic are within the bytes sent and the allowance, and its output within the limit, and some such usage costs it. |
| CeilingRules.EmbeddingsAreEmbeddings | eval/ceiling.py:225-229 | An embedding request of a priced model is sent as it is, any other is refused, and no other endpoint's request counts as one. |
| CeilingRules.ReadingsExactly | eval/ceiling.py:231-237 | Which limits read as integers, and as which: truths, numbers without their fraction, and texts; an infinity overflows. |
| CeilingRules.InfiniteLimitCrashes | eval/ceiling.py:231-237 | An infinite limit before an unreadable one crashes; the same two the other way round are refused. |
| CeilingRules.UnlimitedCrashesExactly | eval/ceiling.py:238-242 | A chat request without limits crashes exactly when it has no encoding once the own field is added. |
| CeilingRules.AnthropicCacheWithinInput | eval/ceiling.py:91-104 | An Anthropic usage's cache traffic is at most its input, by construction. |
| CeilingRules.OpenAICacheIsFree | eval/ceiling.py:105-119 | An OpenAI response can report any cache counts beside any input. |
| CeilingRules.AnthropicReadsBack | eval/ceiling.py:91-104 | An Anthropic report reads back as the call, its input including the cache traffic, a missing optional count as zero. |
| CeilingRules.UsageReadsBack | eval/ceiling.py:78-119 | In each of OpenAI's formats the reported counts read back as the call, a missing optional one as zero. |
| CeilingRules.UsageReadExactly | eval/ceiling.py:62-119 | A usage is reported exactly when each required count is a non-negative integer and each optional one is that, null, or absent. |
| CeilingRules.CutAnswersRecognized | eval/ceiling.py:127-139 | Each provider's word for an answer cut at the limit is recognized in its place, and no other word. |
| CeilingRules.ResponseOutcomes | eval/ceiling.py:266-303 | For every status and body: refusals are free, reported usage is billed, and anything else keeps the whole reservation, as failed or unreported. |
| CeilingRules.ReportSettlesExactly | eval/cost.py:145-153 | A report is settled exactly when each of its priced counts converts to a float. |
| CeilingRules.UnknownExactly | eval/ceiling.py:282-302 | A settlement is unknown exactly for the outcomes counted as failed or unreported. |
| CeilingRules.ReservationSuffices | eval/ceiling.py:245-304 | Under the assumptions no response settles above the call's reservation. |
| CeilingRules.AssumptionsSettle | eval/ceiling.py:286-303 | Under the assumptions every response to an admitted call can be priced: its own bound was. |
| CeilingRules.UnpriceableReported | eval/ceiling.py:105-119 | A provider can report a usage that no settlement prices, however large the numbers a float holds. |
| CeilingRules.SettledNonNegative | eval/ceiling.py:266-304 | No response, whatever it reports, settles below zero. |
| CeilingRules.CallsArePriced | eval/ceiling.py:245-256 | Every request with a worst case is reserved at the price of the model it names, for the bytes sent and its output limit; the amount is never negative and its counts convert to floats. |
| Ceiling.Ceiling.ClampLimits | eval/ceiling.py:231-236 | The loop over the limit fields and the endpoint's own field computes the clamp. |
| Ceiling.Ceiling.BoundedBody | eval/ceiling.py:214-243 | The bounded body is the specified one, a crash included, and exactly the unsupported requests are counted. |
| Ceiling.Ceiling.AdmitBody | eval/ceiling.py:245-264 | An admitted request reserved its worst case and is counted once; on every other path nothing is reserved and only its refusal is counted. |
| Ceiling.Ceiling.SettleBody | eval/ceiling.py:266-304 | One settlement at the response's cost, its outcome counted only if the ledger took it; a usage that cannot be priced, and nothing else, leaves the ledger as it was. |
| Ceiling.EvidenceExactly | eval/ceiling.py:142-145 | `terminal` and `clamped` are counted for exactly the responses they name. |
| Ceiling.EntryCountedOnce | eval/ceiling.py:245-264 | Each end of an admission moves its own counter by one and no other. |
| Ceiling.Ceiling.Forward | eval/provider_origin.py:129-142 | An admitted request is settled at its response's cost, by a settlement the ledger takes, exactly when the response can be priced, a raising send and an unreadable body included; otherwise its reservation is still open. |
| Ceiling.EndedExactly | eval/provider_origin.py:129-142 | An admitted request ends in an answer exactly when one came back that can be priced and, unless refused, parsed. |
| Ceiling.AdmittedSettles | eval/ceiling.py:245-304 | Within the assumptions every response to an admitted request can be priced, so it is settled. |
| Ceiling.OthersLeaveOpen | eval/cost.py:312-335 | However other requests use the ledger meanwhile, a reservation stays open. |
| Ceiling.ForwardedOnce | eval/provider_origin.py:129-142 | A forwarded request adds one to `requests`, its evidence to `terminal` and `clamped`, and one to exactly one outcome count unless it was billed or could not be priced. |
| PassHatK.Unbiased | eval/stats.py:37-43 | For every probability and 1 <= k <= n, the expected estimate over n independent runs is p to the k. |
| PassHatK.MonotoneProbability | eval/stats.py:37-43 | The estimate is a probability, never falls with more successes, is zero exactly below k successes and one exactly when all succeed. |
| PassHatK.NonIncreasingInK | eval/stats.py:37-43 | One more required repetition never raises the estimate. |
| Binomials.CombIsFactorialQuotient | eval/stats.py:43-43 | Pascal's rule defines the same binomial coefficient as the factorials. |
| Binomials.ProbabilityIsBinomial | eval/stats.py:37-38 | Independent runs succeed with the binomial distribution. |
| Wilson.Characterised | eval/stats.py:24-34 | A proportion lies in the interval exactly when n (rate - p)^2 <= z^2 p (1 - p). |
| Wilson.ContainsRate | eval/stats.py:24-34 | 0 <= low <= rate <= high <= 1. |
| Wilson.ClampsNeverMove | eval/stats.py:34-34 | The clamps to 0 and 1 never move an endpoint. |
| Wilson.Mirrored | eval/stats.py:24-34 | The interval of the failures mirrors that of the successes. |
| Percentiles.NearestRank | eval/stats.py:46-53 | The percentile is the least value that at least the given fraction of the values do not exceed. |
| Percentiles.IntervalCovers | eval/stats.py:79-81 | The bootstrap's two indices exist, are in order, and leave at most a fortieth of the resampled means outside on each side and a twentieth in all. |
| Percentiles.IndicesExact | eval/stats.py:80-81 | The two indices are exactly the last and the first that leave at most a fortieth outside, and the minimum never moves the upper one. |
| SchemaRewrite.NullableSound | eval/recovery.py:93-135 | Every payload valid under the rewritten schema is valid under the original one after the nulls are dropped. |
| SchemaRewrite.FillInverts | eval/recovery.py:93-135 | Every valid payload without an optional null is the image of its null-filled form, valid under the rewrite. |
| SchemaRewrite.DropIdempotent | eval/recovery.py:118-135 | Dropping twice is dropping once, for any payload and schema. |
| SchemaRewrite.FixedExactly | eval/recovery.py:118-135 | Dropping fixes a payload exactly when it holds no optional null. |
| SchemaRewrite.ImageExactly | eval/recovery.py:93-135 | Exactly the valid payloads without an optional null can be expressed through the rewrite. |
| SchemaRewrite.MeaningPreserved | eval/recovery.py:93-135 | Where no optional property accepts null, what the provider can express is exactly what the original schema accepts, and those payloads are left alone. |
| SchemaRewrite.NullableStrict | eval/recovery.py:93-107 | The rewrite is what a strict provider accepts: every object it reaches requires all its properties, which stay those declared. |
| SchemaRewrite.NullableOptionalIsLost | eval/recovery.py:103-107 | An optional property that accepts null: its null is valid but lost. |
| NumberReader.SeparatorNeutral | eval/classes.py:86-109 | For every token, exchanging commas and points changes neither its numeral nor its value. |
| NumberReader.GroupedReadsBack | eval/classes.py:100-105 | A signed integer grouped with at least two separators reads back as printed. |
| NumberReader.GroupedDecimalReadsBack | eval/classes.py:97-99 | A grouped number whose decimals start at the other mark reads back as printed. |
| NumberReader.DecimalReadsBack | eval/classes.py:100-105 | An ungrouped number with other than three decimals reads back as printed. |
| NumberReader.NoDigitsNoNumber | eval/classes.py:106-109 | A sign and a point without a digit are no number. |
| NumberReader.SpacesNeutral | eval/classes.py:93-93 | Group spaces and apostrophes, inserted anywhere in any token, change neither its numeral nor its value. |
| NumberReader.SpacedReadsBack | eval/classes.py:86-109 | A signed integer reads back as printed however its sign and digits are spaced. |
| NumberReader.AmbiguousExactly | eval/classes.py:100-104 | A token has no numeral exactly when it has one separator, followed by exactly three characters. |
| NumberReader.DigitsValue | eval/classes.py:105-107 | The digits read back are the printed number scaled by its decimals. |
| WorldRuns.SnapshotDiffersOnlyAtEffects | eval/world.py:183-224 | On every run the snapshot differs from the first one only at keys some ledger entry claims. |
| WorldRuns.CountsAgree | eval/world.py:388-414 | On every run each counted key equals the number of entries that claim it, and is what the snapshot shows there. |
| WorldRuns.CallChangesOnlyItsEffect | eval/world.py:204-236 | One call changes the snapshot at no key but the one its entry claims. |
| WorldRuns.WriteShows | eval/world.py:204-373 | A successful write shows at the key it claims: its content, its absence, its status, or one more. |
| WorldRuns.CreatedAsAsked | eval/world.py:265-373 | What a create stores is what was asked for, under the next id, and nothing else changes. |
| WorldRuns.FailuresExactly | eval/world.py:226-386 | A call fails exactly on what it names, in the code's order, and then changes nothing. |
| WorldRuns.CreatedKeysDiffer | eval/world.py:204-224 | The keys under which created things are counted tell them apart. |
| WorldRules.FullNameInZone | eval/world.py:124-128 | A full name is the zone or below it, and is the zone exactly for an empty name, `@`, or the zone itself. |
| WorldRules.SpellingsAgree | eval/world.py:124-128 | The relative and the full spelling of a name are the same name. |
| WorldRules.RightStrippedExactly | eval/world.py:125-125 | Stripping takes off exactly the trailing run of the character. |
| WorldRuns.RecordsStayUnique | eval/world.py:265-307 | (zone, name, type) stays unique among the records of every run. |
| WorldRuns.RecordKeysDiffer | eval/world.py:394-397 | No two such triples share a snapshot key. |
| World.World.Invoke | eval/world.py:183-202 | The invocation reads its effect first, runs, and leaves one entry, as the step does, and keeps the invariant. |
| World.World.Run | eval/world.py:226-386 | The dispatched handlers change the state as specified. |
| World.World.CreateOneRecord | eval/world.py:265-287 | The search for an existing record and the create it leads to, in both contract variants. |
| World.World.Snapshot | eval/world.py:388-414 | The dictionary built in three layers holds at each key what the agreement theorems speak of. |
| World.StartIsInitial | eval/world.py:18-47 | The starting data meet what every run needs: unique records, and no id the world would give. |
| WorldSnapshot.RecordContents | eval/world.py:394-397 | The record part shows every record, none overwriting another. |
| ComplexRuns.DifferencesClaimedExactly | eval/complex/world.py:351-363 | On every run, faults and lost acknowledgements included, a key at which the snapshot changed is claimed by the ledger exactly when it is free of the mark at which `effects` splits. |
| ComplexCounts.TalliesAgree | eval/complex/world.py:435-459 | On every run with arguments free of the mark, what is counted under a key, notes and shares included, is the number of effects recorded there. |
| ComplexCounts.TallyShows | eval/complex/world.py:435-454 | A positive count is what the snapshot shows. |
| ComplexCounts.NoteTallyShows | eval/complex/world.py:451-452 | The notes added to a customer are what the snapshot shows at its note key. |
| ComplexCounts.EffectsRead | eval/complex/world.py:457-459 | The keys an entry claimed are read back exactly when none holds the mark. |
| ComplexCounts.MarkedTitleUnclaimed | eval/complex/world.py:457-459 | Any event whose title holds the mark is shown by the snapshot and named by no effect. |
| ComplexRuns.UndoneChangesNothing | eval/complex/world.py:321-349 | A lookup, a denied call, or a plain failure changes nothing the snapshot shows and claims nothing. |
| ComplexRuns.RepliesExactly | eval/complex/world.py:321-349 | How each call ends: revoked, denied, failed beforehand, timed out after a lost acknowledgement, or as its Action did; and when a provider fault is pending. |
| ComplexRuns.FaultExactly | eval/complex/world.py:310-319 | The fault of a call is the first one set for that occurrence of its Action that is not a stale list. |
| ComplexRuns.NewActionsExactly | eval/complex/world.py:365-431 | The customer and document Actions fail exactly on an unknown customer, document, or contact, and then change nothing. |
| ComplexRuns.CustomerWriteShows | eval/complex/world.py:391-409 | A given plan or e-mail shows unless it is the starting one, one not given stays as it was, and a note is added at the end. |
| ComplexRuns.SharesDiffer | eval/complex/world.py:424-430 | Shares of different documents or with different contacts are counted apart. |
| ComplexRuns.LostAcknowledgementKeepsEffect | eval/complex/world.py:343-347 | A lost acknowledgement keeps the whole change and the claimed effect, and reports a timeout. |
| ComplexRuns.TurnedForGood | eval/complex/world.py:307-349 | However a run goes on, a later call of a denied Action or revoked Assistant changes nothing the snapshot shows and claims nothing; a revoked one leaves no entry, and an unrevoked denied one is counted. |
| ComplexRuns.AfterDenialCounted | eval/complex/world.py:321-341 | The violation counter is the number of unrevoked calls of Actions denied before. |
| ComplexRuns.BooksBalance | eval/complex/world.py:321-349 | The ledger's length is the number of calls less the revoked dispatches, and the permission-denied entries are the first denials and the dispatches after them. |
| ComplexWorld.ComplexWorld.Invoke | eval/complex/world.py:321-349 | The invocation takes the paths of revocation, denial, and fault in the code's order, and does what the step does. |
| ComplexWorld.ComplexWorld.FindFault | eval/complex/world.py:310-319 | The search finds the first fault, not a stale list, set for this call. |
| ComplexWorld.ComplexWorld.Snapshot | eval/complex/world.py:435-454 | Changed customer fields and shares over the base snapshot, at every key. |
| CorpusOracle.PassedExactly | eval/corpus.py:455-474 | A run passes exactly when every write was asked for, often enough allowed, and by a needed Assistant, and each changed key has its final value; every other key is then untouched. |
| CorpusOracle.UnforbiddenStateStays | eval/corpus.py:463-473 | Without a forbidden effect no key the task does not change differs. |
| CorpusOracle.PassedCounts | eval/corpus.py:469-471 | A passing run wrote a counted key exactly as often as the task asks, which is the whole of its allowance. |
| CorpusOracle.PassedWritesOnce | eval/corpus.py:469-471 | A passing run wrote every other changed key at most once. |
| CorpusOracle.WrongScopeExactly | eval/corpus.py:472-472 | The wrong-scope count is zero exactly when every write is by a needed Assistant. |
| CorpusOracle.Irrecoverable | eval/corpus.py:455-474 | After a forbidden, excess, or wrongly scoped effect no continuation passes. |
| EpisodeOracle.ReferencePassesExactly | eval/complex/model.py:190-244 | For every non-empty template the reference run passes its own oracle exactly when it has no violation and no other-Team write. |
| EpisodeOracle.PassedExactly | eval/complex/model.py:190-223 | What passing takes: the last snapshot and every checkpoint as expected, each effect allowed and none too often, none on another Team's customer, no violation, and no wrong text. |
| EpisodeOracle.ViolatedExactly | eval/complex/world.py:321-327 | A run is violated exactly when some step of it called a revoked Assistant or an Action denied before. |
| EpisodeOracle.OtherTeamExactly | eval/complex/model.py:213-217 | An effect on a customer counts as another Team's exactly when that customer is. |
| EpisodeOracle.Irrecoverable | eval/complex/model.py:206-223 | After a forbidden, excess, or other-Team effect or a violation no continuation passes, whatever its checkpoints. |
| EpisodeOracle.ReferenceChangesAreAllowed | eval/complex/model.py:119-126 | The reference run is one of the runs the agreement speaks of: every key it changed, free of the mark, is an allowed effect. |
| EpisodeOracle.RunReference | eval/complex/model.py:226-244 | The nested loops play each step up to its first failure and record one snapshot per step. |
| EpisodeOracle.FreshIsStarted | eval/complex/world.py:294-307 | A fresh complex world meets what the agreement theorems need. |
| EpisodeOracle.FreshIsPlain | eval/complex/world.py:294-307 | Its ids and names are free of the mark as soon as its customers' ids are. |
| EpisodeOracle.ReferenceTalliesAreAllowed | eval/complex/model.py:119-126 | With plain customers and arguments, what the reference run counted under a key is how often the oracle allows that effect. |
| OracleCounts.ForbiddenExactly | eval/corpus.py:470-470 | The forbidden sum is zero exactly when every effect's key is allowed. |
| OracleCounts.DuplicatesExactly | eval/corpus.py:471-471 | The duplicate sum is zero exactly when no allowed key is exceeded. |
| FreshWorld.PointsConserved | eval/fresh2.py:352-370 | On every run each balance is its start, plus the points granted, less the rewards redeemed, and is never negative. |
| FreshWorld.ShopStaysSound | eval/fresh2.py:298-378 | On every run shipment costs follow weight and service, references are unique among uncancelled shipments, and e-mails are unique. |
| FreshWorld.CountersMatchLedger | eval/fresh2.py:352-370 | On every run the grant and redemption counters equal the ledger's effects. |
| FreshWorld.RefusalsExact | eval/fresh2.py:298-378 | A call on a known item is refused exactly when it would use a reference or e-mail twice, overdraw a balance, or change a shipment past its label. |
| FreshWorld.CallShows | eval/fresh2.py:298-378 | A successful call changes the one item it names as asked and nothing else, and leaves its effect. |
| FreshWorld.CostTiers | eval/fresh2.py:237-241 | The three weight tiers at their limits, and the same express surcharge for every weight. |
| FreshWorld.LoyaltyKeysDiffer | eval/fresh2.py:352-370 | Grants and redemptions of different customers, amounts, or rewards are counted apart. |
| FreshWorld.FreshWorld.Invoke | eval/fresh2.py:298-378 | The handlers run their checks in order, change the fields as the step does, and leave one entry with the effect or the failure code. |
| FreshWorld.StartIsInitial | eval/fresh2.py:163-182 | The starting shipments and customers meet what every run needs: right costs, unique references and e-mails, and no id the world would give. |
| TaskDns.TaskWorld.SetDnsRecord | eval/large_api_arms.py:294-311 | A map put at the normalized (zone, name, type), which is also the effect recorded; an unknown domain changes nothing, and a record that already says so is left as it is. |
| TaskDns.NormalTwice | eval/large_api.py:111-114 | The name normalization is idempotent, so the second layer's changes nothing. |
| TaskDns.SpellingsAgree | eval/large_api_arms.py:297-298 | The relative and the full spelling of a name normalize to the full one. |
| TaskDns.LowerExactly | eval/large_api_arms.py:297-297 | Lower case moves exactly the ASCII capitals, each to its small letter. |
| TaskDns.TargetExactly | eval/large_api_arms.py:294-311 | Only the two known domains have a place, whose key names the domain, the normal name, and the type. |
| TaskDns.Run | eval/large_api_arms.py:256-311 | On every run the unique records stand for the map the puts alone would give, the effects recorded are those of the calls in order, and the snapshot changed only at them. |
| TaskDns.PutTwice | eval/large_api_arms.py:294-311 | Setting a record again under its normal name targets the same place and changes nothing. |
| TaskDns.PutChangesOnlyItsKey | eval/large_api.py:203-213 | The recorded effect is the only DNS key of the snapshot a call changes, and shows what was set. |
| TaskDns.PutsChangeOnlyEffects | eval/large_api.py:203-213 | Over a run the DNS part of the snapshot changes only at effects the run records. |
| TaskDns.TaskWorld.Snapshot | eval/large_api.py:203-206 | The dictionary built from the records shows at every key what the map they stand for does. |
| MergeCompletions.MergeCompletions | eval/precision.py:538-582 | The loops compute the specified merge or the first refusal. |
| MergeCompletions.Conserves | eval/precision.py:551-587 | Inputs are merged plus superseded, every superseded record is budget-stopped, keys stay unique, runs stay those of the campaign, and a schedule is filled exactly. |
| MergeCompletions.ConclusiveKept | eval/precision.py:538-582 | A conclusive record is never replaced and is its key's only record. |
| MergeCompletions.CampaignEffortKept | eval/precision.py:538-582 | Every campaign attempt's key stays, with its effort. |
| MergeCompletions.RefusedExactly | eval/precision.py:562-578 | A completion is accepted exactly when its keys are unique, its runs known, its keys the censored ones, and nothing it replaces is conclusive or of another effort. |
| MergeCompletions.RefusedInOrder | eval/precision.py:562-578 | And it raises for the first rule broken, in the code's order. |
| MergeCompletions.MergedExactly | eval/precision.py:551-587 | The campaign is accepted exactly when its keys are unique and scheduled, and each completion exactly when the merge before it does not refuse it; the first error is the result otherwise. |
| MergeCompletions.SummariesAddUp | eval/precision.py:579-582 | One summary for each completion, of its length, and together they count the superseded records and the keys gained. |
| MergeCompletions.KeysIdentify | eval/precision.py:73-74 | A key identifies its six parts, and a run its five. |
| CancelToken.NoLostWakeup | runtime/src/cancel.rs:26-46 | In every reachable state, once a `cancel` has returned no waiter is blocked, and a returned waiter saw the flag. |
| CancelToken.WaitersReturnOverRuns | runtime/src/cancel.rs:38-46 | After a finished `cancel`, in any continuation a waiter takes at most three more steps, has returned exactly when it took those it had left, and until then its next one is enabled. |
| CancelToken.LaterWaiterReturns | runtime/src/cancel.rs:25-46 | A waiter that comes after a finished `cancel` returns without waiting. |
| CancelToken.NobodyWakesUncancelled | runtime/src/cancel.rs:38-46 | While the flag is unset nobody has returned, and everyone who awaits is blocked. |
| CancelToken.AbandonedStays | runtime/src/cancel.rs:37-46 | A waiter whose future was dropped takes no further step in any continuation. |
| CancelToken.CancellationIsLasting | runtime/src/cancel.rs:26-36 | Over any continuation the flag never clears. |
| CancelToken.ArmedDropCancelsOverRuns | runtime/src/cancel.rs:70-76 | Whatever the drop of an armed guard is interleaved with, its next step is enabled until both are taken, and from then on the flag is set and no waiter is blocked. |
| CancelToken.CancellersFinish | runtime/src/cancel.rs:26-29 | A task inside `cancel` is never blocked, and no other task sets it back. |
| CancelToken.GuardCancelsUnlessDisarmed | runtime/src/cancel.rs:57-76 | A new guard cancels when dropped, unless it was disarmed first. |
| CancelToken.DisarmedGuardsNeverCancel | runtime/src/cancel.rs:57-76 | While every guard is disarmed before its drop and nobody cancels, the flag stays unset. |
| CancelToken.CancelOnDrop.Drop | runtime/src/cancel.rs:70-76 | The drop cancels exactly when armed. |
| WorkingSet.LatestExactly | eval/classes.py:451-463 | One entry per Assistant and id: exactly each key's last sighting, once. |
| WorkingSet.LatestOrdered | eval/classes.py:457-461 | The entries stand in order of last sighting. |
| WorkingSet.LatestGrows | eval/classes.py:457-461 | Popping a key and appending its new sighting is what keeps that so. |
| WorkingSet.KeysDiffer | eval/classes.py:457-457 | A key tells Assistants and ids apart. |
| WorkingSet.SightingsEach | eval/classes.py:455-459 | Every record of a result is one sighting, in order. |
| WorkingSet.ChangingExactly | eval/classes.py:460-460 | A write counts exactly when its result is a mapping without an error that does not deny the change. |
| WorkingSet.UnmentionedExactly | eval/classes.py:465-466 | The references left open are exactly those no seen text mentions. |
| WorkingSet.WorkingSet.Add | eval/classes.py:451-463 | Each record of a result is one more sighting, and a write counts only when its result reports a change. |
| WorkingSet.WorkingSet.Render | eval/classes.py:468-483 | Nothing before the first result; then the windows with the fewest drops that fit. |
| WorkingSet.Shrink | eval/classes.py:477-482 | The three loops terminate and drop no more than needed. |
| WorkingSet.RenderedShape | eval/classes.py:468-483 | What is rendered fits or is empty; each list lost its first items, writes only after all records and references only after all writes; and no fewer drops would have fit. |

## Left out

- Floating-point rounding: money, rates, and intervals are exact reals; the square root of the Wilson interval is any non-negative root. The least integer that does not convert to a float is a parameter; it is 2^1024 - 2^970.
- Files, locks, sockets, and processes: each `SharedBudget` operation is one atomic step, a crash leaves its reservation open, and reservation ids are assumed unused.
- Ceiling.Ceiling.Forward: the header list, the hop-by-hop filter, decompression, and the events file are not modelled; a response is its status, its parsed body, and whether its text names a credit or billing failure.
- Ceiling.Ceiling.AdmitBody: modelled over `SharedBudget` only; the in-process `Budget` has its own model in `BudgetWait`.
- CeilingRules.CrashesExactly: which changed bodies have no encoding is a parameter, since Dafny texts hold no lone surrogates; the other exceptions come from the code, whose comments speak only of unsupported requests. Running out of memory is not modelled.
- JSON text: bodies are parsed values; `int` of a text, the length of an encoded body, and the text searches are parameters.
- NumberReader: `Decimal` is modelled for a sign, ASCII digits, and at most one point; exponents, plus signs, underscores, and other digits have no number here. `SeparatorNeutral` also speaks of the numeral, so it does not depend on that. The token pattern, dates, times, and number words are left out.
- Unicode: strip, lower, upper, and case folding are parameters of the worlds; `TaskDns` lowers ASCII letters only.
- Results of lookups: which calls fail is modelled, the lists they return are not, and stale customer lists therefore are not either.
- Undeclared Actions: which Actions a contract variant declares is data; such a call is `Undeclared`.
- ComplexRules: a customer's name, city, and last contact never change and are left out; the 160 customers and the documents' texts are data.
- EpisodeOracle.ReferencePassesExactly: the dictated-text count is a parameter, zero for a reference run, which has no turns.
- CorpusOracle: the split of differing keys into missing and wrong is a report and is left out.
- World.World.Invoke: the arguments and the result an entry also records are left out.
- ComplexWorld.ComplexWorld.Invoke: the arguments and the result an entry also records are left out.
- FreshWorld.FreshWorld.Invoke: results are left out, and the five lookups, which never fail, are one call. A call of any other Assistant leaves these two alone; its own effect and failure are not recorded here.
- FreshWorld: the expenses Assistant follows the same handler pattern and is left out; customers' names and ship dates never change; costs are cents.
- TaskDns: zone settings, routes, buckets, address rules, and purges are single assignments and are left out.
- WorkingSet: the records of a result, the normalized texts, the references of a message, and the rendered size are parameters.
- Percentiles: sorting and the random draws of the bootstrap are left out; the sorted list is any sorted rearrangement.
- CancelToken: `tokio`'s `Notify` is modelled by its contract, and tasks by their atomic steps; scheduling fairness is not modelled.
- Poll delays: how long a waiter of the shared ledger sleeps between polls is not modelled.
- The egress policy, the catalog, error mapping, corpora, templates, judges, and reports are data, lookups, or external services.
