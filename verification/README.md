# wattwise billing engine in Dafny

This project models the billing engine of wattwise, a utility-billing bot for
landlords. It covers two generations of the engine: the older `app/` tree and
the newer `src/app/` tree.

## What is modelled

- **Calculation primitives** (module `Calculations`).
  - `calculate_consumption` has a meter-reset rule: if the reading went down, consumption is 0. Otherwise it subtracts an adjustment and applies no floor.
  - `calculate_cost` is exact multiplication.
  - Decimals are Dafny `real`, which is exact, as Python `Decimal` arithmetic is on these values.
- **Dates** (module `Dates`).
  - A `Date(year, month, day)` uses Python's date order and the Gregorian month lengths.
  - `period - relativedelta(months=1)` is `PrevMonth`, which clamps the day.
  - `date - timedelta(days=1)` is `PrevDay`.
  - `period.replace(day=1)` is `FirstOfMonth`.
- **Entities and tables** (module `Models`).
  - Tenants, meters, readings, tariffs, invoices, adjustments and deduction links.
  - Each table is a sequence in storage order, together with the uniqueness constraints the database declares.
  - The meter carries the older tree's optional `subtract_from` link, and the tariff carries an optional rate type.
- **Reading lookup** (module `ReadingRepository`). `get_for_period` is a range filter followed by a stable sort on the period. With (meter, period) uniqueness, an equal-bounds query returns at most one row. `PeriodReading` is the `[0]` the billing code takes of it.
- **Tariff resolution** (module `TariffRepository`). `find_for_date` returns the first tariff of the meter whose inclusive window contains the date; a missing end leaves the window open.
- **Per-meter billing, completeness check and rate-type totals** (module `MeterBilling`).
  - `_bill_meter` fails, in this order, on a missing current reading, a missing previous reading and a missing tariff.
  - `completeness_check` reports the same three facts without failing.
  - `aggregate_costs_by_rate_type` is a loop over a map.
- **Newer subtraction** (module `Subtraction`). `_adjust_for_subtraction` visits the sub-meters in order. For each one it lowers its parent's consumption by the sub-meter's consumption, re-prices the parent at the parent's rate, and lowers the parent's final cost by the difference. It can fail on an unknown parent or on a rejected recalculation.
- **Older subtraction** (module `LegacyBilling`). The older `_adjust_for_subtraction` deducts each sub-meter's consumption priced at its parent's rate from the parent's cost. It has no rejection path.
- **Invoices and the adjustment ledger** (module `Invoicing`).
  - The newer `generate_invoice` upserts on (tenant, first of month).
  - The older `generate_invoice` creates the invoice, and a second run for the same month violates the unique key.
  - `add_adjustment` and `list_adjustments` form the ledger.
- **Tariff history** (module `TariffHistory`). The tariff dialogue of the admin bot:
  - the first-of-month check on the start date;
  - the confirmation step, which refuses a start that is not after the open tariff's start, closes the open tariff on the day before, and appends a new open tariff;
  - the (name, rate) template dedupe.
- **Worked examples** (module `Scenarios`). The repository's tests, and a few more examples, as concrete lemmas.

Failures are values of `Results.Result`, and each `raise BillingError(...)` in the source is a distinct `Error` constructor. Database keys are `nat`. A new row's key is a parameter (`newId`) or the store's `nextInvoiceId`.

Where the two trees differ and the model follows the code:

- `Meter.subtract_from` is taken from the older model file, because the newer service reads it.
- The rate type follows the migration that added it. The latest migration drops the column, and the newer model file has no such field.
- `recalculate_consumption_after_subtraction` is imported by the newer service, but its body is not part of this model. `Subtraction.RecalculateAfterSubtraction` assumes it returns `parent - child` and rejects a negative remainder.
- Looking up an unknown parent meter raises `KeyError` in both trees. The model keeps this as `UnknownParentMeter`, which is separate from the `BillingError` family. So the older subtraction fails only in that case.
- The newer `_bill_meter` passes no manual adjustment to `calculate_consumption`, so a reading's `manual_adjustment` never reaches an invoice. The newer test that expects 2200 does not hold for the code as written. `Scenarios.ManualAdjustmentIsNotApplied` proves both the test's arithmetic and the as-written result, 6200.

## Model

| member | source | states |
|---|---|---|
| Calculations.CalculateConsumption | src/app/core/calculations.py:8-32 | a reading that went down gives 0; otherwise the result plus the adjustment is exactly current minus previous |
| Calculations.CalculateCost | src/app/core/calculations.py:35-46 | zero consumption or zero rate cost nothing; non-negative inputs give a non-negative cost |
| Calculations.DefaultAdjustmentIsNonNegative | src/app/core/calculations.py:11-32 | with the default adjustment the consumption is never negative, and it is 0 exactly when current does not exceed previous |
| Calculations.ResetIgnoresAdjustment | src/app/core/calculations.py:25-29 | after a reset the adjustment has no effect |
| Calculations.AdjustmentIsSubtractedExactly | src/app/core/calculations.py:31-32 | raising the adjustment by k lowers the consumption by exactly k, with no floor |
| Calculations.CostOfDifference | src/app/core/calculations.py:46 | pricing a difference equals the difference of the prices |
| Dates.FirstOfMonth | src/app/services/billing.py:88 | the first day of the same month, not after the date |
| Dates.PrevMonth | src/app/services/billing.py:141 | a valid earlier date in the month before, with the day clamped to that month's length |
| Dates.PrevDay | src/app/bots/tg/handlers/admin.py:399 | a valid date strictly before the given one |
| Dates.NoDayBetween | src/app/bots/tg/handlers/admin.py:399 | a date is on or before the previous day exactly when it is before the day |
| Models.FindTenant | src/app/services/billing.py:69-71 | a tenant with the key when one is stored, and none exactly when no row has it |
| Models.TenantMeters | src/app/services/billing.py:73-77 | exactly the stored meters of the tenant, which keep distinct keys |
| ReadingRepository.SelectKeepsMatches | src/app/core/repositories/reading.py:22-23 | the filter keeps every in-range reading of the meter as often as it is stored, and nothing else |
| ReadingRepository.InsertAddsOne | src/app/core/repositories/reading.py:24 | insertion adds exactly the inserted row |
| ReadingRepository.InsertKeepsOrder | src/app/core/repositories/reading.py:24 | insertion into a list sorted by period keeps it sorted |
| ReadingRepository.SortByPeriodSorts | src/app/core/repositories/reading.py:24 | the ordering is sorted by period and a permutation of its input |
| ReadingRepository.GetForPeriodIsExact | src/app/core/repositories/reading.py:18-24 | every returned reading is the meter's and in range, every such stored reading is returned with its multiplicity, and the result is sorted |
| ReadingRepository.EqualBoundsFinds | app/core/repositories/reading.py:18-24 | an equal-bounds query is non-empty exactly when the meter has a reading for that period, and returns only such readings |
| ReadingRepository.EqualBoundsAtMostOne | src/app/core/models.py:77-78 | with (meter, period) uniqueness an equal-bounds query returns at most one reading |
| ReadingRepository.SelectAtMostOne | app/core/models.py:66-67 | with uniqueness the equal-bounds filter keeps at most one row |
| ReadingRepository.PeriodReading | src/app/services/billing.py:143-150 | a reading is found exactly when one is stored for the meter and period, and it is a stored one |
| ReadingRepository.PeriodReadingIsTheStoredOne | src/app/services/billing.py:165-168 | with uniqueness, the reading taken is the stored one for that meter and period |
| TariffRepository.FindForDate | app/core/repositories/tariff.py:20-26 | the result is a stored tariff of the meter whose inclusive window holds the date; none exactly when no tariff matches |
| TariffRepository.SeparatedWindowsShareNoDate | app/core/repositories/tariff.py:24-25 | two windows one of which ends before the other starts hold no common date |
| TariffRepository.FindForDateUnique | app/core/repositories/tariff.py:22-26 | with disjoint windows the first match is the only match, so the storage order does not matter |
| TariffRepository.OpenTariffCoversFuture | app/core/repositories/tariff.py:25 | an open-ended tariff is active exactly on the dates from its start onward |
| MeterBilling.BillMeter | src/app/services/billing.py:139-173 | a success prices the meter with a matching stored tariff; a failure is one of the three missing-data errors |
| MeterBilling.BillMeterFailsInOrder | app/services/billing.py:107-141 | each failure happens exactly when its fact is missing and the earlier facts are present; a success consumes the period's and the previous month's readings with no adjustment |
| MeterBilling.BillMeterPricesStoredFacts | src/app/services/billing.py:159-172 | with the stored current and previous readings and a matching tariff, the result is consumption without adjustment priced at that tariff |
| MeterBilling.BillAll | src/app/services/billing.py:77-79 | on success one result per meter; a failure is a missing-data error |
| MeterBilling.BillAllSucceedsIff | src/app/services/billing.py:75-79 | all meters bill exactly when each one does, and result k is meter k's bill |
| MeterBilling.BillAllFailsOnFirstFailure | src/app/services/billing.py:77-78 | a failure is the error of the first meter that fails, all earlier ones succeeding |
| MeterBilling.MeterIssues | src/app/services/billing.py:242-263 | at most three issues per meter, in check order |
| MeterBilling.MeterIssuesReportMissingFacts | src/app/services/billing.py:244-263 | each issue is reported exactly when its fact is missing, and no other issue appears |
| MeterBilling.MeterIssuesAreBillMeterFailures | src/app/services/billing.py:224-265 | a meter has no issue exactly when it bills, and its first issue is the billing error |
| MeterBilling.AllIssues | src/app/services/billing.py:242-265 | at most three issues per meter, and none exactly when every meter bills |
| MeterBilling.CompletenessCheck | src/app/services/billing.py:233-265 | an unknown tenant gives exactly one issue; otherwise no issue exactly when every meter of the tenant bills |
| MeterBilling.RateTypesOccur | src/app/services/billing.py:219-220 | a key is grouped exactly when some result's rate type maps to it |
| MeterBilling.AbsentRateTypeCostsNothing | src/app/services/billing.py:219-221 | a key no result has totals nothing |
| MeterBilling.CostOfRateTypeGrows | src/app/services/billing.py:221 | one more result adds its cost to its own key only |
| MeterBilling.AggregateCostsByRateType | src/app/services/billing.py:213-222 | the keys are exactly the rate types that occur, each mapped to the sum of its results' costs |
| Subtraction.IndexOf | src/app/services/billing.py:108 | the position of a result of the meter; none exactly when no result is of that meter |
| Subtraction.IndexOfDistinct | src/app/services/billing.py:108 | with distinct meters the found position is the meter's only position |
| Subtraction.IndexOfSameMeters | src/app/services/billing.py:130-135 | rewriting results in place keeps every lookup |
| Subtraction.SumUpdate | src/app/services/billing.py:127 | changing one final cost changes the sum by the difference |
| Subtraction.Costs | src/app/services/billing.py:98-100 | the starting final costs are the billed costs, position by position |
| Subtraction.RecalculateAfterSubtraction | src/app/services/billing.py:110-117 | accepted exactly when the child does not exceed the parent, with a non-negative remainder that adds back to the parent |
| Subtraction.SubMeters | src/app/services/billing.py:103 | exactly the results that subtract from a parent |
| Subtraction.SubtractOne | src/app/services/billing.py:104-135 | one step keeps the costs aligned with the results, or fails on an unknown parent or a rejected recalculation |
| Subtraction.SubtractAll | src/app/services/billing.py:104-135 | the loop keeps the costs aligned, or fails with one of the two step errors |
| Subtraction.AdjustForSubtraction | src/app/services/billing.py:92-137 | on success the total is the sum of the rewritten results' costs |
| Subtraction.SubtractAllKeepsCostsInStep | src/app/services/billing.py:126-135 | after every step each final cost equals its result's cost |
| Subtraction.SubtractAllRewritesParents | src/app/services/billing.py:104-135 | a parent ends with its consumption less all its sub-meters' consumptions, re-priced at its own rate; any other result and cost is untouched |
| Subtraction.FirstTurnRewritesParent | src/app/services/billing.py:105-135 | one step rewrites only the sub-meter's parent, lowering its consumption by the sub-meter's and re-pricing it |
| Subtraction.IsParentInCons | src/app/services/billing.py:104-105 | a meter is a parent in a list exactly when the head or the rest names it |
| Subtraction.SubtractOneShiftsSteps | src/app/services/billing.py:104-117 | after the first step, later steps succeed or fail just as they would have before it |
| Subtraction.FirstStepDecides | src/app/services/billing.py:105-117 | the first step succeeds exactly when its parent is billed and covers the child, and otherwise fails with that error |
| Subtraction.SubtractAllSucceedsIff | src/app/services/billing.py:104-117 | the loop succeeds exactly when every step is acceptable |
| Subtraction.SubtractAllFailsAtFirstBadStep | src/app/services/billing.py:104-117 | a failure is the error of the first step that is not acceptable |
| Subtraction.AdjustForSubtractionRewritesParents | src/app/services/billing.py:129-135 | the returned results are the billed results with every parent re-priced on its remaining consumption, and the rest unchanged |
| Subtraction.AdjustForSubtractionRunsLoop | src/app/services/billing.py:96-137 | the operation is the sub-meter loop started from the billed costs, returning its results and the sum of its costs |
| Subtraction.AdjustForSubtractionSucceedsIff | src/app/services/billing.py:103-117 | the subtraction succeeds exactly when every sub-meter step is acceptable |
| Subtraction.AdjustForSubtractionFailsAtFirstBadStep | src/app/services/billing.py:107-117 | a failure is the error of the first unacceptable sub-meter step |
| LegacyBilling.LegacySubtractAll | app/services/billing.py:91-102 | one final cost per result, or a failure on an unknown parent |
| LegacyBilling.LegacyAdjustForSubtraction | app/services/billing.py:83-105 | the only failure is an unknown parent |
| LegacyBilling.LegacySubtractAllTotal | app/services/billing.py:91-105 | the loop succeeds exactly when every sub-meter's parent is billed, and then the sum drops by each sub-meter's consumption at its parent's rate; a failure names an unbilled parent |
| LegacyBilling.LegacyAdjustTotal | app/services/billing.py:83-105 | the total is the billed costs less every sub-meter's consumption at its parent's rate, with no floor; the only failure is an unknown parent |
| LegacyBilling.DeductionsOfSubMeters | app/services/billing.py:91-92 | only sub-meters contribute a deduction |
| LegacyBilling.SubtractOneKeepsShape | src/app/services/billing.py:105-135 | a newer step finds the parent and keeps every result's meter, tariff and pricing |
| LegacyBilling.SubtractOneDeducts | src/app/services/billing.py:119-127 | a newer step lowers the sum of final costs by the sub-meter's consumption at the parent's rate |
| LegacyBilling.NewerLoopDeducts | src/app/services/billing.py:104-137 | the newer loop lowers the sum by exactly the older deductions, and all parents are billed |
| LegacyBilling.NewerTotalIsBilledLessDeductions | src/app/services/billing.py:92-137 | a newer success totals the billed costs less the older deductions |
| LegacyBilling.SameTotalWhenNewerSucceeds | app/services/billing.py:83-105 | when the newer subtraction succeeds on priced results, the older one returns the same total |
| Invoicing.InvoiceIndex | src/app/services/billing.py:191-193 | the first invoice with the key; none exactly when no invoice has it |
| Invoicing.KeyIndex | src/app/services/billing.py:85-89 | the first invoice of the (tenant, period); none exactly when there is none |
| Invoicing.UpsertInvoice | src/app/services/billing.py:85-89 | the returned invoice has the key and the amount and is stored; no other table changes |
| Invoicing.UpsertKeepsOneInvoicePerKey | src/app/core/models.py:114-115 | the upsert keeps keys unique, leaves one invoice for its key, keeps every other invoice, and grows the table only for a new key |
| Invoicing.UpdatedTableKeepsKeys | src/app/core/models.py:114-115 | changing an invoice's amount in place keeps the keys unique |
| Invoicing.AppendedTableKeepsKeys | src/app/core/models.py:114-115 | appending an invoice with a new key and a fresh id keeps the keys unique |
| Invoicing.UpsertIsIdempotent | src/app/services/billing.py:85-89 | repeating an upsert changes nothing |
| Invoicing.CreateInvoice | app/services/billing.py:76-80 | fails exactly when the (tenant, period) already has an invoice; otherwise appends a fresh invoice |
| Invoicing.CreateIsUpsertOnNewKey | app/services/billing.py:76-80 | for a new key create and upsert agree |
| Invoicing.GenerateInvoice | src/app/services/billing.py:55-90 | the invoice is the tenant's for the first of the month, its amount is the sum of the adjusted costs, one result per meter, and only invoices change |
| Invoicing.GenerateInvoiceSucceedsIff | src/app/services/billing.py:69-82 | success exactly when the tenant exists, every meter bills and the subtraction succeeds; an unknown tenant fails first, then a billing failure is passed on |
| Invoicing.GenerateInvoiceIsIdempotent | src/app/services/billing.py:85-89 | running again on the resulting store gives the same run and store |
| Invoicing.LegacyGenerateInvoice | app/services/billing.py:52-81 | a new invoice for the first of the month is appended and nothing else changes; failures are billing errors, an unknown parent or a duplicate |
| Invoicing.LegacyRerunIsRefused | app/core/models.py:98-99 | running the older version twice for one month is refused as a duplicate |
| Invoicing.BilledResultsArePriced | src/app/services/billing.py:165-172 | every billed result's cost is its consumption times its tariff's rate |
| Invoicing.VersionsAgreeOnNewMonth | app/services/billing.py:52-81 | for a month with no invoice yet, both versions store the same invoice |
| Invoicing.AdjustmentsOf | src/app/services/billing.py:210-211 | exactly the adjustments recorded against the invoice |
| Invoicing.AdjustmentsOfAppend | src/app/services/billing.py:197-199 | filtering distributes over appending |
| Invoicing.AddAdjustment | src/app/services/billing.py:191-203 | fails exactly when the invoice does not exist |
| Invoicing.ListAdjustments | src/app/services/billing.py:205-211 | fails exactly when the invoice does not exist, and otherwise lists exactly its adjustments |
| Invoicing.AddAdjustmentEffect | src/app/services/billing.py:195-203 | exactly one record is appended, that invoice's amount rises by exactly the amount, and every other invoice and table is unchanged |
| Invoicing.AddThenList | src/app/services/billing.py:197-211 | after adding, the invoice's list gains exactly the new record at the end, and other invoices' lists do not change |
| Invoicing.AddAdjustmentKeepsBaseAmount | src/app/services/billing.py:195-203 | an invoice's amount less its adjustments does not change |
| Invoicing.RegenerateDropsAdjustments | src/app/services/billing.py:85-89 | regenerating after an adjustment resets the amount to the computed total, while the adjustment stays recorded |
| TariffHistory.CheckStartDate | src/app/bots/tg/handlers/admin.py:348-353 | accepts exactly a first-of-month date |
| TariffHistory.OpenTariffIndex | src/app/bots/tg/handlers/admin.py:386-388 | the first open tariff of the meter; none exactly when the meter has no open tariff |
| TariffHistory.ConfirmTariff | src/app/bots/tg/handlers/admin.py:381-408 | a refusal means an open tariff starting no earlier than the new start; a success appends the new open tariff |
| TariffHistory.CreateTariff | src/app/bots/tg/handlers/admin.py:348-408 | a start not on the first of a month is refused before anything else |
| TariffHistory.ConfirmRefusedIff | src/app/bots/tg/handlers/admin.py:390-397 | refused exactly when there is an open tariff whose start is not before the new start |
| TariffHistory.ConfirmTouchesOnlyMeter | src/app/bots/tg/handlers/admin.py:386-408 | other meters' tariffs and closed tariffs are unchanged; the only change is closing on the day before the start |
| TariffHistory.OthersEndBeforeOpen | app/core/repositories/tariff.py:22-26 | in a disjoint history every other tariff of the meter ends before the open one starts |
| TariffHistory.ConfirmKeepsHistory | src/app/bots/tg/handlers/admin.py:391-408 | disjoint windows with an open tariff stay so for the meter, and other meters' disjointness is kept |
| TariffHistory.PrevDayIsLast | src/app/bots/tg/handlers/admin.py:399 | the closing day is before the new start |
| TariffHistory.NewTariffGovernsFromStart | src/app/bots/tg/handlers/admin.py:399-408 | from the new start onward the lookup finds the new tariff |
| TariffHistory.KeptRowsMatchAsBefore | src/app/bots/tg/handlers/admin.py:399-408 | before the new start each kept row matches as before with the same key and rate, and the new row matches nothing |
| TariffHistory.EarlierDatesResolveAsBefore | src/app/bots/tg/handlers/admin.py:399-408 | before the new start the lookup finds a tariff exactly when it did, with the same key and rate |
| TariffHistory.ClosedAndNewWindowsAreAdjacent | src/app/bots/tg/handlers/admin.py:399-406 | the closed and the new window together cover the old open window, without overlapping |
| TariffHistory.CreateKeepsFirstDayStarts | src/app/bots/tg/handlers/admin.py:348-353 | if every start is a first of month, it still is after a creation |
| TariffHistory.ClosedOnlyHistoryCanOverlap | src/app/bots/tg/handlers/admin.py:385-390 | a meter whose tariffs are all closed is not checked, so a new tariff can overlap a closed window |
| TariffHistory.TemplatesHaveDistinctKeys | src/app/bots/tg/handlers/admin.py:273-277 | no two templates share a (name, rate) |
| TariffHistory.TemplatesCoverEveryKey | src/app/bots/tg/handlers/admin.py:274-277 | every (name, rate) among the tariffs has a template |
| TariffHistory.TemplatesKeepFirstOfKey | src/app/bots/tg/handlers/admin.py:276-277 | each template is the first tariff with its (name, rate) |
| TariffHistory.DedupeTemplates | src/app/bots/tg/handlers/admin.py:271-277 | the loop returns one template per (name, rate), the first of each, in first-seen order |
| Scenarios.ConsumptionTable | tests/test_calculations.py:12-18 | the six consumption cases of the tests, including the negative result |
| Scenarios.CostTable | tests/test_calculations.py:28-32 | the four cost cases of the tests |
| Scenarios.SimpleInvoiceIs1050 | tests/test_billing_service.py:28-54 | one meter from 4000 to 4100 at 10.5 invoices 1050 in both versions |
| Scenarios.SubMeterInvoiceIs1050 | app/tests/test_billing_service.py:58-94 | parent and sub-meter invoice 4000 + 1050 - 4000 = 1050 in both versions |
| Scenarios.SubMeterStoreBills | app/tests/test_billing_service.py:62-79 | the parent bills 100 units at 40.0 and the sub-meter 100 units at 10.5 |
| Scenarios.ParentAndSubTotals | app/tests/test_billing_service.py:81-86 | both subtractions total the sub-meter's cost when the parent's consumption is all the sub-meter's |
| Scenarios.LegacyParentCostGoesNegative | app/services/billing.py:96-102 | the older version drives the parent's cost negative where the newer one refuses |
| Scenarios.ManualAdjustmentIsNotApplied | tests/test_billing_service.py:58-101 | the test's arithmetic gives 2200, but the code as written invoices 6200 |
| Scenarios.DeductionLinkIsNotBilled | tests/test_billing_service.py:103-104 | the linked sub-tenant's invoice is 1050 |
| Scenarios.LedgerExample | src/app/services/billing.py:175-211 | +50 on the 1050 invoice gives 1100 and is listed; an unknown invoice is refused |
| Scenarios.CompletenessExample | src/app/services/billing.py:233-256 | a missing June reading is the one issue; an unknown tenant is one issue |
| Scenarios.TariffChangeExample | src/app/bots/tg/handlers/admin.py:348-408 | a July tariff closes the January one on 30 June; mid-month and not-later starts are refused |
| Scenarios.TemplatesExample | src/app/bots/tg/handlers/admin.py:271-277 | two tariffs alike in name and rate give one template, the first |

## Left out

- The Telegram UI, the conversation states, the keyboards, the access middleware and the bot wiring. They are message I/O, and only the tariff-history logic of the admin handlers is modelled.
- PDF export. Its per-rate-type totals repeat `aggregate_costs_by_rate_type`, which is modelled once.
- The scheduler, the summary handler and the invoice handlers. They are loops over I/O around `generate_invoice`.
- The display helpers: month names and the period keyboard.
- The deduction-link screens. Links never feed billing.
- The ORM plumbing, migrations, configuration and database setup. Each ORM query is modelled by the filter it performs.
- Storage quantisation of decimals to `DECIMAL(10,2)` and `DECIMAL(10,4)`. Also the parsing of user input with `Decimal(text)` and `strptime`; the model works on parsed values.
- `async`/`await`. Every call is sequential, and concurrent writers are not modelled.
- `recalculate_consumption_after_subtraction`: its body is not part of this model. `Subtraction.RecalculateAfterSubtraction` assumes it rejects a negative remainder and otherwise returns `parent - child`.
- The reading upsert of the reading handler. The (meter, period) uniqueness of `Models.ReadingsUnique` stands for it.
- The dictionary `billing_results`, keyed by meter. It is a sequence in the tenant's meter order, with distinct meters where a lemma needs that.
- TariffHistory.ConfirmKeepsHistory: it assumes the meter has an open tariff whenever it has any tariff. The confirmation checks nothing when all the meter's tariffs are closed, and `TariffHistory.ClosedOnlyHistoryCanOverlap` exhibits the overlap that follows.
- The user-facing message texts of errors and issues. Each is a constructor carrying the meter, the period or the key it names.
