# WCS Tax Retrofit, modelled in Dafny

WCS Tax Retrofit is a WordPress plugin. It rewrites WooCommerce
subscriptions whose line totals were entered tax-inclusive, with no tax
line. For each line it finds a pre-tax amount `ht = round2(ttc / (1 + rate))`
and a tax part `tax = round2(ttc - ht)`. It processes the subscriptions in
batches of 100: it checks each record, replaces its positive lines inside a
transaction, and rolls back when the new total drifts. Around the batch it
keeps a lock, a resume offset and an export buffer. A WP-CLI `simulate` and
`migrate` command and an admin page drive the batches.

This project models that core in Dafny and proves properties of the model:

- `money.dfy` (module `Money`) holds exact money arithmetic. Amounts are
  integers in 1/10000 of a euro and a rate is a natural number of millionths.
  PHP's `round(x, 2)` is modelled as round-half-away-from-zero. The tolerance
  is an exact decimal `m / 10^e`.
- `validators.dfy` (module `Validators`) holds the validators: PHP values as a
  `Mixed` datatype, and the numeric, tolerance, status-list and date checks.
- `locator.dfy` (module `Locator`) holds the tax-rate locator's two queries
  over a rate table.
- `config.dfy` (module `Config`) holds the configuration priority chains. They
  are pure functions of an environment `Env` (saved options, filter results,
  rate table, detected date, today). The `Resolver` class models their
  `static` caches.
- `records.dfy` (module `Records`) holds the subscription class (mutable
  totals, items and notes) and the item loop as a value (`ScanLines`). It
  also holds the rebuilt item list and its sums.
- `processor.dfy` (module `Processor`) holds the batch processor. The
  per-record decision is a function `Decide`. `ProcessRecord` and
  `ProcessPage` are imperative and proved against it. The counters and lists
  of `$stats` are a `Tally`. The persisted options live in the `Store` class,
  whose `Process` method is `wc_tax_retrofit_process`.
- `orchestration.dfy` (module `Orchestration`) holds the WP-CLI `simulate`
  loop.
- `migration.dfy` (module `Migration`) holds the WP-CLI `migrate` loop and the
  admin page's one-batch-per-click migration step with its bookkeeping. It
  also holds the resume-freshness test and the full reset.

The caller's environment becomes parameters:

- the dependency check is `depsOk`;
- the store's `calculate_totals`/`save` is a function `recalc` from the
  subscription id and its new items to new totals or an exception;
- the clock is `now`;
- the date written into export rows is `stamp`;
- the acting user is `actor`;
- the backup confirmation of `migrate` is `backupConfirmed`.

The CLI `migrate` command after an interrupted run, as written: it is called
with offset 0, so its first batch resumes from the saved offset S. Every
later batch then runs at 100, 200, …, because the loop adds 100 to its own
counter and not to the offset the batch reports. So after a resume from S
the later batches cover the eligible list from offset 100 on
(`Migration.ResumedRunRevisits`): the subscriptions from offset 100 up to
S + 100 are fetched a second time, and those from S + 100 on once. A
revisited record that was committed with a tax above 0.01 is counted as
skipped and left unchanged (`Processor.MigratedRecordsUntouched`,
`Processor.SecondRunSkips`). The others are decided again: a record
committed with a tax of 0.01 or less passes the guard at
wcs-tax-retrofit.php:757 and may be rewritten a second time, and a record
that was skipped for a drift or failed on the first visit is tried again.
The admin page continues from the reported offset plus 100 and does not do this
(`Migration.StepWithMoreResumable`).

## Model

| member | source | states |
|---|---|---|
| Money.RoundHalfAway | wcs-tax-retrofit.php:772-773 | the result is the integer nearest to a/b, and a tie is rounded away from zero, for either sign of a |
| Money.Round2 | wcs-tax-retrofit.php:772-773 | round(x, 2) gives a whole number of cents, non-negative for a non-negative x |
| Money.PreTax | wcs-tax-retrofit.php:772 | the pre-tax part of a line is a whole number of cents, and non-negative when ttc is |
| Money.TaxPart | wcs-tax-retrofit.php:773 | the tax part of a line is a whole number of cents |
| Money.TaxPartNearDifference | wcs-tax-retrofit.php:773-775 | for any ht, round2(ttc − ht) puts ht + tax within half a cent of ttc |
| Money.Drift | wcs-tax-retrofit.php:775 | defines the rounding drift of a line; its properties are stated by the DriftAtMostHalfCent, WholeCentsSplitExactly and ExampleSubCentDrift rows |
| Money.DriftAtMostHalfCent | wcs-tax-retrofit.php:772-775 | the rounding drift \|ht + tax − ttc\| of any line split is at most half a cent |
| Money.WholeCentsSplitExactly | wcs-tax-retrofit.php:772-777 | a whole-cent inclusive total splits with ht + tax == ttc and no drift, at every rate |
| Money.AtLeast | wcs-tax-retrofit.php:777 | defines the `>= $tolerance` test; its properties are stated by the AtLeastExact, ZeroBelowPositive and MinimumToleranceThreshold rows |
| Money.AtLeastExact | wcs-tax-retrofit.php:777 | comparing a drift with the tolerance through the integer threshold is the same as comparing it with the exact decimal |
| Money.ZeroBelowPositive | wcs-tax-retrofit.php:777 | a zero drift never reaches a positive tolerance |
| Money.MinimumToleranceThreshold | wcs-tax-retrofit.php:130 | the smallest admitted tolerance, 0.001, is reached by a drift of 0.001 or more and by nothing smaller |
| Money.ExampleThirtyAtTwenty | wcs-tax-retrofit.php:1726 | the page's worked example: 30.00 at 20 % splits into 25.00 + 5.00 |
| Money.ExampleTenAtTwenty | wcs-tax-retrofit.php:772-773 | 10.00 at 20 % splits into 8.33 + 1.67 |
| Money.ExampleTenOneAtTwenty | wcs-tax-retrofit.php:772-773 | 10.01 at 20 % splits into 8.34 + 1.67 |
| Money.ExampleTenOneAtFivePointFive | wcs-tax-retrofit.php:772-775 | 10.01 at 5.5 % splits into 9.49 + 0.52 with no drift |
| Money.ExampleSubCentDrift | wcs-tax-retrofit.php:772-777 | a sub-cent line total 0.005 splits into 0.01 − 0.01, drifts by half a cent and reaches the tolerance 0.001 |
| Validators.DigitsValueAppend | wcs-tax-retrofit.php:303-307 | the value of two digit strings put together is the first shifted by the length of the second, plus the second |
| Validators.DotIndex | wcs-tax-retrofit.php:303-307 | the result is the index of the first '.', or the length when there is none |
| Validators.ParseUnsigned | wcs-tax-retrofit.php:303-307 | an accepted unsigned decimal has a non-negative mantissa |
| Validators.ParseDecimalString | wcs-tax-retrofit.php:303-307 | every digits-dot-digits string with a digit in it is numeric, and reads as exactly its decimal value |
| Validators.LetterNotNumeric | wcs-tax-retrofit.php:303-305 | a string that holds a letter is not numeric |
| Validators.ParseNumeric | wcs-tax-retrofit.php:300-304 | defines `is_numeric` and `floatval` on a string; its properties are stated by the ParseDecimalString, LetterNotNumeric and NumericValue rows |
| Validators.NumericValue | wcs-tax-retrofit.php:296-307 | a number is read as itself; null, booleans, arrays and "" are not numeric |
| Validators.ValidateFloat | wcs-tax-retrofit.php:295-311 | the result is a value exactly when the input is numeric and lies within [min, max], and then it is the input's value |
| Validators.ValidateTolerance | wcs-tax-retrofit.php:129-136 | the result is the input's value when that lies in [0.001, 1.0], and the default otherwise |
| Validators.InRangeTolerancePositive | wcs-tax-retrofit.php:129-136 | every admitted tolerance is positive |
| Validators.ToleranceFromString | wcs-tax-retrofit.php:129-136 | a saved "0.05" is accepted as 0.05 |
| Validators.ToleranceFallsBack | wcs-tax-retrofit.php:129-136 | "5", "abc" and 0.0001 are refused, and the default is used instead |
| Validators.AllowedOnly | wcs-tax-retrofit.php:150-157 | every kept entry is an allowed status of the input, every allowed entry is kept, and an all-allowed list is kept whole |
| Validators.AllowedOnlySingle | wcs-tax-retrofit.php:152-156 | one entry is kept exactly when `in_array` finds it among the allowed statuses |
| Validators.AllowedOnlyAppend | wcs-tax-retrofit.php:152-156 | the kept entries of two lists put together are those of the first followed by those of the second, so the foreach keeps input order and repeats |
| Validators.AllowedOnlyExample | wcs-tax-retrofit.php:150-157 | of [a, b, c] with only b refused, exactly [a, c] is kept, in that order |
| Validators.ValidStatuses | wcs-tax-retrofit.php:145-160 | defines the status validation; its properties are stated by the ValidStatusesShape, ValidStatusesIdempotent and ValidateStatuses rows |
| Validators.ValidStatusesShape | wcs-tax-retrofit.php:145-160 | the result is the allowed entries of an array when there are any, and the default when the input is not an array, is empty or keeps nothing |
| Validators.ValidStatusesIdempotent | wcs-tax-retrofit.php:145-160 | validating a validated list again gives the same list, when the default is a valid list |
| Validators.ValidateStatuses | wcs-tax-retrofit.php:145-160 | the foreach loop builds the result of the status validation |
| Validators.IsCalendarDate | wcs-tax-retrofit.php:279-282 | defines a real calendar date; its properties are stated by the DaysInMonth, FormattedDatesValidate, ValidatedDatesAreFormatted and LeapDayAccepted rows |
| Validators.DaysInMonth | wcs-tax-retrofit.php:279-282 | a month has 28 to 31 days |
| Validators.ValidateDate | wcs-tax-retrofit.php:268-285 | an accepted value is the string itself, written four digits, '-', two digits, '-', two digits, and it is a real calendar date |
| Validators.FormattedDatesValidate | wcs-tax-retrofit.php:268-285 | every calendar date, written Y-m-d, is accepted unchanged |
| Validators.ValidatedDatesAreFormatted | wcs-tax-retrofit.php:268-285 | every accepted string is a calendar date written Y-m-d, so it reformats to itself |
| Validators.RejectedDates | wcs-tax-retrofit.php:268-285 | 2024-13-45, 2023-02-29, a date with a trailing newline and a number are refused |
| Validators.LeapDayAccepted | wcs-tax-retrofit.php:279-282 | 2024-02-29 is accepted |
| Locator.Matches | wcs-tax-retrofit.php:529-556 | defines the WHERE clauses of the two queries; its properties are stated by the LocatedRateMatches and LocatorExample rows |
| Locator.Best | wcs-tax-retrofit.php:529-538 | the chosen row is a candidate that ranks before every other candidate, and no earlier candidate ranks before it; nothing is chosen exactly when there is no candidate |
| Locator.LocateRateId | wcs-tax-retrofit.php:513-569 | defines the locator's two queries; its properties are stated by the LocatedRateMatches, FrenchQueryRedundant and LocatorExample rows |
| Locator.LocatedRateMatches | wcs-tax-retrofit.php:529-569 | a located id names a standard-class rate within 0.01 of the target; if a French match exists the located rate is French with the lowest French priority, otherwise its priority is the lowest of all matches; nothing is located exactly when nothing matches |
| Locator.FrenchQueryRedundant | wcs-tax-retrofit.php:529-569 | the French-only query finds the same row as the all-countries query, so the locator is that single query |
| Locator.RateById | wcs-tax-retrofit.php:236-240 | the rate found for an id belongs to a row with that id, and nothing is found exactly when no row has it |
| Locator.LocatorExample | wcs-tax-retrofit.php:529-569 | a French standard 20 % row of priority 2 wins over a German row of priority 1 and a French reduced-class row; a target with no row within 0.01 finds nothing |
| Config.SelectedRate | wcs-tax-retrofit.php:225-251 | defines the selected rate; its properties are stated by the SelectedRatePriority and Resolver.GetSelectedRate rows |
| Config.SelectedRatePriority | wcs-tax-retrofit.php:225-251 | the saved rate id's table rate wins whenever the table holds that id; otherwise the filter's rate, or 0.20 |
| Config.SubscriptionStatusesAsWritten | wcs-tax-retrofit.php:319-341 | defines the statuses getter as written; its properties are stated by the StatusesAsWrittenLeakFilter and StatusesAgreeOnValidInput rows |
| Config.StatusesAsWrittenLeakFilter | wcs-tax-retrofit.php:319-341 | as written, an invalid saved list and a filter returning ["bogus"] give the run a status outside the allow-list |
| Config.SubscriptionStatuses | wcs-tax-retrofit.php:319-341 | corrected: the statuses are never empty and every one is on the allow-list |
| Config.StatusesAgreeOnValidInput | wcs-tax-retrofit.php:319-341 | the corrected getter and the one as written agree whenever there is no saved list or the saved list keeps an allowed status |
| Config.Tolerance | wcs-tax-retrofit.php:349-369 | the resolved tolerance always lies in [0.001, 1.0] |
| Config.SavedToleranceWins | wcs-tax-retrofit.php:355-360 | a saved tolerance in range is used as it is, whatever the filter says |
| Config.DateLimit | wcs-tax-retrofit.php:377-409 | a valid saved date wins, then a valid detected date, then the filter's value with today as its default |
| Config.DateLimitIsDate | wcs-tax-retrofit.php:377-409 | without a filter callback, and with a real today, the cutoff is always a calendar date |
| Config.Resolve | wcs-tax-retrofit.php:686-710 | corrected: a batch's settings have a tolerance in range and a non-empty allow-listed status list, and a located rate id names a matching table row |
| Config.Resolver.constructor | wcs-tax-retrofit.php:226-229 | every cache starts empty |
| Config.Resolver.GetSelectedRate | wcs-tax-retrofit.php:225-251 | the memoised getter returns the resolved rate and caches it |
| Config.Resolver.GetSubscriptionStatuses | wcs-tax-retrofit.php:319-341 | corrected: the memoised getter returns the corrected getter's allow-listed statuses and caches them |
| Config.Resolver.GetTolerance | wcs-tax-retrofit.php:349-369 | the memoised getter returns the resolved tolerance, which is in range, and caches it |
| Config.Resolver.GetDateLimit | wcs-tax-retrofit.php:377-409 | the memoised getter returns the resolved cutoff and caches it |
| Config.Resolver.GetTaxRateId | wcs-tax-retrofit.php:513-632 | the memoised locator returns the located id for the selected rate, including a cached null |
| Config.Resolver.GetSettings | wcs-tax-retrofit.php:686-710 | corrected: the settings a batch reads equal the resolved ones |
| Records.Subscription.constructor | wcs-tax-retrofit.php:746-755 | a subscription holds its identity and the given state |
| Records.Subscription.RemoveItem | wcs-tax-retrofit.php:805 | remove_item drops the item stored under the key and changes nothing else |
| Records.Subscription.AddItem | wcs-tax-retrofit.php:825 | add_item appends the item and changes nothing else |
| Records.Subscription.SetTotals | wcs-tax-retrofit.php:828-833 | calculate_totals and save store the new total and tax and change nothing else |
| Records.Subscription.AddNote | wcs-tax-retrofit.php:861-862 | add_order_note appends the note |
| Records.Subscription.Restore | wcs-tax-retrofit.php:838 | a rollback puts the snapshot back |
| Records.Without | wcs-tax-retrofit.php:805 | removing keys never lengthens the item list |
| Records.WithoutTwice | wcs-tax-retrofit.php:805 | removing keys one at a time is removing them all at once |
| Records.WithoutMembers | wcs-tax-retrofit.php:805 | an item survives removal exactly when its key was not removed |
| Records.PositiveMembers | wcs-tax-retrofit.php:770 | the positive lines are exactly the lines with total > 0, and the rest exactly those with total <= 0 |
| Records.NoPositiveLine | wcs-tax-retrofit.php:770 | there is no positive line exactly when every line total is <= 0 |
| Records.KeySet | wcs-tax-retrofit.php:792-793 | the key set holds exactly the keys of the items |
| Records.RemovingPositiveKeysKeepsTheRest | wcs-tax-retrofit.php:805 | with unique keys, removing the keys of the positive lines keeps exactly the non-positive lines, in order |
| Records.RecreateOf | wcs-tax-retrofit.php:772-796 | an entry to recreate keeps the old key and inclusive total, and holds ht = round2(ttc/(1+rate)) and tax = round2(ttc − ht) |
| Records.Recreations | wcs-tax-retrofit.php:768-798 | one entry per line, in order |
| Records.FirstOvershoot | wcs-tax-retrofit.php:768-789 | the result is the first line that overshoots, or the length when none does |
| Records.ScanLines | wcs-tax-retrofit.php:766-798 | defines the item loop as a value; its properties are stated by the ScanAbortsIffOvershoot, ScanListsPositiveLines, ScanReportsFirstOvershoot and OvershootPersists rows |
| Records.ScanAbortsIffOvershoot | wcs-tax-retrofit.php:777-789 | the item loop aborts the record exactly when some positive line drifts by at least the tolerance |
| Records.ScanListsPositiveLines | wcs-tax-retrofit.php:768-798 | when it does not abort, the loop lists the split of every positive line, in order, and sums their tax parts |
| Records.ScanReportsFirstOvershoot | wcs-tax-retrofit.php:777-789 | when it aborts, the loop reports the first overshooting line, with its drift and split |
| Records.OvershootPersists | wcs-tax-retrofit.php:788 | once a line has overshot, later lines do not change the outcome |
| Records.WholeCentLinesNeverOvershoot | wcs-tax-retrofit.php:768-789 | with whole-cent lines and a positive tolerance, the per-line check never fires |
| Records.NewLine | wcs-tax-retrofit.php:807-825 | a new line keeps product, variation, quantity, name and metadata, has the pre-tax part as subtotal and total, and has the tax part under the rate id; one `taxes` list stands for the `total` and `subtotal` tax arrays, which the source fills with the same entry |
| Records.NewLines | wcs-tax-retrofit.php:807-826 | one new line per entry, in order |
| Records.OldKeysOfRecreations | wcs-tax-retrofit.php:792-805 | the removed keys are exactly the keys of the recreated lines |
| Records.RebuiltShape | wcs-tax-retrofit.php:800-826 | with unique keys, the rebuilt list is the non-positive lines, in order, then one new line per positive line |
| Records.NewLinesOfSplits | wcs-tax-retrofit.php:807-825 | each new line carries its line's product data, ht as subtotal and total, and round2(ttc − ht) as its tax |
| Records.ItemsSumsAppend | wcs-tax-retrofit.php:829 | item totals and taxes add up over concatenation |
| Records.TotalBySign | wcs-tax-retrofit.php:770 | the inclusive total splits into the non-positive and the positive lines' totals |
| Records.UntaxedParts | wcs-tax-retrofit.php:770 | lines without tax entries contribute no tax |
| Records.NewLinesSums | wcs-tax-retrofit.php:813-820 | the new lines total the pre-tax parts, and their taxes sum to the tax parts |
| Records.WholeCentRecreationsAddUp | wcs-tax-retrofit.php:772-775 | whole-cent lines split into parts that add up to their inclusive total |
| Records.RebuiltSums | wcs-tax-retrofit.php:800-833 | untaxed whole-cent lines with unique keys, once rebuilt, keep their inclusive total, and their tax is the sum of the tax parts |
| Processor.Decide | wcs-tax-retrofit.php:745-893 | defines the per-record decision; its properties are stated by the SkipConditions, LineDriftCondition, QuietCondition, CommittedRecordShape and ProcessRecord rows |
| Processor.ValidRecord | wcs-tax-retrofit.php:509-511 | defines `validate_subscription`; its properties are stated by the SkipConditions row |
| Processor.SkipConditions | wcs-tax-retrofit.php:747-762 | a record is invalid exactly when its total is <= 0 or it has no item; it is skipped as migrated exactly when it is valid and its tax exceeds 0.01 |
| Processor.LineDriftCondition | wcs-tax-retrofit.php:768-789 | a record is skipped for a line drift exactly when it is valid, untaxed and some line overshoots; the reported line is the first one, with its drift |
| Processor.QuietCondition | wcs-tax-retrofit.php:764-887 | a record changes no counter exactly when it is valid, untaxed and has no positive line |
| Processor.DryRunOnlyPreviews | wcs-tax-retrofit.php:800-885 | a dry run never reaches the transaction; its preview takes ht from the record total and the tax from the lines |
| Processor.After | wcs-tax-retrofit.php:800-862 | defines the state a record is left in; its properties are stated by the CommittedRecordShape, DryRunNeverMutates, SecondRunSkips and ProcessRecord rows |
| Processor.CommittedRecordShape | wcs-tax-retrofit.php:800-862 | a committed record holds the new totals, stays within the tolerance of its old total, gains one note and holds the rebuilt item list |
| Processor.DryRunNeverMutates | wcs-tax-retrofit.php:800 | a dry run never changes a subscription |
| Processor.MigratedRecordsUntouched | wcs-tax-retrofit.php:757-762 | a record taxed above 0.01 is skipped and left as it is |
| Processor.WholeCentRecordCommits | wcs-tax-retrofit.php:800-862 | an untaxed record of whole-cent lines that add up to its total, in a real run with a line-summing store, commits with its total unchanged and the lines' tax parts as tax |
| Processor.SecondRunSkips | wcs-tax-retrofit.php:757-862 | running again over a committed record whose new tax exceeds 0.01 skips it and changes nothing |
| Processor.Effect | wcs-tax-retrofit.php:747-885 | defines one record's `$stats` updates; its properties are stated by the TallyCounts and ExportRows rows |
| Processor.TallyCounts | wcs-tax-retrofit.php:744-894 | a record increments at most one counter, so updated + skipped + errors + quiet records == page length; every update has one export row and a detail, every skip a detail, every error a message, every overshoot one warning |
| Processor.JoinAssociative | wcs-tax-retrofit.php:2133-2148 | adding up tallies is associative |
| Processor.TallyOf | wcs-tax-retrofit.php:744-894 | defines the `$stats` of a page; its properties are stated by the TallyAppend, JoinAssociative and AddUpStats rows |
| Processor.TallyAppend | wcs-tax-retrofit.php:744-894 | the tally of consecutive records is the sum of their tallies |
| Processor.ExportRows | wcs-tax-retrofit.php:867-884 | a committed record's export row has ht + tax == the new total; a previewed one has the original total as its inclusive total |
| Processor.DryRunRowMayNotAddUp | wcs-tax-retrofit.php:876-884 | a dry-run row need not add up: two 10.00 lines at 20 % preview 16.67 + 3.34 for 20.00 |
| Processor.Eligible | wcs-tax-retrofit.php:708-717 | the query returns exactly the subscriptions of the store with a configured status created up to the cutoff |
| Processor.EligibleAscending | wcs-tax-retrofit.php:713-714 | the selection keeps the id order |
| Processor.PageAt | wcs-tax-retrofit.php:708-740 | a page holds at most 100 eligible subscriptions, is full exactly when offset + 100 <= the number eligible, and keeps the id order |
| Processor.ScanItems | wcs-tax-retrofit.php:768-798 | the item loop, with `continue 2`, computes the scan of the record's lines |
| Processor.RemoveLines | wcs-tax-retrofit.php:805 | inside the transaction, every recreated line is removed and nothing else changes |
| Processor.AddLines | wcs-tax-retrofit.php:807-826 | then one new line per recreated line is appended |
| Processor.ProcessRecord | wcs-tax-retrofit.php:745-893 | the checks and the transaction decide the record as `Decide` does, and leave it in the state `After` gives |
| Processor.ProcessPage | wcs-tax-retrofit.php:744-894 | each subscription of the page is decided on as it was read and left as its decision says; a dry run changes none |
| Processor.AddUpStats | wcs-tax-retrofit.php:744-894 | the $stats updates of the foreach add up to the tally of the page |
| Processor.Store.constructor | wcs-tax-retrofit.php:672-685 | a fresh store holds no lock, offset, activity, export, or migration records |
| Processor.Store.ProcessSelected | wcs-tax-retrofit.php:708-894 | the page is the eligible subscriptions at the offset, each processed in turn; subscriptions outside it are untouched |
| Processor.Store.RunBatch | wcs-tax-retrofit.php:685-909 | under the lock: the page's tally, has_more exactly when the page is full, the offset after the page and the time saved only by a real run with more, the lock released, the export rows appended |
| Processor.Store.Finish | wcs-tax-retrofit.php:897-909 | the offset and time are saved when asked, the lock is deleted and the rows are appended |
| Processor.Resumed | wcs-tax-retrofit.php:672-675 | defines the effective offset; its properties are stated by the Store.Process, MigrateRun and ResumedRunRevisits rows |
| Processor.Store.Process | wcs-tax-retrofit.php:634-931 | the whole batch: missing dependencies, a held lock and a missing rate each return their fixed result and change no subscription, offset or export (a held lock stays held); otherwise a real call at offset 0 resumes from the saved offset, and the result is RunBatch's |
| Orchestration.ProgressOf | wcs-tax-retrofit.php:1497-1510 | the migration records are read from the store's options |
| Orchestration.DryProcess | wcs-tax-retrofit.php:2123 | a dry-run batch as the simulate loop sees it |
| Orchestration.Simulate | wcs-tax-retrofit.php:2064-2154 | simulate refuses without dependencies and when locked out, changing nothing; otherwise it changes no subscription and no migration record, and reports the totals of all eligible subscriptions, each decided once as stored |
| Orchestration.SimulateLoop | wcs-tax-retrofit.php:2122-2154 | the do…while from offset 0 visits every eligible subscription once and adds up their tallies |
| Orchestration.SimulateBatch | wcs-tax-retrofit.php:2123-2154 | one pass keeps the loop invariant: decisions on every subscription before the offset, and their tallies added up |
| Orchestration.DecidedAppend | wcs-tax-retrofit.php:2133-2148 | decisions on the next stored subscriptions extend the list of decisions |
| Orchestration.PagePlan | wcs-tax-retrofit.php:2123-2154 | a dry-run batch that ran continues the decisions and the totals |
| Orchestration.StartOf | wcs-tax-retrofit.php:2120 | the loop's starting state records the store's options, lock, export and subscriptions |
| Migration.MigrateBatch | wcs-tax-retrofit.php:2246 | a real batch: locked out changes nothing; otherwise its offset is the resumed one, its size is the page's, and it has more exactly when the page is full |
| Migration.MigrateNext | wcs-tax-retrofit.php:2245-2266 | one pass of the migrate loop keeps the loop invariant |
| Migration.MigrateFirst | wcs-tax-retrofit.php:2245-2251 | the first batch either meets the lock, and nothing changes, or starts the invariant |
| Migration.MigrateRun | wcs-tax-retrofit.php:2245-2266 | the loop runs batches at the resumed offset, then requested + 100 k, until one reports no more, and adds up their tallies |
| Migration.Migrate | wcs-tax-retrofit.php:2211-2275 | migrate refuses without dependencies, without the backup flag and when locked out, changing nothing; otherwise it runs the batches and marks the migration executed with the summed updates as its count, clearing the partial count, the offset and the activity |
| Migration.PagesFromSlice | wcs-tax-retrofit.php:2245-2266 | n pages from off cover the eligible subscriptions from off to off + 100 n |
| Migration.CoveredFrom | wcs-tax-retrofit.php:2245-2266 | batches at off, off + 100, … cover those pages |
| Migration.LastPastEnd | wcs-tax-retrofit.php:2266 | the loop stops right after the first batch past the eligible list |
| Migration.RunCoversRest | wcs-tax-retrofit.php:2213-2266 | without a resume, the batches cover every eligible subscription from the requested offset on, once, in (n − requested)/100 + 1 batches |
| Migration.ResumedRunRevisits | wcs-tax-retrofit.php:2245-2266 | after a resume from S, the first batch runs at S and the later ones cover the subscriptions from offset 100 on |
| Migration.MigrateStep | wcs-tax-retrofit.php:1481-1510 | corrected: the admin step clears the export at offset 0, runs a real batch with the dependencies present (the page returns at :1165-1169 before the form is handled when one is missing), and updates the migration records (executed with count = partial + updated, or partial increased), except after a locked-out batch |
| Migration.Saved | wcs-tax-retrofit.php:897-900 | defines the offset and activity a real batch with more saves; its properties are stated by the StepBatch and StepWithMoreResumable rows |
| Migration.StepBatch | wcs-tax-retrofit.php:1494 | the batch of an admin step, as the step's bookkeeping sees it |
| Migration.FullReset | wcs-tax-retrofit.php:1174-1189 | the full reset clears every migration record, the export and the lock, so nothing can be resumed |
| Migration.CanResume | wcs-tax-retrofit.php:1206-1212 | defines the resume test; its properties are stated by the StepWithMoreResumable and FinishedStepNotResumable rows |
| Migration.StepWithMoreResumable | wcs-tax-retrofit.php:1497-1510 | after a real batch with more, the continue form submits exactly the saved offset, and the migration can be resumed for the next hour |
| Migration.FinishedStepNotResumable | wcs-tax-retrofit.php:1497-1505 | after a batch with no more, the migration is executed with count = partial + updated and cannot be resumed |
| Migration.SessionCount | wcs-tax-retrofit.php:1497-1510 | over a session of steps, the partial count grows by each batch's updates, and the final step records the whole session's updates as the count |
| Migration.CompleteAsWritten | wcs-tax-retrofit.php:1497-1510 | defines the step's bookkeeping as written; its properties are stated by the FinishedStepNotResumable, SessionCount and LockedStepEndsMigration rows |
| Migration.LockedStepEndsMigration | wcs-tax-retrofit.php:1497-1505 | as written: a locked-out step ends a resumable migration, marking it executed with only the partial count and deleting its offset |
| Migration.LockedStepExample | wcs-tax-retrofit.php:1497-1505 | as written: a migration 300 records in, 250 updated, is recorded as finished with 250 after a locked-out step |
| Migration.Complete | wcs-tax-retrofit.php:1497-1510 | corrected: defines the step's bookkeeping, leaving the records alone after a locked-out batch; its properties are stated by the MigrateStep and LockedStepKeepsMigration rows |
| Migration.LockedStepKeepsMigration | wcs-tax-retrofit.php:1494-1510 | corrected: a locked-out step leaves the migration records as they were, so the migration stays resumable |

## Left out

- I/O is not modelled: logging, the HTML of the admin page and the result
  display, `wp_die`, the CSV download's bytes and headers, WP-CLI output,
  and the STDIN confirmation of `migrate`.
- Capability and nonce checks are not modelled. `set_time_limit` and
  `memory_limit` are left out too.
- Concurrency is not modelled. The lock is a boolean checked and set in one
  step, and its 5-minute and the export's 1-day lifetimes are not modelled.
- PHP floats are not modelled: money is exact. `is_numeric` is modelled for a
  sign, digits and one dot only. Whitespace, exponents, hexadecimal and
  `INF`/`NAN` strings are left out.
- SQL and WooCommerce internals are parameters. The rate table is a sequence
  and the store's totals are the `recalc` function. `update_taxes` is folded
  into `recalc`.
- The locator's third step, `WC_Tax::find_rates`, is left out. It is a call
  into WooCommerce whose result cannot be seen here. Its fixed French query
  is a foreign lookup.
- Auto-detection of the cutoff date is an optional input of `Env`.
- Processor.Store.Process: the lock is taken after the rate lookup rather than
  before it. The lookup reads no state the lock guards and the lock is
  released when it fails, so the final state is the same.
- Processor.Store.Process: the offset is a `nat`. A negative `intval` of a
  posted or `--offset` value is not modelled.
- The export buffer holds one user's transient. Per-user keys are left out.
- The CLI `simulate` options `--tax-rate`, `--date-limit` and `--tolerance`,
  and their restore, are not modelled. They change saved options for the
  duration of the run, which the model takes as an already-resolved
  `Settings` value.
- Orchestration.Simulate: it reports one `Tally`. The source adds the
  counters and lists into separate variables and prints the last batch's
  other fields with `--json`, which is the same information.
- Migration.Migrate: it states the batch structure, the totals and the
  migration records. What each batch does to each subscription is
  `Processor.Store.Process`'s contract and is not restated.
- Migration.Migrate and Migration.MigrateStep: the migration date written to
  `wc_tax_retrofit_date` is not modelled.
- Migration.SessionCount: all steps are taken at one time `now`, because the
  count does not depend on the activity times.
- Migration.MigrateStep: a batch refused for a missing rate is recorded as
  the end of the migration, as written. That result reports an error and
  carries no `locked` flag to test. Missing dependencies never reach the
  step, because the admin page returns before handling the form.
- Config.SubscriptionStatusesAsWritten: the statuses filter's result is a
  list of values, so a filter returning a non-array cannot be expressed.
  With no saved list the source then falls back to the three default
  statuses (:339 through :146-147). With an invalid saved list it passes
  the non-array on as the default at :334 and `validate_statuses` returns
  it against its `array` return type, a TypeError. Neither path is
  modelled.
- Config.Resolve, Config.Resolver.GetSubscriptionStatuses and
  Config.Resolver.GetSettings: they use the corrected statuses getter
  `Config.SubscriptionStatuses` (see Findings), which validates the filter's
  list before it serves as the fallback. They do not model the as-written
  chain of `Config.SubscriptionStatusesAsWritten`, under which a batch may
  select a status outside the allow-list.
- Processor.Decide: the outer `catch (\Throwable)` around a record is not
  modelled. The only failure modelled is `recalc` throwing inside the
  transaction. A throw after `COMMIT` (from `add_order_note`, say), which
  the source counts as an error with the record committed and no
  `updated`, export row or detail, cannot happen in the model.
- Config.SelectedRate: the rate filter's value is a natural number of
  millionths. The source does not validate it, so a negative rate (and the
  division by zero at -100 %) cannot be expressed.
- The `wc_tax_retrofit_after_process` action runs code the plugin does not
  define and is not modelled; the model assumes it changes nothing.
- Locator.Best: `ORDER BY` leaves the order of rows of equal rank
  unspecified. The model picks the earliest table row among them.
- The admin page's dry-run form, the CLI `config`, `stats` and `reset`
  commands, and uninstall.php are not modelled. They only display or
  delete options.

## Findings

| source | as written | input that shows it | evidently intended | confidence | as-written member | corrected member |
|---|---|---|---|---|---|---|
| wcs-tax-retrofit.php:331-334 | an invalid saved status list falls back to the filter's list without validating it | saved option "active" (a string), filter returning ["bogus"]: the run selects status "bogus" | the filter's list is validated before it serves as the fallback, as for the no-saved-option case at :338 | not executed; high | Config.StatusesAsWrittenLeakFilter | Config.SubscriptionStatuses |
| wcs-tax-retrofit.php:1494-1505 | after a batch locked out by another run, the admin step sees `has_more` false and records the migration as finished, deleting the resume offset | a resumable migration with offset 300 and partial count 250, and a click while a CLI batch holds the lock: it is recorded as executed with count 250 and offset 0 | a locked-out step leaves the migration records alone, as the CLI commands stop with an error on `locked` | not executed; medium | Migration.LockedStepEndsMigration | Migration.LockedStepKeepsMigration |
