# ParaBank CI/CD report aggregator, modelled in Dafny

`generate-report.js` turns a directory of per-test JSON result records into
one HTML dashboard. The generator does four things in order:

1. It lists `test-results` and keeps only the names ending in `-report.json`, in listing order.
2. It reads each of those files as a record. The first file that cannot be read ends the run.
3. It computes the summary: total, passed (status exactly `"PASSED"`), failed, and a whole-number pass rate.
4. It fills in one template literal with the summary cards, a per-record detail section and the chart data. It then writes the page out.

The model follows that structure, one module per stage:

- `records.dfy` (**Records**): the result record as the test run writes it. Also the outcome of reading a file (`Parsed(record)` or `Malformed`), a directory entry (name plus what reading it would give), the listing, and the two run errors.
- `loader.dfy` (**Loader**): the suffix filter and the reading loop.
  - The loop is kept as a method, `LoadReports`, with a `for` loop and its invariant.
  - The method is proved equal to the function `Load`. `Load` first selects the report files (`Selected`) and then reads them (`LoadAll`).
  - Only selected entries are ever read. A screenshot listed in the directory is never opened, even when it is not JSON.
- `aggregate.dfy` (**Aggregate**): `passed` counts the records whose status is exactly `"PASSED"`. `failed` is `total - passed`.
  - `Math.round((passed / total) * 100)` is modelled as exact rational round-half-up. The result is characterised by the predicate `IsRoundHalfUp`.
- `render.dfy` (**Render**): the page, character for character.
  - The fixed text of the template literal is kept as constants (`Template`).
  - The parts that depend on the data are built from small values: four summary cards, the chart data, and one detail card per record with its `<li>` step list. What each part shows can therefore be stated.
  - Fields are inserted raw, without HTML escaping, as the generator does. The badge of a detail card is always `badge passed` with ✅, whatever the status.
  - The Failed card's class is `summary-card failed` when some test failed. Otherwise it is `summary-card ` with a trailing space, exactly as the template writes it.
- `report.dfy` (**Report**): the whole run. `Generate` gives `Success(page)` or `Failure(DirectoryUnreadable | FileUnreadable(name))`. The method `GenerateTestReport` follows `generateTestReport` up to the file write.
- `text.dfy` (**Text**): string helpers.
  - `join('')` over fragments (`Concat`) and `join(sep)`.
  - The decimal digits `${n}` produces for a non-negative integer.
  - "Occurs at offset i" (`IsInfixAt`) and "occurs somewhere" (`Shows`). These are used to state what the page contains and where.

Inputs from outside the program are parameters:

- the clock, as `now: string` (`new Date().toLocaleString()`);
- the locale date formatting of a record's execution time, as `fmt: string -> string`;
- the result of reading each file, inside the directory entries.

The page's fixed text is a parameter of `Page` and `Generate` (a `PageText`). The generator's own text is `Template`, which `GenerateTestReport` uses. Every property below is proved for any fixed text, so in particular for the generator's.

## Model

| member | source | states |
|---|---|---|
| Loader.Selected | generate-report.js:10-11 | The files the loop reads are never more than the listing; which ones and in what order is stated by the two lemmas below |
| Loader.SelectedMembership | generate-report.js:10-11 | An entry is read exactly when it is listed and its name ends with `-report.json` (both directions) |
| Loader.ReportIndices | generate-report.js:10-11 | The listing positions of the report-named entries: every one of them, only those, strictly increasing |
| Loader.SelectedInListingOrder | generate-report.js:10-11 | The entries read are the report-named entries at strictly increasing listing positions: listing order kept, nothing repeated or reordered |
| Loader.SelectedSkips | generate-report.js:10-11 | Inserting an entry whose name is not a report name anywhere in the listing leaves the selection unchanged |
| Loader.LoadAll | generate-report.js:10-15 | Reading succeeds exactly when every selected file parses, and then yields their records in order; otherwise the error names the first selected file (in listing order) that does not parse |
| Loader.LoadAllFailureSticks | generate-report.js:12 | Once reading has failed, files after it make no difference: no file is skipped and there is no recovery |
| Loader.LoadAbortsAt | generate-report.js:12 | A malformed report file after readable ones ends loading with that file's name, whatever follows it |
| Loader.LoadReports | generate-report.js:10-15 | The `for` loop returns exactly `Load(entries)`; its invariant is that the records pushed so far are what reading the listing's prefix gives |
| Loader.LoadThree | generate-report.js:10-15 | Three readable report files load as their three records, in listing order |
| Loader.ProducerNames | tests/parabank.spec.js:94-121 | For every user name, the report file the test run writes (`TC001-<user>-report.json`) ends with `-report.json` and its screenshot (`TC001-registration-success-<user>.png`) does not |
| Loader.ScreenshotNeverRead | generate-report.js:10-15 | Three runs' report files for any three users, with the first run's non-JSON screenshot listed after its report: loading succeeds with the three records in order, so the screenshot is never read |
| Aggregate.PassedRecords | generate-report.js:18 | The passed records are never more than the records |
| Aggregate.PassedMultiplicity | generate-report.js:18 | The filter keeps each record with status exactly `"PASSED"` as many times as it was loaded and drops every other record, so duplicates are counted |
| Aggregate.PassedMembership | generate-report.js:18 | A record counts as passed exactly when it was loaded and its status is exactly `"PASSED"` (case-sensitive) |
| Aggregate.PartitionCounts | generate-report.js:17-19 | Every record is counted once, as passed or as failed: passed + failed = total |
| Aggregate.AllPassedCount | generate-report.js:18 | Every record has status `"PASSED"` exactly when the passed count equals the total |
| Aggregate.NonePassedCount | generate-report.js:18 | No record has status `"PASSED"` exactly when the passed count is 0 |
| Aggregate.RoundHalfUpUnique | generate-report.js:20 | At most one integer is the half-up rounding of a quotient, so the pass rate is determined by the counts |
| Aggregate.PassRate | generate-report.js:20 | 0 when there are no tests; otherwise the half-up rounding of 100·passed/total; at most 100 whenever passed ≤ total |
| Aggregate.PassRateExtremes | generate-report.js:20 | All tests passed gives 100; none passed gives 0 |
| Aggregate.PassRateMonotone | generate-report.js:20 | More passed tests out of the same total never lower the pass rate |
| Aggregate.Summarize | generate-report.js:17-20 | Total is the number of records. Passed and failed are the sizes of the two partitions and add up to the total. The rate is in 0..100, 0 for no records, and otherwise the rounded percentage |
| Aggregate.EmptySummary | generate-report.js:17-20 | No records: 0 tests, 0 passed, 0 failed, 0% |
| Aggregate.TwoOfThreeScenario | generate-report.js:17-20 | Two of three passed: 3, 2, 1 and 67% |
| Aggregate.SinglePassScenario | generate-report.js:17-20 | One passing record: 1, 1, 0 and 100% |
| Text.Decimal | generate-report.js:64 | The digits of an interpolated count: at least one digit, and no leading zero except for 0 itself |
| Text.DecimalRoundTrip | generate-report.js:64-76 | Reading the printed digits back gives the number |
| Text.DecimalInjective | generate-report.js:64-76 | Different counts print differently |
| Render.SummaryCards | generate-report.js:62-77 | Four cards in order: Total Tests, Passed, Failed, Pass Rate. Only the Failed card has a second class, and that class is `failed` exactly when failed > 0 (both directions) and empty otherwise |
| Render.SummaryCardNumbers | generate-report.js:64-76 | The cards' numbers read back as total, passed, failed, and the pass rate followed by `%` |
| Render.CardOpening | generate-report.js:62-77 | A rendered summary card opens with its class list joined by single spaces |
| Render.PlainOpeningTag | generate-report.js:62 | One class `summary-card` gives the opening tag `<div class="summary-card">` |
| Render.FailedCardOpeningTag | generate-report.js:70 | With the mark the Failed card's tag is `<div class="summary-card failed">`; without it, it is `<div class="summary-card ">`, with the trailing space |
| Render.PlainCardStyling | generate-report.js:62-77 | Total Tests, Passed and Pass Rate always open with the plain `summary-card` tag |
| Render.SummaryCardStyling | generate-report.js:70 | The Failed card opens with the `failed` class exactly when some test failed (both directions); the other three cards never do |
| Render.RenderCardShows | generate-report.js:62-77 | A rendered summary card shows its title as `<h3>title</h3>` and its number as `<div class="number">number</div>` |
| Render.PageShowsCard | generate-report.js:62-77 | Each of the four summary cards, as rendered on the page, shows its title and its number |
| Render.PageShowsFigures | generate-report.js:63-76 | The page shows the headings Total Tests, Passed, Failed and Pass Rate, and the figures total, passed, failed and the pass rate followed by `%` |
| Render.ChartOf | generate-report.js:116-119 | The chart has two slices, Passed then Failed. Their data are the passed and failed counts, in `#28a745` and `#dc3545` |
| Render.ChartCoversAllTests | generate-report.js:118 | The two chart slices add up to the number of loaded records |
| Render.LabelsText | generate-report.js:116 | The labels line is `labels: ['Passed', 'Failed'],` |
| Render.ColorsText | generate-report.js:119 | The colours line is `backgroundColor: ['#28a745', '#dc3545'],` |
| Render.ChartText | generate-report.js:116-119 | Rendered, the chart data is the fixed labels and colours with only the two counts filled in, passed first |
| Render.StepItems | generate-report.js:98 | One `<li>` item per step |
| Render.StepsInOrder | generate-report.js:98 | The step list is every step as `<li>step</li>`, in the original order, back to back with no separator, from the start of the list to its end |
| Render.TestCardShowsRecord | generate-report.js:86-102 | A detail card shows `id - name`, the status verbatim inside the `badge passed` ✅ badge, the username, the browser, the formatted execution time and the step list |
| Render.TestCards | generate-report.js:86 | One detail card per loaded record |
| Render.DetailsOneCardPerRecord | generate-report.js:86-102 | The detail section is exactly one card per record, in loaded order, back to back, covering the whole section; with no records it is empty |
| Render.RenderedCards | generate-report.js:62-77 | Four rendered summary cards |
| Render.PageParts | generate-report.js:22-136 | The page is fourteen fragments: fixed text around the generation time, the four cards, the detail section and the chart data |
| Render.PagePartsOnlyTime | generate-report.js:22-136 | The generation time is the only fragment of the page that depends on the clock |
| Render.PageShowsTime | generate-report.js:57 | The page shows `<p>Generated: now</p>` |
| Render.PageShowsSummary | generate-report.js:61-77 | The page holds the four summary cards back to back in their order, and they end before the detail section starts |
| Render.PageShowsDetailsThenChart | generate-report.js:84-119 | The page holds the detail section, and after it the chart data |
| Render.PageShowsRecord | generate-report.js:86-102 | Each record's card is on the page inside the detail section, at the position of its own card among the cards |
| Render.PageShowsRecordFields | generate-report.js:89-98 | Every field of every loaded record is on the page: id and name, status, username, browser, formatted time and steps |
| Report.GenerateTestReport | generate-report.js:4-138 | The run (list, load, summarise, render) returns exactly what `Generate` gives for the generator's own page text |
| Report.FailFast | generate-report.js:6-15 | A failed listing gives `DirectoryUnreadable`. Otherwise the run fails exactly when some selected file does not parse, and the error names the first such file |
| Report.SuccessRendersSelected | generate-report.js:10-22 | When every report file parses, the page is rendered from their records in listing order, with the summary of exactly those records |
| Report.NonReportFileIgnored | generate-report.js:10-15 | Adding a non-report file anywhere in the directory changes neither the outcome nor the page |
| Report.NoReportFiles | generate-report.js:10-20 | A directory without report files is not an error: the page reports 0, 0, 0 and 0% and its detail section is empty |
| Report.OnlyTimeVaries | generate-report.js:57 | With the same directory, two runs at different times give pages that differ only in the generation-time fragment |
| Report.ThreeReportsAndScreenshot | generate-report.js:10-20 | Three runs of the test for any three users, two passed and one failed, with a screenshot listed among the report files: the page covers the three records in order, with 3 tests, 2 passed, 1 failed and 67% |

## Left out

- `fs.readdir`, `fs.readJson` and `fs.writeFile` (generate-report.js:6, :12, :138) are not modelled as I/O. The directory is a `Listing` of named entries, each carrying what reading it would give. `Generate` returns the page instead of writing it.
- A failed file write is not modelled, and neither is the console message after it (generate-report.js:139).
- JSON parsing is done by a library outside the program. Its outcome is the `ParseResult` value. A missing file and a file with invalid JSON are the same `Malformed` outcome, so the error carries only the file's name.
- Records are well-typed: every field is a string and `steps` is a list of strings.
  - A JSON file with a missing or non-string field would still be read by the generator. It would print `undefined` or the value's own text, or, for a missing `steps`, throw inside the template.
  - None of this is modelled.
- The clock (`new Date().toLocaleString()`, generate-report.js:57) is the string parameter `now`. The locale formatting of each record's execution time (generate-report.js:95) is the function parameter `fmt`.
- Aggregate.PassRate: exact rational round-half-up of `100·passed/total`. The generator computes `Math.round((passed / total) * 100)` in floating point. Where the exact value is a half, the float product can fall just below it. For example, 29 passed out of 200 is exactly 14.5, but the double-precision product is 14.499999999999998, which rounds to 14; the model gives 15.
- `require.main === module` and `.catch(console.error)` (generate-report.js:143-145) are not modelled. A failed run is the `Failure` value.
  - The code only logs the error there; the model claims no exit status.
- The page's text is not claimed to be well-formed HTML. Field values are inserted without escaping, as in the source.
- The stylesheet and the Chart.js script around the chart data (generate-report.js:29-50, :111-134) are fixed text in `Template`. How a browser or Chart.js would render them is not modelled.
- Aggregate.PassedRecords: its own contract only bounds the length. Which records it keeps, and how many times each, is stated by `PassedMembership` and `PassedMultiplicity`.
- Loader.Selected: its own contract only bounds the length of the selection. Which entries are selected, and in what order, is stated by `SelectedMembership` and `SelectedInListingOrder`.
- Render.RenderedCards, Render.StepItems, Render.TestCards: their own contracts state only how many fragments they return. What those fragments show is stated by `RenderCardShows`, `PageShowsCard`, `PageShowsFigures` and `SummaryCardStyling` (summary cards), `StepsInOrder` (steps), and `TestCardShowsRecord` and `DetailsOneCardPerRecord` (detail cards).
- Render.PageParts: its own contract states only that the page has fourteen fragments. Which fragment sits where, and what the page shows, is stated by `PageShowsTime`, `PageShowsSummary`, `PageShowsCard`, `PageShowsDetailsThenChart`, `PageShowsRecord` and `PagePartsOnlyTime`.
- The test run itself (tests/parabank.spec.js, a browser automation script) is not modelled. It appears only as the producer of the record shape (tests/parabank.spec.js:102-118) and of the file names `Loader.ReportName` and `Loader.ScreenshotName` (tests/parabank.spec.js:94, :121).
