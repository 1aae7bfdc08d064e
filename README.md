# fonparam-backend core in Dafny

This project models the core of fonparam-backend, the Express service behind a Turkish mutual-fund
browser. Its centre is the **periodic-investment simulator** (`analyze`). Given a fund's ascending
price series, an initial lump sum, a monthly contribution and a yearly escalation rule, it:

- picks one price per calendar month;
- works out each month's contribution;
- runs a month-by-month loop that buys units and keeps running totals;
- summarises the result.

Around it sit smaller cores:

- the two custom validators of the fund-comparison `codes` parameter;
- the per-route daily request counter;
- the ORM filter builders;
- the statistics of the company endpoints;
- the response decision of the fund-comparison endpoint.

Modules, one per source file (plus shared helpers):

| module | models |
|---|---|
| `Basics` | `Option`/`Result`, query-string truthiness (`req.query.x` given and non-empty), the guarded percentage |
| `Text` | JavaScript `split` on one character, `join`, `trim` (ECMAScript white space and line terminators), ASCII `toUpperCase`, `startsWith` |
| `Calendar` | dates as JavaScript getters see them (year, month 0-11, day), with the day overflow of `setMonth` and `setFullYear` |
| `InvestmentAnalysis` | `getStartDate`, `calculateMonthlyInvestment`, the monthly sampling (a method with its loop), the simulation loop (a method over a specification function), the summary, `analyze` |
| `Validators` | `validateComparisonRequest` and `compareFundsValidation` |
| `RateLimiter` | `RATE_LIMITS`, the `dailyStore` map as a class field, `dailyLimiter`, and the daily-then-short-term chain |
| `QueryBuilder` | `buildFundFilters`, `buildHistoricalValueFilters`, `buildCompanyFilters`, `buildCompanyHavingClause` (methods that fill the `where` map and the conditions list step by step) |
| `CompanyController` | `calculateAverage`, the paging, filter and ordering decisions of `listCompanies`, the statistics of `getCompanyDetails` |
| `FundController` | the default orderings of `listFunds` and `getFundHistoricalValues`, the response and missing-code list of `compareFunds` |

Prices and yields are `real`. A division whose denominator is zero gives `None`: the source divides
unguarded and JavaScript would produce `Infinity` or `NaN`.

Three inputs stand in for the outside world:

- The clock (`now`, `dayStart`) is a parameter.
- Database reads are inputs (the fund record, its price series, the fund table, a company's funds).
- Whitelisting is a boolean.

The code and the service's written description disagree in two places; the model follows the code:

- **Target day.** The description says the sampling target day drifts with the dates actually used. In the code, `lastUsedDate` is never reassigned, so every month is sampled against today's day of month (`MonthlySamples(fundData, now.day)`).
- **Zero guards.** The description asks for guards on the percentage divisions. The code has none (investmentAnalysisService.ts lines 179-180 and 215), so the model reports those cases as `None`.

## Model

Five functions that model source functions carry no contract of their own; the lemma and method
rows below that name them state what they compute:

- `Validators.ValidateComparisonRequest`: `ComparisonAccepted`, `FirstBrokenRule`, `RequestedCodesAreTrimmed`.
- `Validators.CompareFundsValidation`: `CompareFundsAccepted`, `StrictImpliesLenient`.
- `RateLimiter.DailyStep`: `DailyStepWith`, `DailyStepCases`, `CountStaysWithinMax`.
- `InvestmentAnalysis.MonthlySamples`: `SampleMonths`, `SampleKeys`, `SampleFromSeries`, `SampleBestEligible`, `SampleFirstFallback`.
- `InvestmentAnalysis.Simulation`: `Simulate`, `LedgerKept`, `RowsFromSamples`, `MonthEndSampleSkipsFebruary`.

| member | source | states |
|---|---|---|
| Basics.ValueOr | src/controllers/fundController.ts:11-12 | `x \|\| fallback` on a query parameter: the parameter when given and non-empty, the fallback otherwise |
| Basics.PercentOf | src/services/investmentAnalysisService.ts:179-180 | `num / den * 100`; `None` exactly when the denominator is zero, otherwise the value times the denominator is 100 × the numerator |
| Calendar.DaysInMonth | src/services/investmentAnalysisService.ts:200 | a month has 28 to 31 days, and 28 exactly for February in a non-leap year |
| Calendar.SetMonth | src/services/investmentAnalysisService.ts:200 | `setMonth(m)` keeps the day and overflows into the next month when that day does not exist; the result is a valid date in the target month or the one after |
| Calendar.SetFullYear | src/services/investmentAnalysisService.ts:20-26 | `setFullYear(y)` keeps month and day; February 29 in a non-leap year becomes March 1 |
| Calendar.NextMonthAdvances | src/services/investmentAnalysisService.ts:200 | moving on one month from any date lands one or two calendar months later, never earlier or in the same month |
| InvestmentAnalysis.GetStartDate | src/services/investmentAnalysisService.ts:9-42 | N years back keeps month and day (`setFullYear`); year start is January 1; 6, "3" and 1 months back subtract 6, 2 and 1 months with `setMonth` |
| InvestmentAnalysis.StartBeforeToday | src/services/investmentAnalysisService.ts:18-41 | the start month never lies after the current month. It is strictly earlier except for year start in January and for one month back when today's day does not exist in the previous month |
| InvestmentAnalysis.OneMonthAgoSlips | src/services/investmentAnalysisService.ts:36-38 | on 31 March 2024, "one month ago" is 2 March 2024, in the current month |
| InvestmentAnalysis.ClampedStartDate | src/services/investmentAnalysisService.ts:18-41 | the corrected start date: exactly 60, 36, 12, 6, 2 or 1 months back, the day clamped to the end of a shorter month |
| InvestmentAnalysis.ClampedAgreesWithoutOverflow | src/services/investmentAnalysisService.ts:18-41 | whenever the source's start date lands in the intended month it is the corrected date |
| InvestmentAnalysis.MonthlyContribution | src/services/investmentAnalysisService.ts:47-78 | 0 in the start month (checked first). Otherwise the base when the escalation value is 0, when the calendar-year difference is at most 0, or for a January that follows a December start by one year |
| InvestmentAnalysis.EscalatedContribution | src/services/investmentAnalysisService.ts:63-77 | past those cases: base × (1 + v/100)^years for percentage escalation, base + v × years for amount escalation, where years is the calendar-year difference |
| InvestmentAnalysis.NextYearContribution | src/services/investmentAnalysisService.ts:63-77 | once escalation applies, the same month a year later owes the contribution × (1 + v/100) for percentage escalation, or the contribution + v for amount escalation |
| InvestmentAnalysis.ContributionAtLeastBase | src/services/investmentAnalysisService.ts:73-77 | with non-negative base and escalation value, every month after the start month contributes at least the base |
| InvestmentAnalysis.SampleMonths | src/services/investmentAnalysisService.ts:107-128 | the `forEach` filling `monthlyFundData` computes the sample table `MonthlySamples(fundData, now.day)` |
| InvestmentAnalysis.SampleKeys | src/services/investmentAnalysisService.ts:113-117 | a year-month has a sample exactly when the series has an observation in it |
| InvestmentAnalysis.SampleFromSeries | src/services/investmentAnalysisService.ts:116-125 | every sample is one of the series' observations |
| InvestmentAnalysis.SampleBestEligible | src/services/investmentAnalysisService.ts:119-125 | when a month has observations on or before the target day, its sample is the latest of them |
| InvestmentAnalysis.SampleFirstFallback | src/services/investmentAnalysisService.ts:116-117 | when every observation of a month is after the target day, its sample is the month's first observation |
| InvestmentAnalysis.SampledAdvances | src/services/investmentAnalysisService.ts:152-200 | continuing from a sample's own date moves strictly past the current month, so the loop visits months in increasing order |
| InvestmentAnalysis.ProcessMonth | src/services/investmentAnalysisService.ts:152-197 | the body of one processed month computes the state `SampledMonth` describes: first month or contribution, totals, row, previous value |
| InvestmentAnalysis.Simulate | src/services/investmentAnalysisService.ts:131-201 | the `while` loop ends with the totals and rows of `Simulation` from the start month up to and including the current month |
| InvestmentAnalysis.LedgerKept | src/services/investmentAnalysisService.ts:166-197 | with details on, the rows form a ledger. The first row has investment 0, yield 0 % and units = initial / price. Each later row adds its contribution and units = contribution / price only when the contribution is positive. Row totals equal the running totals and row months strictly increase |
| InvestmentAnalysis.RowsFromSamples | src/services/investmentAnalysisService.ts:141-152 | every row is a sampled observation (same date and price) of a month between the current loop month and the end month; skipped months add no row |
| InvestmentAnalysis.LedgerGrows | src/services/investmentAnalysisService.ts:168-173 | with positive prices, invested total and units never decrease along the ledger |
| InvestmentAnalysis.DetailsOffKeepsInvestment | src/services/investmentAnalysisService.ts:155-183 | with details off, every processed month takes the first-month branch, so the invested total stays the initial sum |
| InvestmentAnalysis.DetailsFlagChangesTotals | src/services/investmentAnalysisService.ts:155-183 | the same two months at price 10 with 1000 initial and 100 monthly end at 1100 invested with details and 1000 without |
| InvestmentAnalysis.IntendedTotalsIgnoreDetails | src/services/investmentAnalysisService.ts:155-173 | the corrected loop, whose first month is the first processed month, reaches the same totals as the source's loop with details on, whatever the flag |
| InvestmentAnalysis.MonthEndSampleSkipsFebruary | src/services/investmentAnalysisService.ts:198-200 | "3 months" back from 31 March 2024 starts on 31 January; with samples on 31 January, 29 February and 29 March the loop moves from 31 January to 2 March and emits two rows for three sampled months |
| InvestmentAnalysis.MonthByMonthVisitsEverySample | src/services/investmentAnalysisService.ts:141-200 | the corrected loop, stepping to the first day of the next calendar month, emits exactly one row per sampled month from the start month through the end month |
| InvestmentAnalysis.IntendedAgreesWhenDetailed | src/services/investmentAnalysisService.ts:155-183 | with details on, the corrected loop is the source's loop |
| InvestmentAnalysis.Summarize | src/services/investmentAnalysisService.ts:204-216 | current value = units × last price, total yield = current value − invested; the percentage is absent exactly when nothing was invested, otherwise percentage × invested = 100 × yield |
| InvestmentAnalysis.DetailedAnalysis | src/services/investmentAnalysisService.ts:131-217 | a detailed result carries a ledger whose last row's invested total is the summary's. Each row is an observation of the fetched series in a month between the start month and today |
| InvestmentAnalysis.UndetailedAnalysis | src/services/investmentAnalysisService.ts:155-217 | without details there are no rows and the invested total is the initial sum |
| InvestmentAnalysis.Analyze | src/services/investmentAnalysisService.ts:80-218 | a missing fund fails with fund-not-found, an empty series with no-data, both before any simulation; otherwise the result is the sampled simulation and its summary |
| Text.Split | src/middleware/validators.ts:165 | `split(',')` never returns an empty list and no piece contains the separator |
| Text.JoinSplit | src/middleware/validators.ts:165 | joining the pieces with the separator gives the string back |
| Text.Trim | src/middleware/validators.ts:165 | `trim()` keeps an infix with no space at either end, having removed only spaces; it is empty exactly for an all-space string |
| Text.TrimIdempotent | src/middleware/validators.ts:165 | trimming twice is trimming once |
| Text.ToUpper | src/controllers/fundController.ts:12 | `toUpperCase()` keeps the length and maps exactly the lower-case ASCII letters to capitals |
| Validators.ComparisonAccepted | src/middleware/validators.ts:164-183 | the strict check accepts exactly 2 to 5 trimmed codes, each a non-empty run of capitals and digits, no two the same |
| Validators.FirstBrokenRule | src/middleware/validators.ts:167-182 | each rejection is the first rule broken in source order: too few, too many, blank, bad characters, duplicate |
| Validators.DistinctSize | src/middleware/validators.ts:179 | `new Set(codes).size` equals the length exactly when no code repeats |
| Validators.RequestedCodesAreTrimmed | src/middleware/validators.ts:165 | the strict check sees one trimmed code per comma-separated piece |
| Validators.PaddedDuplicateRejected | src/middleware/validators.ts:165-181 | "AK1, AK1" is a duplicate once trimmed |
| Validators.CompareFundsAccepted | src/middleware/validators.ts:77-86 | the lenient check accepts exactly 2 to 5 untrimmed pieces none of which is all spaces |
| Validators.StrictImpliesLenient | src/middleware/validators.ts:72-87 | whatever the strict check accepts, the lenient one accepts |
| Validators.LenientIsWeaker | src/middleware/validators.ts:77-86 | "ak1,ak1" passes the lenient check and fails the strict one on its characters |
| RateLimiter.RateLimits | src/middleware/rateLimiter.ts:11-18 | six upper-case entries, each 25 per 15 minutes and 100 a day |
| RateLimiter.DailyStepWith | src/middleware/rateLimiter.ts:36-64 | one request changes only its own key, and only when it passes |
| RateLimiter.DailyStepCases | src/middleware/rateLimiter.ts:37-63 | whitelisted: pass, nothing changes. Missing or expired record: reset to count 1, expiring a day after `dayStart`. Otherwise 429 when the count has reached the limit, a failed lookup when there is no limit, else increment |
| RateLimiter.CountStaysWithinMax | src/middleware/rateLimiter.ts:55-62 | a count within the daily limit stays within it |
| RateLimiter.WindowAdmits | src/middleware/rateLimiter.ts:55-62 | within one day a key admits exactly as many requests as its count leaves below the limit |
| RateLimiter.FailedLookupBlocksWindow | src/middleware/rateLimiter.ts:55 | when the limit lookup fails, no request passes until the record expires and nothing changes |
| RateLimiter.RouteTypesMissLimits | src/middleware/rateLimiter.ts:55 | none of the six route names is a key of `RATE_LIMITS` |
| RateLimiter.OneRequestPerDay | src/routes/fundRoutes.ts:88 | a fresh key on the fund list route admits one request per day however many follow |
| RateLimiter.LimitsKeyOf | src/routes/fundRoutes.ts:88 | each route name maps to a key of `RATE_LIMITS`, the entry its route passes to the short-term limiter |
| RateLimiter.IntendedDailyStep | src/middleware/rateLimiter.ts:55 | the corrected counter never fails its lookup on a route name |
| RateLimiter.IntendedAdmitsDailyMax | src/middleware/rateLimiter.ts:55-62 | the corrected counter admits min(requests, 100) a day on every route |
| RateLimiter.DailyStore.constructor | src/middleware/rateLimiter.ts:21 | the store starts empty |
| RateLimiter.DailyStore.DailyLimiter | src/middleware/rateLimiter.ts:36-64 | the middleware updates the store in place as the daily step says and answers with its outcome |
| RateLimiter.Chain | src/middleware/rateLimiter.ts:66 | the daily limiter runs first; only a passed request reaches the short-term limiter, which whitelisting skips |
| QueryBuilder.Paging | src/utils/queryBuilder.ts:25-26 | the given limit is used and defaults to 20, page defaults to 1, offset = (page − 1) × limit |
| QueryBuilder.PagingTiles | src/utils/queryBuilder.ts:25-26 | with page ≥ 1 and limit ≥ 1 the offset is non-negative and each page starts where the previous ends |
| QueryBuilder.AddYieldFilters | src/utils/queryBuilder.ts:48-57 | each of the seven yield columns gets a range exactly when its `min_` or `max_` is given, with those bounds; other keys are kept |
| QueryBuilder.BuildFundFilters | src/utils/queryBuilder.ts:23-72 | type, management company, tefas (`=== 'true'`), code (substring), yield ranges and search (code or title) are each set exactly when their parameter is given, and no other key is |
| QueryBuilder.BuildHistoricalValueFilters | src/utils/queryBuilder.ts:74-108 | a date range exactly when a bound is given; the weekly or monthly last-date subquery exactly when an interval other than daily is given; nothing else |
| QueryBuilder.HavingConditionsOfGiven | src/utils/queryBuilder.ts:148-165 | each condition is a given filter's prefix and value, and every given filter has one |
| QueryBuilder.BuildCompanyHavingClause | src/utils/queryBuilder.ts:145-168 | the given conditions in source order joined with " AND ", or "1=1" when there are none |
| QueryBuilder.HavingTrivialOnlyWithoutFilters | src/utils/queryBuilder.ts:167 | the clause is "1=1" exactly when none of the six filters is given |
| QueryBuilder.CompanyOrder | src/utils/queryBuilder.ts:125-128 | title ascending unless a sort is given, then that column in the given order, ascending by default |
| QueryBuilder.BuildCompanyFilters | src/utils/queryBuilder.ts:110-143 | paging, search as the only `where` key, the ordering, and the HAVING clause |
| CompanyController.Average | src/controllers/companyController.ts:7-12 | `calculateAverage` is null exactly when no value is non-null |
| CompanyController.AverageBetween | src/controllers/companyController.ts:8-10 | the average (sum of the non-null values over their count) lies between any lower and upper bound of those values |
| CompanyController.OrderFor | src/controllers/companyController.ts:52-64 | total_funds, code, title and `avg_yield*` keep the requested direction; any other sort is code ascending |
| CompanyController.ListCompaniesPlan | src/controllers/companyController.ts:17-50 | page 1, limit 20, offset = (page − 1) × limit; search on code or title when given; the fund-count filter exactly when min > 0 or max < 999999, with those bounds |
| CompanyController.ListingOrder | src/controllers/companyController.ts:20-64 | without a sort the listing is by code in the requested order; an unknown sort ignores the requested order |
| CompanyController.AveragesOf | src/controllers/companyController.ts:100-109 | each of the six yield averages is null exactly when no fund has that yield |
| CompanyController.SortDescending | src/controllers/companyController.ts:181 | the sort is a permutation ordered by one-year yield, highest first |
| CompanyController.BestPerforming | src/controllers/companyController.ts:180-193 | `slice(0, 5)`: min(5, number of funds with a one-year yield) entries |
| CompanyController.BestPerformingRanked | src/controllers/companyController.ts:180-193 | the entries are the sorted funds with a one-year yield, highest first, each a fund of the company without its three-month yield |
| CompanyController.BestPerformingAreTop | src/controllers/companyController.ts:180-193 | no fund with a one-year yield left out of the five has a higher yield than any chosen |
| CompanyController.StatsOf | src/controllers/companyController.ts:152-194 | the fund count, the averages (one-year null exactly when no fund has one), and at most five best performers |
| CompanyController.GetCompanyDetails | src/controllers/companyController.ts:133-200 | 404 exactly when the company is missing; otherwise its statistics, and its funds exactly when `include_funds` is not "false" |
| CompanyController.OnlyFalseExcludes | src/controllers/companyController.ts:135 | only the exact string "false" drops the funds |
| FundController.ListFundsOrder | src/controllers/fundController.ts:11-12 | sort defaults to title and order to ASC, upper-cased |
| FundController.HistoricalOrder | src/controllers/fundController.ts:61-62 | sort defaults to date and order to DESC, upper-cased |
| FundController.LowerCaseOrderAccepted | src/controllers/fundController.ts:12-62 | "desc" reaches the query as "DESC" on both endpoints |
| FundController.Lookup | src/controllers/fundController.ts:94-110 | `code IN (...)`: the table's funds whose code is requested, and no others |
| FundController.Missing | src/controllers/fundController.ts:118-119 | the requested codes not among the found codes, and no others |
| FundController.MissingSingle | src/controllers/fundController.ts:119 | one requested code is listed, once, exactly when no found fund has it |
| FundController.MissingAppend | src/controllers/fundController.ts:119 | the list for a concatenated request is the two lists in order, so the missing codes are the request filtered in order with repeats kept |
| FundController.CompareCodes | src/controllers/fundController.ts:112-127 | 404 "none found" exactly when no fund matches; the missing list names requested codes not found; a success returns exactly the matching funds |
| FundController.CompareFunds | src/controllers/fundController.ts:85-131 | 400 exactly when `codes` is absent or empty; otherwise the raw pieces are compared |
| FundController.CompareOutcome | src/controllers/fundController.ts:112-127 | with unique table codes and distinct requested codes: success exactly when every code is in the table; otherwise a non-empty list of exactly the absent codes |
| FundController.PaddedCodeReportedMissing | src/controllers/fundController.ts:93 | "AK1, IYB2" passes the strict check, yet with both funds in the table " IYB2" is reported missing |
| FundController.IntendedCompareFunds | src/controllers/fundController.ts:85-131 | the corrected comparison looks up the trimmed codes; 400 in the same cases |
| FundController.IntendedComparesAcceptedCodes | src/controllers/fundController.ts:93-127 | after the strict check, the corrected comparison succeeds exactly when the table has every accepted code, otherwise names each one it lacks |
| FundController.PaddedCodeFoundWhenTrimmed | src/controllers/fundController.ts:93 | the corrected comparison returns both funds for "AK1, IYB2" |

## Left out

- Database and ORM calls (`findByPk`, `findAll`, `findAndCountAll`, `count`) are inputs. The model covers the parameters handed to them, not the SQL the ORM generates.
- SQL text is opaque tokens: the fund-count subquery becomes its (min, max) pair; the historical interval subqueries become a grouping tag; the HAVING conditions keep their prefixes as strings.
- `parseInt` and `parseFloat` results arrive already parsed (`Option<int>` for page, limit and the fund-count bounds). A `NaN` from a malformed number is not modelled. Yield and date bounds stay strings.
- Floating point is replaced by exact `real`. `Infinity`/`NaN` from the unguarded divisions become `None`. The `Number()` coercion of DECIMAL columns is taken as exact.
- Time zones and `toISOString` formatting are left out: a row's date is its (year, month, day) triple.
- The clock: `now` and `dayStart` are parameters. `analyze` reads the clock three times (lines 10, 82 and 108); one instant stands for all three.
- The short-term `express-rate-limit` limiter is library behaviour; its verdict is a boolean input. `isWhitelisted`'s URL parsing is a boolean input.
- The `express-validator` chain around the custom checks (`isString`, `notEmpty`, `withMessage`, `validate`) is library behaviour; only the custom closures are modelled.
- Routing, Swagger documentation, app start-up, the response cache and the analysis controller are wiring, not core behaviour.
- `getFundDetails` (a lookup and a 404) and the response envelopes of `listFunds` and `listCompanies` only pass database results through.
- `toUpperCase` is modelled on ASCII letters only.
- FundController.Lookup: `code IN (...)` is taken as exact, case- and space-sensitive string equality. The database collation, which the source never sets, is not modelled; under a PAD SPACE collation a trailing-space code such as "AK1 " would match "AK1", which the model reports as missing.
- CompanyController.SortDescending: the sort is stable by construction (an earlier fund goes before a later one with the same yield), but that stability is not stated as a contract.
- InvestmentAnalysis.MonthlySamples: its own contract states only that every sample sits under its own month; the selection rule is proved in `SampleKeys`, `SampleFromSeries`, `SampleBestEligible` and `SampleFirstFallback`.
- InvestmentAnalysis.StartBeforeToday: for one month back it allows the start to fall in the current month, because the source's `setMonth` does exactly that (see Findings).
- CompanyController.StatsOf: its own contract names only the one-year average's null case; the other five come from `AveragesOf`.
- InvestmentAnalysis.Analyze keeps the loop as written: the corrected simulations (first-month flag, month-by-month stepping) and start date are proved beside it but are not used by `Analyze`, which models the code.

## Findings

| source | as written | input that shows it | evidently intended | confidence | as-written member | corrected member |
|---|---|---|---|---|---|---|
| src/services/investmentAnalysisService.ts:155 | "first month" is `monthlyDetails.length === 0`, and rows are only pushed with details on | details off; months Jan and Feb 2024 at price 10; 1000 initial, 100 monthly: 1000 invested, against 1100 with details on | the first processed month is the first month whether or not details are reported | high, not executed | InvestmentAnalysis.DetailsFlagChangesTotals | InvestmentAnalysis.IntendedTotalsIgnoreDetails |
| src/middleware/rateLimiter.ts:55 | `RATE_LIMITS[type]` is indexed with the route name ('funds-list', src/routes/fundRoutes.ts:88) while the table's keys are FUNDS_LIST etc.; reading `DAILY_MAX` of `undefined` throws | two requests from one address to the fund list on the same day: the second throws instead of passing | each route looks up its own entry and admits 100 requests a day | high, not executed | RateLimiter.OneRequestPerDay | RateLimiter.IntendedAdmitsDailyMax |
| src/controllers/fundController.ts:93 | the codes are split without trimming, though the validator trimmed them before checking | codes "AK1, IYB2" with both funds in the table: 404 with missing " IYB2" | look up the trimmed codes the validator accepted | high, not executed | FundController.PaddedCodeReportedMissing | FundController.IntendedComparesAcceptedCodes |
| src/services/investmentAnalysisService.ts:36-38 | `setMonth(currentMonth - 1)` keeps today's day, which overflows when the previous month is shorter | now = 31 March 2024: the start is 2 March 2024, in the current month | the same day one month earlier, clamped to that month's last day | medium, not executed | InvestmentAnalysis.OneMonthAgoSlips | InvestmentAnalysis.ClampedStartDate |
| src/services/investmentAnalysisService.ts:198-200 | the loop moves on with `setMonth(getMonth() + 1)` from the sample's own date, which overflows from a day the next month lacks | now = 31 March 2024, start "3 months": samples on 31 January, 29 February and 29 March give rows for January and March only | visit every calendar month from the start month through the current one | medium, not executed | InvestmentAnalysis.MonthEndSampleSkipsFebruary | InvestmentAnalysis.MonthByMonthVisitsEverySample |
