# Blueprint revenue-opportunity generator, modelled in Dafny

The repository's generator (`generate_revenue_data`) produces a synthetic
sales-pipeline table: 5000 opportunities, each with an identifier, created
and close dates, region, product, channel, sales stage, deal size, win
probability, expected and actual revenue, marketing program, quarter and
month. Every random choice the generator makes for a record becomes an input
here (`Generator.Draws`). With the draws fixed, a record is a pure function of
its index and its draws (`Generator.MakeOpportunity`). A run is the sequence
of records built from the draws in index order (`Generator.GenerateRevenueData`).

Modules:

- `Calendar` (calendar.dfy): Python's proleptic Gregorian dates. It has the
  closed-form ordinal of `date.toordinal()` and a month-by-month
  `AddDays` for `date + timedelta(days=n)`, proved to move the ordinal by `n`.
  It also holds the quarter of a month.
- `Pipeline` (pipeline.dfy): the categorical fields and the stage rules:
  probability, expected revenue and actual revenue. Amounts are exact reals.
- `Money` (money.dfy): what the record builder needs from `round(x, 2)`
  (`IsRounding`), and an exact-real half-even rounding that meets it.
- `OpportunityIds` (ids.dfy): the `OPP_{i:05d}` identifiers and a parser
  that reads them back.
- `Generator` (generator.dfy): draws, records, the record invariants, the
  generation loop and the summary totals.
- `Optional` (optional.dfy): an option type.

Behaviour of the generator worth knowing:

- The created date is drawn with `randint(0, 364)` from 2024-01-01. Because
  2024 is a leap year, the window never reaches 2024-12-31
  (`Generator.CreatedDateWindow`).
- The record count is the constant 5000, and nothing validates it. The model
  takes the draws as a sequence, so the count is the length of that sequence.
- For a lost deal the code also yields an expected revenue of 0, and for a
  won deal the expected revenue equals the deal size. So actual revenue
  equals expected revenue for every stage, not only for the open ones, and
  the printed expected and actual totals always agree
  (`Pipeline.ActualRevenue`, `Generator.SummaryTotals`).

## Model

| member | source | states |
|---|---|---|
| Calendar.DaysInMonth | generate_blueprint_data.py:39-40 | Gregorian month lengths: 28 exactly for February of a common year, 29 exactly for February of a leap year, 30 exactly for April, June, September and November, and 31 for every other month |
| Calendar.DaysBeforeYearStep | generate_blueprint_data.py:39-40 | the closed-form day count before January 1 grows by 366 across a leap year and by 365 across any other year |
| Calendar.NextMonthStart | generate_blueprint_data.py:39-40 | the first of the next month is a valid, later date, exactly the rest of the current month plus one day ahead |
| Calendar.AddDays | generate_blueprint_data.py:39-40 | adding `n` days to a valid date gives a valid date whose ordinal is exactly `n` greater, as `date + timedelta(days=n)` does |
| Calendar.OrdinalWithinYear | generate_blueprint_data.py:39 | every date of a year has an ordinal from that year's January 1 up to, but excluding, the next January 1 |
| Calendar.OrdinalOrder | generate_blueprint_data.py:40 | one date comes before another in the calendar exactly when its ordinal is smaller, and two dates are equal exactly when their ordinals are |
| Calendar.YearOfOrdinal | generate_blueprint_data.py:39 | a date whose ordinal lies in a year's span belongs to that year |
| Calendar.QuarterOf | generate_blueprint_data.py:77 | the quarter of a month 1..12 is in 1..4, and the month is one of that quarter's three months |
| Calendar.QuarterMonotone | generate_blueprint_data.py:77 | a later month never has an earlier quarter |
| Pipeline.Probability | generate_blueprint_data.py:49-58 | the probability is in 0..100; it is 100 exactly for Closed Won, 0 exactly for Closed Lost, and 20, 40, 60, 80 for the open stages in pipeline order |
| Pipeline.ProbabilityFollowsPipeline | generate_blueprint_data.py:56-57 | the open stages, in pipeline order, have probabilities 20, 40, 60, 80, strictly increasing |
| Pipeline.ExpectedRevenue | generate_blueprint_data.py:74 | the probability-weighted deal is between 0 and the deal for a non-negative deal; it is 0 when lost and the whole deal when won |
| Pipeline.ActualRevenue | generate_blueprint_data.py:49-58 | actual revenue (the deal when won, 0 when lost, the weighted deal otherwise) equals the expected revenue for every stage |
| Money.RoundHalfEven2 | generate_blueprint_data.py:72-75 | rounding gives a whole number of cents within half a cent of the input |
| Money.HalfEvenIsRounding | generate_blueprint_data.py:72-75 | half-even rounding to cents maps 0 to 0, errs by at most half a cent, and is monotone |
| OpportunityIds.Decimal | generate_blueprint_data.py:65 | the decimal form of an index is a non-empty digit string with no leading zero |
| OpportunityIds.ZeroPad | generate_blueprint_data.py:65 | padding keeps the digit string at the end behind only `'0'` characters, makes it exactly the width unless it is already longer, and keeps the value it denotes |
| OpportunityIds.DecimalRoundTrip | generate_blueprint_data.py:65 | reading the decimal form of an index gives the index back |
| OpportunityIds.LeadingZerosValue | generate_blueprint_data.py:65 | zero padding does not change the value a digit string denotes |
| OpportunityIds.DecimalLength | generate_blueprint_data.py:65 | an index has at most `k` decimal digits exactly when it is below 10^k |
| OpportunityIds.ParseFormatRoundTrip | generate_blueprint_data.py:65 | parsing the identifier of index `i` gives `i` back, for every `i` |
| OpportunityIds.FormatId | generate_blueprint_data.py:65 | an identifier is `OPP_` followed only by digits, at least five of them, and more exactly when the index needs more |
| OpportunityIds.FormatIdInjective | generate_blueprint_data.py:65 | different indices give different identifiers |
| OpportunityIds.FormatIdLength | generate_blueprint_data.py:65 | an identifier has at least 9 characters, and exactly 9 when its index is below 100000 |
| Generator.CreatedDateWindow | generate_blueprint_data.py:39 | offsets 0..365 from 2024-01-01 stay in 2024, and only offset 365 reaches 2024-12-31, which the drawn range 0..364 excludes |
| Generator.CloseDateGap | generate_blueprint_data.py:40 | the close date is exactly the drawn 30..180 days after the created date, so strictly later, and falls in 2024 or 2025 |
| Generator.MakeOpportunity | generate_blueprint_data.py:39-79 | a record parses back to its index; its created date is the drawn offset after 2024-01-01 and its close date the drawn gap after that; month and quarter come from the created date; the categories are the drawn ones; the probability is the stage's; actual revenue equals expected revenue |
| Generator.MakeOpportunityDates | generate_blueprint_data.py:39-78 | a record built from in-range draws has its created date in 2024, a close date 30..180 days later, and month and quarter taken from the created date |
| Generator.RoundedRevenueRules | generate_blueprint_data.py:49-75 | with any monotone rounding that fixes 0 applied to all three amounts: won gives actual equal to the rounded deal, lost gives both revenues 0, actual always equals expected, and actual lies between 0 and the rounded deal |
| Generator.RoundedExpectedWithinACent | generate_blueprint_data.py:72-74 | when the deal and the expected revenue are each rounded to within half a cent, the rounded expected revenue is within a cent of the rounded deal times the probability |
| Generator.MakeOpportunityRevenue | generate_blueprint_data.py:49-75 | the record builder's probability and amounts satisfy the stage revenue rules, and its expected revenue is within a cent of the rounded deal weighted by the probability |
| Generator.MakeOpportunityWellFormed | generate_blueprint_data.py:39-79 | every record built from in-range draws satisfies all the record invariants |
| Generator.GenerateRevenueData | generate_blueprint_data.py:38-79 | a run yields exactly one record per draw, and record `i` is built from index `i` and draw `i` |
| Generator.BuildInOrder | generate_blueprint_data.py:38 | the loop builds exactly one output per input, the output at `i` made from index `i` and input `i` |
| Generator.GeneratedIdsDistinct | generate_blueprint_data.py:65 | each record of a run parses back to its own index, so no two records share an identifier |
| Generator.GeneratedRecordsWellFormed | generate_blueprint_data.py:38-79 | with in-range draws, every record of a run satisfies the record invariants |
| Generator.DefaultRunIds | generate_blueprint_data.py:65 | in a run of 5000 records every identifier is 9 characters long and starts with `OPP_` |
| Generator.SummaryTotals | generate_blueprint_data.py:85-87 | over well-formed records the expected and actual revenue totals are equal, non-negative, and at most the pipeline total |

## Left out

- Pseudo-random generation: the seeds, `random.randint`, `random.choice`,
  the weighted `random.choices` with weights 15/20/25/20/15/5, and the
  log-normal deal size. These are library behaviour. Each draw is an input
  instead, and `Generator.InRange` states only the ranges the draws come from.
- Determinism under a fixed seed: it depends on the random number generators,
  which are not part of this model.
- Floating point: amounts are exact reals. `round(x, 2)` is a parameter, and
  the properties hold for any rounding that maps 0 to 0, stays within half a
  cent and is monotone. Python rounds the binary value of a float, which the
  exact-real `Money.RoundHalfEven2` does not model.
- Generator.SummaryTotals: the pandas sums are exact real sums here, without
  the rounding of float addition.
- Calendar.AddDays: Python's `OverflowError` past year 9999 is not modelled.
  The generator's dates stay in 2024 and 2025.
- Output: `strftime` formatting of the dates, the DataFrame, the CSV file
  and the formatting of the printed summary are not modelled. The record keeps the dates as
  `Calendar.Date` and the categories as datatypes whose `Name` is the text
  written to the file.
- `n_programs` (line 19) is assigned but never used by the generator.
- powerbi_analysis.py is not part of this model. It is pandas aggregation and
  matplotlib rendering of the generated table.
