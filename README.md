# UniFi money pipeline and rule engines, modelled in Dafny

This project models the computational core of UniFi, a personal-finance web application. It covers:

- the transaction analytics pipeline: normalising UI transactions into integer-cent `Txn`
  records, classifying transfers and refunds, and bucketing them into a gap-free
  income / expense / savings series;
- the aggregate metrics: savings rate, category breakdown, goal projection and the weekday
  spending histogram;
- the bank-statement CSV importer: a quote-aware line splitter, amount parsing, keyword
  categorisation, merchant extraction, row-skipping rules, and the recurring and unusual
  flagging passes;
- gamification: levels, titles, XP, streaks and the badge-unlock pass;
- the learning-progress state machine: hearts, spaced-repetition (SRS) queue, skill status,
  lesson completion and crowns, and answer checking;
- the insight rules and the chat assistant's data analysis and keyword routing.

Each source file has one module:

| module | file |
|---|---|
| `Normalize` | normalize.dfy |
| `Classify` | classify.dfy |
| `Series` | series.dfy |
| `Analytics` | analytics.dfy |
| `TransactionParser` | transaction_parser.dfy |
| `TransactionDetect` | detect.dfy (the two flagging passes of the importer) |
| `Gamification` | gamification.dfy |
| `Learning` | learning.dfy |
| `Insights` | insights.dfy |
| `AiResponse` | ai_response.dfy |

Helper modules hold shared definitions:

- `Wrappers`: `Option`/`Result`.
- `Strings`: ASCII case mapping, trimming, joining, number text.
- `JsNumbers`: JavaScript `ceil`/`round`/`min`/`max`, and division that yields `Infinity`/`NaN`.
- `Seqs`: filter, sum, count, find, and a stable insertion sort by a key.
- `Calendar`: civil dates, day numbers, weekdays, the Monday week start, month/quarter/year starts.
- `AnalyticsTypes` and `FinanceTypes`: the records of lib/analytics/types.ts and types/finance.ts.

Code that works step by step is modelled as methods, each proved equal to a specification function. The lemmas then state the promised properties about that function. This covers:

- `pairTransfers`, `markRefunds`, `generateBuckets` and the series aggregation;
- `parseCSVLine`, `parseCSVTransactions` and `categorizeTransaction`;
- the category and weekday tallies;
- `checkBadgeUnlocks`, and the in-place `isRecurring`/`isUnusual` flagging on an `array`;
- the insight rules and `analyzeFinancialData`.

The `useLearning` hook becomes the class `Learning.LearningState`. Its fields are `progress`, `lessonHearts`, `lessonXP`, `currentLesson`, `currentExercise` and the loaded content. Each action is a method that states its whole new state and keeps `Valid()`, which says:

- hearts lie in [0, maxHearts];
- every SRS entry has a listed interval and an ease in [1.3, 2.5];
- no two SRS entries share an exercise.

Dates are civil dates `(year, month, day)` with a day number counted from 1970-01-01. Wall-clock readings (`Date.now()`, `new Date()`) are parameters. Money is `real` in dollars, or `int` cents where the source uses cents.

## Model

| member | source | states |
|---|---|---|
| Normalize.NormalizeTransaction | lib/analytics/normalize.ts:7-33 | The direction is inflow exactly for a credit, and every other type is an outflow. amountCents is non-negative and within half a cent of \|amount\|×100. Description and merchant are trimmed. An existing id is kept and a missing one becomes "txn-…". The date and category are carried over. The account is 'Checking', the transaction is not pending, and meta is empty. |
| Normalize.StableId | lib/analytics/normalize.ts:38-41 | The generated id is "txn-" followed by at most 16 alphanumeric characters (the amount is printed rounded to cents; see Left out). |
| Normalize.StableIdStartsWithDate | lib/analytics/normalize.ts:38-41 | For a four-digit year, the id's characters after "txn-" begin with the eight digits of the date. So the id depends on the date first. |
| Normalize.DateTextDigits | lib/analytics/normalize.ts:38-40 | Keeping only the alphanumerics of the yyyy-MM-dd date text leaves its digits. |
| Normalize.NormalizeTransactions | lib/analytics/normalize.ts:46-48 | Length and order are preserved. Entry i is the normalised entry i. |
| Normalize.NormalizedShareOneAccount | lib/analytics/normalize.ts:29-31 | Every normalised transaction is on account 'Checking', settled, and has empty meta. |
| Classify.KeywordTestsIgnoreCase | lib/analytics/classify.ts:6-52 | The transfer and refund tests give the same answer for an upper-cased description or category. |
| Classify.KeywordInDescription | lib/analytics/classify.ts:16-34 | A description containing any transfer pattern is a transfer, whatever the category. |
| Classify.SimilarMerchants | lib/analytics/classify.ts:57-73 | Similarity lies in [0, 1]. It is 0 when either side is missing or empty. |
| Classify.SimilarMerchantsSymmetric | lib/analytics/classify.ts:60-72 | Similarity is symmetric. |
| Classify.SimilarMerchantsSelf | lib/analytics/classify.ts:60-72 | A string with at least one token longer than 2 characters has similarity 1 with itself. |
| Classify.SimilarMerchantsDisjoint | lib/analytics/classify.ts:66-72 | Strings with no token in common have similarity 0. This includes a string with no token at all. |
| Classify.WordsFrom | lib/analytics/classify.ts:60-64 | Tokenisation yields only non-empty runs of word characters (`\w`). |
| Classify.Ratio | lib/analytics/classify.ts:66-72 | The Jaccard ratio lies in [0, 1], and is 1 exactly when the intersection is the union. |
| Classify.SortByDate | lib/analytics/classify.ts:80 | The date sort is a permutation of its input. |
| Classify.SortByDateSorted | lib/analytics/classify.ts:80 | The date sort is ordered by day. |
| Classify.PartnerFrom | lib/analytics/classify.ts:87-110 | A partner found by the inner scan lies later in the sorted list, satisfies the pair rule, and is at most 2 days later; it is the first match, since no entry between the outflow and it satisfies the rule. |
| Classify.ScanForPartner | lib/analytics/classify.ts:87-110 | The inner loop, with its break at the first candidate more than 48h later and its break at the first match, returns the partner PartnerFrom specifies. |
| Classify.PairSorted | lib/analytics/classify.ts:82-110 | The outer loop yields exactly the ids of all greedy pairs, added two at a time. |
| Classify.PairTransfers | lib/analytics/classify.ts:78-114 | The method returns exactly the transfer-pair ids of the date-sorted input. |
| Classify.PairIdsUpToSound | lib/analytics/classify.ts:84-108 | Every paired id belongs to an outflow s[i] whose scan stopped at a later match s[j] within two days, and both ids are collected. |
| Classify.TransferPairIdsSound | lib/analytics/classify.ts:84-104 | Every paired id comes from an outflow a and an inflow b of the input. They have equal cents and different accounts, b is 0–2 days after a, and 'similar or transfer category' holds. Both a.id and b.id are paired. |
| Classify.TransferPairShape | lib/analytics/classify.ts:95-104 | A transfer pair has an inflow partner, equal amountCents and different accounts. |
| Classify.PartnerFromFinds | lib/analytics/classify.ts:87-108 | On a sorted list the scan finds a partner whenever a matching transaction within two days lies ahead. |
| Classify.PairIdsUpToGrows | lib/analytics/classify.ts:82-110 | Later outer iterations only add ids. |
| Classify.PairedWhenMatchFollows | lib/analytics/classify.ts:84-110 | An outflow with a matching later transaction within two days is paired. |
| Classify.TransferPairIdsComplete | lib/analytics/classify.ts:78-114 | An outflow with a matching inflow 1–2 days later is always paired. |
| Classify.NoPairsOnOneAccount | lib/analytics/classify.ts:98 | Transactions that all share one account are never paired. This applies to normalised data. |
| Classify.MarkTransfers | lib/analytics/classify.ts:119-129 | Length and order are preserved. Each transfer flag is (id is paired) or looksLikeTransfer. Every other field and the refund flag are unchanged. |
| Classify.MarkedTransferHasFlaggedPartner | lib/analytics/classify.ts:84-129 | A transaction flagged as a transfer without a keyword has a partner in the list: an outflow and a same-amount inflow on another account, 0–2 days apart, and both are flagged. |
| Classify.MarkRefundsSorted | lib/analytics/classify.ts:137-166 | Entry k of the backward-scan loop is the refund decision for sorted entry k. |
| Classify.MarkRefunds | lib/analytics/classify.ts:134-168 | The method equals RefundsMarked. |
| Classify.RefundsMarked | lib/analytics/classify.ts:134-168 | Length is preserved. |
| Classify.EarlierMatchIff | lib/analytics/classify.ts:146-164 | The backward scan, which stops at the first transaction older than 60 days, finds a match exactly when some earlier transaction within 60 days matches. |
| Classify.RefundsMarkedSpec | lib/analytics/classify.ts:134-168 | The result is sorted by date. Entry i gets refund = true exactly when the sorted entry i is an inflow with refund wording, and some earlier outflow at most 60 days older is ≥ 0.4 similar. Otherwise the entry is unchanged. |
| Classify.RefundsMarkedEntry | lib/analytics/classify.ts:134-168 | Each output is an input transaction with at most its refund flag changed. The transfer flag is kept. |
| Series.KeyIsBucketStart | lib/analytics/series.ts:8-29 | bucketKey returns a Monday for weeks, and a month, quarter or year start otherwise. |
| Series.KeyIff | lib/analytics/series.ts:8-29 | For a bucket start k, a date's key is k exactly when the date lies in k's bucket. |
| Series.InOwnBucket | lib/analytics/series.ts:8-29 | Every date lies inside the bucket its key names. |
| Series.NextBucket | lib/analytics/series.ts:54-81 | The next bucket starts strictly later. |
| Series.NextIsBucketStart | lib/analytics/series.ts:54-81 | The next bucket after a bucket start is again a bucket start. |
| Series.GenerateBuckets | lib/analytics/series.ts:54-81 | The push loop yields Buckets(grain, start, end). |
| Series.BucketsUpTo | lib/analytics/series.ts:54-81 | The push loop from the first bucket yields the chain of bucket starts up to end. |
| Series.BucketsSpec | lib/analytics/series.ts:54-81 | Every bucket is an aligned start between key(start) and end. Buckets strictly increase and are distinct. Every date in [start, end] has its key among them, so there are no gaps. |
| Series.Aggregate | lib/analytics/series.ts:109-138 | The map has exactly the generated buckets as keys. Each holds that bucket's totals over the classified transactions (zero-initialised, transfers skipped). |
| Series.AddAll | lib/analytics/series.ts:117-138 | The forEach accumulation over zero-initialised buckets yields BucketTotals for every key. The key set is unchanged. |
| Series.BucketTotalsStep | lib/analytics/series.ts:117-138 | One more transaction changes only its own bucket's totals, and a transfer changes none. |
| Series.PointOf | lib/analytics/series.ts:141-154 | A point carries its bucket and its income. expenseCents = max(0, rawExpense − refunds) and savingsCents = income − expense. |
| Series.SeriesFor | lib/analytics/series.ts:141-154 | There is exactly one point per bucket, in bucket order. |
| Series.Points | lib/analytics/series.ts:141-154 | The map over buckets yields SeriesFor. |
| Series.BuildIncomeExpenseSavingsSeries | lib/analytics/series.ts:86-157 | The method equals the specification IncomeExpenseSavingsSeries. Month is the default grain. |
| Series.ClassifiedInRange | lib/analytics/series.ts:98-105 | Every classified transaction is settled and dated within [start, end]. |
| Series.ColumnConservation | lib/analytics/series.ts:117-138 | When every transaction's key is a bucket, the per-bucket shares of a column add up to that column's total. |
| Series.SeriesForSums | lib/analytics/series.ts:141-154 | Summed over the series: income equals the income column. Expense is at least raw expense minus refunds, and non-negative. Savings = income − expense. |
| Series.SeriesTotals | lib/analytics/series.ts:86-157 | Over the whole series, income is the total of non-transfer, non-refund inflows. Expense is at least (outflows − refunds). Savings = income − expense. |
| Series.QuietBucketIsZero | lib/analytics/series.ts:112-114 | A bucket with no non-transfer transaction gives the all-zero point. |
| Series.ClassifiedAmount | lib/analytics/series.ts:98-105 | Every classified transaction has the amountCents of some input transaction. |
| Series.BucketTotalsNonNegative | lib/analytics/series.ts:117-138 | With no negative amountCents, each bucket's income, expense and refund sums are non-negative. |
| Series.SeriesIncomeNonNegative | lib/analytics/series.ts:126-153 | With no negative amountCents in the input, every point has incomeCents ≥ 0. Every point has expenseCents ≥ 0 whatever the amounts. |
| Series.CentsToDollars | lib/analytics/series.ts:162-164 | dollars × 100 = cents. |
| Series.QuarterLabel | lib/analytics/series.ts:42-43 | A quarter label reads "Q" and then the quarter 1–4 of its date, and then a space. |
| Series.SeriesToChartData | lib/analytics/series.ts:169-181 | Length and order are preserved. Each row carries its bucket's label and the income, expense and savings cents divided by 100. |
| Calendar.StartOfWeek | lib/analytics/series.ts:10-13 | The week start is a Monday on or before the date, fewer than 7 days earlier. |
| Calendar.StartOfWeekUnique | lib/analytics/series.ts:10-13 | Any Monday fewer than 7 days before (or on) the date is its week start. |
| Analytics.CreditsAndDebits | lib/analytics.ts:14-16 | Credits' and debits' totals add up to the total of all amounts, and their counts to the length. |
| Analytics.EarliestDay | lib/analytics.ts:22-23 | The minimum day over a non-empty list is attained and is a lower bound. |
| Analytics.LatestDay | lib/analytics.ts:22-24 | The maximum day over a non-empty list is attained and is an upper bound. |
| Analytics.DaySpanAsWritten | lib/analytics.ts:22-25 | With no transactions the span is NaN. Otherwise it is max(1, latest − earliest). |
| Analytics.DaySpan | lib/analytics.ts:22-25 | The corrected span is finite and at least 1. It agrees with the written span on non-empty lists. |
| Analytics.SavingsRate | lib/analytics.ts:19 | With positive income, rate × income = net × 100. Otherwise the rate is 0. |
| Analytics.RateAbove | lib/insights.ts:71-73 | With positive income, the rate exceeds a threshold c exactly when net × 100 > c × income. |
| Analytics.EmptyMetricsAsWritten | lib/analytics.ts:22-31 | With no transactions, the written averages and monthly figures are NaN. |
| Analytics.MetricsAgree | lib/analytics.ts:13-42 | On a non-empty list the corrected metrics equal the written ones. |
| Analytics.MetricsFromSpec | lib/analytics.ts:18-31 | For any totals over a span ≥ 1: net = income − expenses, and the rate is as SavingsRate says. The daily average × span = expenses. The monthly figures are total / span × 30. |
| Analytics.MetricsSpec | lib/analytics.ts:13-42 | calculateFinancialMetrics means exactly that. Its inputs are the totals of credits and of debits over a span of at least one day. |
| Analytics.SavingsRateAtMost | lib/analytics.ts:19 | With positive income and non-negative expenses, the rate is at most 100. |
| Analytics.SavingsRateAtMostAll | lib/analytics.ts:13-19 | With non-negative amounts, the savings rate is at most 100. |
| Analytics.Tally | lib/analytics.ts:45-56 | The map-filling loop returns the keys in first-seen order. Each key maps to its summed amount and count. Absent keys have nothing. |
| Analytics.FirstKeysSpec | lib/analytics.ts:50-59 | The keys are distinct, every element's key is among them, and each key comes from some element. |
| Analytics.GroupTotals | lib/analytics.ts:50-56 | Summed over the keys, the group amounts give the total and the group counts give the length. |
| Analytics.Percent | lib/analytics.ts:63 | With a positive total, percentage × total = amount × 100. Otherwise the percentage is 0. |
| Analytics.Entries | lib/analytics.ts:58-66 | There is one entry per key, in key order. |
| Analytics.CalculateCategorySpending | lib/analytics.ts:44-69 | The method equals CategorySpendingOf. |
| Analytics.EntriesSums | lib/analytics.ts:58-66 | The entries' amounts and counts sum to the group totals. |
| Analytics.CategorySpendingOrder | lib/analytics.ts:68 | The result is a permutation of the entries and is non-increasing by amount. |
| Analytics.CategorySpendingEntries | lib/analytics.ts:47-66 | Only debits count. There is one entry per distinct debit category, and each entry is that category's amount, percentage and count. |
| Analytics.CategorySpendingSums | lib/analytics.ts:47-66 | The amounts sum to total debits and the counts to the number of debits. |
| Analytics.NoCategoriesIffNoDebits | lib/analytics.ts:47-66 | The category list is empty exactly when there is no debit. |
| Analytics.ProgressSpec | lib/analytics.ts:72 | Progress is NaN only for 0/0. Otherwise it is at most 100, and at a zero target with positive savings it is 100. Otherwise it is min(100, current/target×100). |
| Analytics.ConfidenceSpec | lib/analytics.ts:90-92 | The confidence score is NaN only when progress is, and otherwise at most 100. |
| Analytics.MonthsToGoalSpec | lib/analytics.ts:74-77 | Monthly savings ≤ 0 gives the sentinel 999. Positive savings gives months × savings = remaining, and infinite savings gives 0. |
| Analytics.GoalDeadlineSpec | lib/analytics.ts:81-87 | A passed deadline means required savings of 0. Otherwise required × months left = remaining. isOnTrack holds exactly when monthsToGoal ≤ months until the deadline. |
| Analytics.GoalOnTrack | lib/analytics.ts:77-87 | monthsToGoal is finite, and isOnTrack holds exactly when it is at most the months left. |
| Analytics.GoalProgressBounded | lib/analytics.ts:72-92 | For a positive target and non-negative savings, progress and confidence are finite and lie in [0, 100]. |
| Analytics.DayOf | lib/analytics.ts:113-114 | The weekday index lies in 0..6. |
| Analytics.SpendingPatternsOf | lib/analytics.ts:106-130 | There are exactly 7 entries, named Sunday..Saturday in order. |
| Analytics.AnalyzeSpendingPatterns | lib/analytics.ts:106-130 | The method equals SpendingPatternsOf. |
| Analytics.RangeConservation | lib/analytics.ts:110-120 | With every key in 0..n−1, the per-key amounts and counts sum to the totals. |
| Analytics.SpendingPatternsTotals | lib/analytics.ts:106-130 | The seven entries' amounts sum to total debits and their counts to the number of debits. |
| Analytics.CalculateAnalytics | lib/analytics.ts:167-187 | The result carries the metrics as written (NaN averages for an empty list) and monthlyNet. Without a goal, goalProgress is 0 and there are no goal fields. With a goal, it carries the goal's progress, isOnTrack and monthsToGoal. |
| Analytics.MonthlyNetFinite | lib/analytics.ts:174-183 | monthlyNet is finite exactly when there is a transaction, and then equals monthly income − monthly expenses. With no transactions it is NaN. |
| Analytics.CalculateAnalyticsCorrected | lib/analytics.ts:167-187 | The same summary over the corrected metrics. It equals the summary as written whenever there is a transaction. |
| Analytics.CorrectedMonthlyNetFinite | lib/analytics.ts:174-183 | Over the corrected metrics, monthlyNet is always finite and equals monthly income − monthly expenses. |
| TransactionParser.FirstMatchFrom | lib/transaction-parser.ts:25-29 | It returns the first category, from position i on, that has a keyword contained in the text. |
| TransactionParser.CategorizeTransaction | lib/transaction-parser.ts:22-32 | The early-return loop equals Categorize. |
| TransactionParser.CategorizeSpec | lib/transaction-parser.ts:5-32 | The result is "Other" exactly when no keyword matches. Otherwise it is the first category in declaration order with a matching keyword. |
| TransactionParser.CategorizeIgnoresCase | lib/transaction-parser.ts:23 | Categorisation ignores case. |
| TransactionParser.GasIsNeverUtilities | lib/transaction-parser.ts:6-18 | A description containing "GAS" is Shopping, Dining or Transportation, never Utilities. |
| TransactionParser.GasExample | lib/transaction-parser.ts:8 | "gas" is Transportation. |
| TransactionParser.StripPrefix | lib/transaction-parser.ts:37 | Prefix removal leaves a suffix of the text. |
| TransactionParser.StripTrailingCode | lib/transaction-parser.ts:38 | Code removal leaves a prefix of the text. |
| TransactionParser.MerchantSpec | lib/transaction-parser.ts:34-42 | The merchant is a trimmed infix of the description. |
| TransactionParser.PlainMerchant | lib/transaction-parser.ts:34-42 | A description with no statement prefix and no trailing code gives its trimmed self. |
| TransactionParser.MerchantDropsCode | lib/transaction-parser.ts:34-42 | "m dddd", with no prefix, gives m. |
| TransactionParser.CsvFields | lib/transaction-parser.ts:118-138 | There is always at least one field. |
| TransactionParser.ParseCsvLine | lib/transaction-parser.ts:118-138 | The character loop with its inQuotes flag equals CsvFields. |
| TransactionParser.ScanParity | lib/transaction-parser.ts:126-127 | After any prefix, inQuotes holds exactly when an odd number of quotes has been read. |
| TransactionParser.CsvFieldsSpec | lib/transaction-parser.ts:118-138 | There are (commas outside quotes) + 1 fields, and no field contains '"'. Joining the fields with "," gives the line with every '"' removed. |
| TransactionParser.SeparatorsSpec | lib/transaction-parser.ts:126-130 | A position splits the line exactly when it holds a comma and an even number of quotes precede it. |
| TransactionParser.ScanSplits | lib/transaction-parser.ts:123-134 | After any prefix, each finished field is the quote-free text between two consecutive separators, and the current field runs from the last separator to the end. |
| TransactionParser.CsvFieldsSplit | lib/transaction-parser.ts:118-138 | Field k is the quote-free text between the k-th and the (k+1)-th separator, or the line's ends. So a comma inside quotes stays inside its field. |
| TransactionParser.QuotedCommaExample | lib/transaction-parser.ts:126-136 | Example: `"a,b",c` splits into ["a,b", "c"]. |
| TransactionParser.FieldCount | lib/transaction-parser.ts:128-136 | The field count is the number of commas outside quotes, plus one. |
| TransactionParser.ParseAmountWithoutDigits | lib/transaction-parser.ts:141-151 | An empty or digit-free amount text parses to 0. |
| TransactionParser.ParseAmountOfNat | lib/transaction-parser.ts:141-151 | A plain whole number parses to its value. |
| TransactionParser.ParseDollars | lib/transaction-parser.ts:140-151 | "$d.cc" parses to d + cc/100, and "$(d.cc)" parses to its negation. |
| TransactionParser.SplitLines | lib/transaction-parser.ts:45 | Splitting yields at least one line. |
| TransactionParser.LinesHaveNoFeed | lib/transaction-parser.ts:45 | No line contains a line feed. |
| TransactionParser.RowIdInjective | lib/transaction-parser.ts:102 | Ids of rows numbered differently differ. |
| TransactionParser.RowSkipped | lib/transaction-parser.ts:55-79 | A row is skipped exactly when it has fewer than 5 fields, contains BEGINNING BALANCE, or has a zero or missing amount. The withdrawal takes precedence. |
| TransactionParser.RowKept | lib/transaction-parser.ts:55-111 | A kept row has a non-zero amount and the row id. It is a debit exactly when the withdrawal is non-empty. Its amount is parsed from that field. It has the trimmed description, the extracted merchant and the keyword category, with no tags and no flags. |
| TransactionParser.ParsedRowsSource | lib/transaction-parser.ts:48-112 | Every output comes from some row after the header, and every readable row after the header is in the output. |
| TransactionParser.HeaderIgnored | lib/transaction-parser.ts:49 | The first line never affects the result. |
| TransactionParser.ParseCsvSpec | lib/transaction-parser.ts:44-115 | There are fewer transactions than lines. All amounts are non-zero and all ids are distinct. |
| TransactionParser.ParseCsvTransactions | lib/transaction-parser.ts:44-115 | The indexed loop equals ParseCsv. |
| TransactionParser.ParseLine | lib/transaction-parser.ts:50-53 | One trimmed, split line gives ParseRow. |
| TransactionParser.RowOfFields | lib/transaction-parser.ts:55-111 | The field checks give RowFrom. |
| TransactionParser.ChooseAmount | lib/transaction-parser.ts:66-76 | The amount and type are chosen as RowAmount says: the withdrawal first, then the deposit. |
| TransactionDetect.AbsDeviation | lib/transaction-parser.ts:169 | The mean absolute deviation is non-negative. |
| TransactionDetect.MembersSpec | lib/transaction-parser.ts:155-162 | A merchant's group holds exactly the indices of its transactions, ascending. |
| TransactionDetect.GroupByMerchant | lib/transaction-parser.ts:155-162 | The grouping loop gives every merchant of the list, and each group is its Members. |
| TransactionDetect.MarkGroup | lib/transaction-parser.ts:173-175 | Only the listed indices get isRecurring = true. Every other element is unchanged. |
| TransactionDetect.FlagGroup | lib/transaction-parser.ts:165-177 | A group is flagged only if it is recurring. |
| TransactionDetect.DetectRecurringTransactions | lib/transaction-parser.ts:154-181 | The array afterwards is MarkRecurring of the array before. |
| TransactionDetect.MarkRecurringSpec | lib/transaction-parser.ts:154-181 | Length and order are preserved, and only isRecurring changes. It becomes true exactly for merchants whose group is recurring. |
| TransactionDetect.RecurringNeedsThree | lib/transaction-parser.ts:166 | A recurring merchant has at least three transactions. |
| TransactionDetect.SteadyPaymentsRecurring | lib/transaction-parser.ts:164-176 | Three or more equal positive payments to one merchant are all flagged. |
| TransactionDetect.NoRecurringWithoutPositive | lib/transaction-parser.ts:172 | A merchant with no positive amount is never recurring. |
| TransactionDetect.MarkRecurringIdempotent | lib/transaction-parser.ts:154-181 | Flagging twice is flagging once. |
| TransactionDetect.DebitAmounts | lib/transaction-parser.ts:185 | There are no more debit amounts than transactions. |
| TransactionDetect.OutlierIsTwoDeviations | lib/transaction-parser.ts:190-194 | For a standard deviation sd with sd² = variance, x > mean + 2·sd holds exactly when the squares test does. |
| TransactionDetect.DetectUnusualTransactions | lib/transaction-parser.ts:184-200 | The array afterwards is MarkUnusual of the array before. |
| TransactionDetect.MarkUnusualSpec | lib/transaction-parser.ts:184-200 | Length and order are preserved, and only isUnusual changes. With no debits nothing changes. Every changed entry is a debit above the mean, now flagged. |
| TransactionDetect.EqualDebitsNotUnusual | lib/transaction-parser.ts:189-196 | When all debits are equal, nothing is flagged. |
| TransactionDetect.SmallestDebitNotUnusual | lib/transaction-parser.ts:194 | The smallest debit is never flagged. |
| TransactionDetect.FewUnusual | lib/transaction-parser.ts:189-196 | Fewer than a quarter of the debits are flagged. |
| TransactionDetect.MarkUnusualIdempotent | lib/transaction-parser.ts:184-200 | Flagging twice is flagging once. |
| Gamification.CalculateLevel | lib/gamification.ts:177-179 | (level − 1)·1000 ≤ xp < level·1000, that is ⌊xp/1000⌋ + 1. |
| Gamification.LevelMonotone | lib/gamification.ts:177-179 | The level is monotone in xp, and at least 1 for xp ≥ 0. |
| Gamification.TitleOfPoints | lib/gamification.ts:181-188 | The title is Beginner exactly below 1000 xp and Guru exactly from 19000 xp. It is Money Manager for 9000–13999. |
| Gamification.CalculateXPForNextLevel | lib/gamification.ts:195-197 | level·1000 is the first xp of the next level. |
| Gamification.GetXPForNextLevel | lib/gamification.ts:190-193 | The next threshold is above xp, at most 1000 above, a multiple of 1000, and one level higher. |
| Gamification.AddXPSpec | lib/gamification.ts:282-291 | xp grows by amount and the level is recomputed. Every other field is unchanged. Two additions compose, and a non-negative amount never lowers the level. |
| Gamification.DatePart | lib/gamification.ts:294-295 | The date part is the text before the first 'T'. |
| Gamification.UpdateStreakSpec | lib/gamification.ts:293-314 | Off budget, the streak drops to 0 and the longest streak is kept. On budget, the streak holds on the same day and otherwise grows by 1, and the longest streak = max(new, old). xp, level and the date stamp are as stated. |
| Gamification.TwoDaysOnBudget | lib/gamification.ts:297-306 | Two on-budget updates on distinct new days add 2 to the streak. |
| Gamification.AllBadgesSpec | lib/gamification.ts:20-175 | There are 17 badges, all locked, with distinct ids. |
| Gamification.UnlockPassSpec | lib/gamification.ts:215-279 | Length, ids and names are preserved. Unlocked badges are untouched. Each changed badge is unlocked now. The returned list is exactly the changed badges, in order. |
| Gamification.MissingDataKeepsLocked | lib/gamification.ts:224-269 | Without a goal the goal badges stay locked. Without learning data the learning badges stay locked. |
| Gamification.GoalThresholds | lib/gamification.ts:224-244 | saver-initiate unlocks at currentAmount ≥ 100. The quarter, midway, almost-there and achieved badges unlock at progress ≥ 25/50/75/100%. |
| Gamification.GoalBadgesNested | lib/gamification.ts:233-244 | Each goal badge's condition implies the lower ones. |
| Gamification.CheckBadgeUnlocks | lib/gamification.ts:199-280 | The badge array becomes UnlockPass of its old contents. The result is the flipped badges. |
| Gamification.CheckLearningBadgeUnlocks | lib/gamification.ts:321-334 | This is checkBadgeUnlocks with no goal and no transactions. |
| Gamification.LearningPassSkipsGoals | lib/gamification.ts:321-334 | The learning pass never unlocks a goal badge or transaction-master. |
| Learning.LessonsStatusSpec | hooks/use-learning.ts:129-144 | The lesson-based status is never locked. It is passed or perfect exactly when there are lessons and all are complete, and perfect when one of them is perfect. An empty skill is open. |
| Learning.SkillStatusSpec | hooks/use-learning.ts:117-145 | An unfolding of the definition: a skill is locked exactly when it lists prerequisites that are not all met. Otherwise its lessons decide. FinishedStatus and FinishedPrerequisitesUnlock say which prerequisites are met. |
| Learning.FinishedStatus | hooks/use-learning.ts:129-142 | A finished skill has status perfect or passed, according to its lessons. |
| Learning.PerfectPrerequisiteLocksAsWritten | hooks/use-learning.ts:119-126 | As written, a perfectly finished prerequisite locks the dependent skill. |
| Learning.FinishedPrerequisitesUnlock | hooks/use-learning.ts:119-126 | With the corrected test, finished leaf prerequisites (passed or perfect, with no prerequisites of their own) let the lessons decide. |
| Learning.CorrectionOnlyUnlocks | hooks/use-learning.ts:119-126 | The correction changes nothing except locked statuses. |
| Learning.CorrectionKeepsDone | hooks/use-learning.ts:120-125 | A prerequisite done under the written test is done under the corrected one. |
| Learning.CrownsSpec | hooks/use-learning.ts:248-256 | Crowns are awarded exactly when every lesson is complete: 3 if one is perfect, else 2. |
| Learning.CompletedProgressSpec | hooks/use-learning.ts:228-256 | The lesson gets perfect or passed, and xp grows by 15 or 10. Hearts, SRS, streak and other skills' crowns are unchanged. The skill's crowns change only when all its lessons are complete, to 2 or 3. |
| Learning.LastLessonCrowns | hooks/use-learning.ts:242-256 | Completing a skill's last missing lesson awards its crowns, and then 3 crowns if that lesson is perfect. |
| Learning.CheckAnswerSpec | hooks/use-learning.ts:168-192 | The answer key is accepted. Tap tokens are compared as multisets, and an ordering must match exactly. With no tolerance the answer's numeric value must be exact. The check throws exactly when a tap-tokens answer is not a list (`answer.sort()`). |
| Learning.NumericValue | hooks/use-learning.ts:181 | The number `answer - correct` subtracts: a number itself, true as 1 and false as 0, the empty list as 0, and NaN (none) exactly for a non-empty list. |
| Learning.NumbersAnswerAlike | hooks/use-learning.ts:170-182 | Example: the number 2 answers option 2, 3 answers a fill-in of 3, true answers a fill-in of 1, and a number given to tap-tokens throws. |
| Learning.AnswerOutcome | hooks/use-learning.ts:160-164 | There is an outcome exactly when the exercises are loaded and one has the id. |
| Learning.NextInterval | hooks/use-learning.ts:279-281 | The next interval is in [1, 2, 3, 5, 8, 13, 21]. |
| Learning.NextIntervalSpec | hooks/use-learning.ts:279-281 | The interval steps one place along the list, capped at 21. An unlisted interval gives 1, and a listed interval below 21 grows. |
| Learning.ReviewedSpec | hooks/use-learning.ts:274-299 | A correct answer steps the interval, sets ease to min(ease + 0.1, 2.5) and the wrong streak to 0. A wrong answer sets interval 1, ease max(ease − 0.2, 1.3) and wrongStreak + 1. The entry is due after its interval, and validity is kept. |
| Learning.EnqueueExisting | hooks/use-learning.ts:274-303 | An existing entry is replaced at its index, and the queue length is unchanged. |
| Learning.EnqueueNew | hooks/use-learning.ts:304-315 | A new entry is appended with interval 2/1, ease 2.5/1.3 and wrongStreak 0/1. |
| Learning.EnqueueValid | hooks/use-learning.ts:267-317 | Enqueueing keeps the queue valid. |
| Learning.DequeueSpec | hooks/use-learning.ts:319-324 | Exactly the entries for the exercise are removed. |
| Learning.DequeueValid | hooks/use-learning.ts:319-324 | Dequeueing keeps the queue valid. |
| Learning.DequeueEnqueue | hooks/use-learning.ts:267-324 | Dequeueing after enqueueing an exercise is dequeueing it. |
| Learning.PracticeQueueSpec | hooks/use-learning.ts:367-372 | The practice queue holds exactly the due entries, as a permutation of them. |
| Learning.PracticeQueueOrdered | hooks/use-learning.ts:371 | The practice queue is in ascending dueAt order. |
| Learning.StreakSpec | hooks/use-learning.ts:344-355 | The streak grows by 1 unless the user was active today. Bumping and the load refill are idempotent. After the refill the streak is not bumped the same day, and a new day refills the hearts. |
| Learning.DefaultProgressValid | hooks/use-learning.ts:23-32 | The default progress is valid. |
| Learning.CompletedProgressValid | hooks/use-learning.ts:228-256 | Completing a lesson keeps progress valid. |
| Learning.LearningState.constructor | hooks/use-learning.ts:40-48 | The initial state is the default progress, 5 lesson hearts, 0 lesson XP and no content. |
| Learning.LearningState.GetSkillStatus | hooks/use-learning.ts:117-128 | As written: the skill is locked exactly when it lists prerequisites not all of which have status 'passed'. Otherwise its lessons decide. |
| Learning.LearningState.GetSkillStatusCorrected | hooks/use-learning.ts:117-128 | Finished prerequisites, 'passed' or 'perfect', count as met. It agrees with GetSkillStatus whenever that is not locked, and its lessons decide when it is not locked. |
| Learning.LearningState.LoadContent | hooks/use-learning.ts:51-78 | The loaded content is stored and nothing else changes. |
| Learning.LearningState.RestoreProgress | hooks/use-learning.ts:81-104 | Stored progress is restored with the daily refill. |
| Learning.LearningState.StartLesson | hooks/use-learning.ts:153-158 | The current lesson is set, the exercise is cleared, lesson hearts = hearts, and lesson XP = 0. |
| Learning.LearningState.LoseHeart | hooks/use-learning.ts:207-213 | Lesson hearts and hearts each drop by 1, never below 0. |
| Learning.LearningState.GainHeart | hooks/use-learning.ts:215-220 | Hearts grow by 1, capped at maxHearts. |
| Learning.LearningState.EnqueueSRS | hooks/use-learning.ts:267-317 | The queue becomes Enqueue of the old queue, and nothing else changes. |
| Learning.LearningState.DequeueSRS | hooks/use-learning.ts:319-324 | The queue becomes Dequeue of the old queue, and nothing else changes. |
| Learning.LearningState.SubmitAnswer | hooks/use-learning.ts:160-205 | A missing exercise gives false and no change. A check that throws (a tap-tokens answer that is not a list) gives the TypeError and no change. Otherwise a correct answer adds 1 lesson XP, and a wrong one loses a heart. The answer is enqueued either way. |
| Learning.LearningState.CompleteLesson | hooks/use-learning.ts:222-265 | An unknown lesson changes nothing. Otherwise progress becomes CompletedProgress and the current lesson and exercise are cleared. |
| Learning.LearningState.RefillDaily | hooks/use-learning.ts:326-332 | Hearts become maxHearts and the active date is stamped. |
| Learning.LearningState.AwardXP | hooks/use-learning.ts:334-342 | xp grows by the amount. |
| Learning.LearningState.IncrementStreak | hooks/use-learning.ts:344-355 | The streak is bumped unless the user was already active today. |
| Learning.LearningState.ResetProgress | hooks/use-learning.ts:357-364 | Progress is back to default, with 5 lesson hearts and 0 lesson XP. |
| Insights.SavingsRateSpec | lib/insights.ts:69-73 | The rate exceeds 30% exactly when income is positive and expenses are below 70% of income. |
| Insights.EmittedSpec | lib/insights.ts:3-85 | No rule emits more than once. Every emitted insight is its rule's insight, and a rule's insight appears exactly when the rule fires. |
| Insights.EmittedOrdered | lib/insights.ts:3-85 | Insights come out in rule order. |
| Insights.RuleOutput | lib/insights.ts:8-20 | Each rule adds at most one insight. |
| Insights.AllRulesSpec | lib/insights.ts:3-85 | At most 5 insights, in the fixed order. A rule's insight is present exactly when it fires. |
| Insights.GenerateInsightsSpec | lib/insights.ts:3-85 | The dining (> 15%), subscriptions (≥ 3 recurring), shopping (> 20%), unusual (≥ 1) and savings-rate (> 30%) insights each appear exactly when their test holds. There are at most 5, in that order. |
| Insights.DiningRule | lib/insights.ts:6-20 | The dining block is that rule's output. |
| Insights.SubscriptionsRule | lib/insights.ts:22-37 | The subscriptions block is that rule's output. |
| Insights.ShoppingRule | lib/insights.ts:39-52 | The shopping block is that rule's output. |
| Insights.UnusualRule | lib/insights.ts:54-66 | The unusual-transaction block is that rule's output. |
| Insights.SavingsRateRule | lib/insights.ts:68-83 | The savings-rate block is that rule's output. |
| Insights.GenerateInsights | lib/insights.ts:3-86 | The sequence of guarded pushes equals the specification Emitted over the five rules. |
| AiResponse.MonthsToGoalSpec | components/ai-chat/ai-response-generator.ts:89-93 | The result is Infinity exactly when savings ≤ 0. Otherwise it is the least n with remaining ≤ n × savings, that is ceil(remaining / savings). |
| AiResponse.DebitCount | components/ai-chat/ai-response-generator.ts:59 | Counting debits of a category over all transactions gives the group count. |
| AiResponse.CategoryBreakdown | components/ai-chat/ai-response-generator.ts:43-63 | The Map loop and sort give the same breakdown as calculateCategorySpending. |
| AiResponse.AnalyzeFinancialData | components/ai-chat/ai-response-generator.ts:31-87 | The method equals AnalysisOf. |
| AiResponse.AnalysisSpec | components/ai-chat/ai-response-generator.ts:31-87 | net = income − expenses, and income + expenses = the total. monthsToGoal is present exactly with a goal. Level and streak are copied. |
| AiResponse.AnalysisCategories | components/ai-chat/ai-response-generator.ts:43-63 | The categories are non-increasing by amount and sum to total expenses. |
| AiResponse.RecentSpec | components/ai-chat/ai-response-generator.ts:70-73 | There are min(10, number of debits) entries, all debits from the input, newest first. |
| AiResponse.RecentComplete | components/ai-chat/ai-response-generator.ts:70-73 | A debit left out is no newer than any kept one. |
| AiResponse.RouteOf | components/ai-chat/ai-response-generator.ts:100-141 | The route is the first, in priority order, whose keywords the lower-cased message mentions. It is the default exactly when none is mentioned. |
| AiResponse.RouteIgnoresCase | components/ai-chat/ai-response-generator.ts:100 | Routing ignores case. |
| AiResponse.GoalQuestionRoutesToGoal | components/ai-chat/ai-response-generator.ts:103-125 | Example: "How am I doing with my financial goals?" mentions the overview but routes to the goal response. |
| AiResponse.TierOf | components/ai-chat/ai-response-generator.ts:214-220 | The tier is excellent at ≥ 20, good at 10–20, and needs work below 10. |
| AiResponse.GoalResponse | components/ai-chat/ai-response-generator.ts:144-176 | No goal gives the fixed no-goal message. Otherwise the reply names the goal, with the outlook for monthsToGoal. |
| AiResponse.OutlookSpec | components/ai-chat/ai-response-generator.ts:160-166 | The outlook is on track exactly when savings > 0 and remaining ≤ 12 × savings. It is not saving enough exactly when savings ≤ 0. The months are ceil(remaining/savings). |
| AiResponse.GoalOutlookSpec | components/ai-chat/ai-response-generator.ts:160-166 | For the analysed data, the outlook follows net savings in the same way. |
| AiResponse.TopCategories | components/ai-chat/ai-response-generator.ts:180 | The top categories are the first min(3, n) entries. |
| AiResponse.NoDebitsCrashesAsWritten | components/ai-chat/ai-response-generator.ts:191-192 | With no debits, the written spending reply fails on `topCategories[0]`. |
| AiResponse.SpendingResponse | components/ai-chat/ai-response-generator.ts:178-204 | The breakdown shows the top 3. The biggest category is highlighted exactly when the list is non-empty and its first share exceeds 30%. |
| AiResponse.SpendingResponseAgrees | components/ai-chat/ai-response-generator.ts:178-204 | The written reply fails exactly on an empty list, and otherwise equals the corrected one. |
| AiResponse.SpendingHighlightIsLargest | components/ai-chat/ai-response-generator.ts:178-194 | At most 3 are shown, non-increasing, and a highlighted category is the largest. |
| AiResponse.SavingsResponse | components/ai-chat/ai-response-generator.ts:206-230 | The reply carries net savings, rate, income and the rate's tier. |
| AiResponse.InsightsResponseSpec | components/ai-chat/ai-response-generator.ts:232-268 | No insights gives the fixed message. Otherwise the reply holds exactly the high-priority insights and the first min(2, n) opportunities, n being the number of opportunities. |
| AiResponse.OverviewResponse | components/ai-chat/ai-response-generator.ts:270-296 | The overview carries the tier, level and streak. |
| AiResponse.RecentReplySpec | components/ai-chat/ai-response-generator.ts:298-324 | No recent transactions gives the fixed message. Otherwise the reply lists the first min(5, n). |
| AiResponse.RecentResponseSpec | components/ai-chat/ai-response-generator.ts:298-324 | For analysed data, the reply lists at most 5 debits, newest first, and the fixed message appears exactly when there are no debits. |
| AiResponse.ResponseFollowsRoute | components/ai-chat/ai-response-generator.ts:95-142 | The reply fails exactly on the spending route with no category: the spending builder as written throws there. Otherwise each route yields exactly its reply kind. The no-goal reply appears exactly for the goal route without a goal. |
| AiResponse.GenerateAIResponse | components/ai-chat/ai-response-generator.ts:16-29 | The reply fails exactly when the message routes to spending and the transactions hold no debit. A successful spending reply is the corrected SpendingResponse of the analysis. |
| AiResponse.GoalSuggestionAnswered | components/ai-chat/ai-response-generator.ts:136 | The first default suggestion never fails and gets a goal reply. |

## Left out

Environment and I/O:
- Fetching the curriculum JSON and the leaderboard, localStorage and `saveProgress` are I/O. `LoadContent` and `RestoreProgress` take their results as parameters.
- `Date.now()` and `new Date()` are clocks. They appear as parameters: `now` in milliseconds for SRS due dates, ISO-like text for streaks and badges, and a day number for deadlines. The id stamp of CSV rows is the `now` parameter. `generateInsights` reads `Date.now()` and `new Date()` afresh for each insight (lib/insights.ts:10,18,27,35,43,50,58,64,75,81); the model gives all five insights one `stamp` and one `createdAt`.
- date-fns `parse`/`format` of CSV dates is library code. Row dates go through a `toDate` parameter. The balance column is parsed with `parseAmount` and stored in `balance`, as in the source; no lemma states more about it.
- TransactionParser.RowKept: when neither `parse(dateRaw, "MM/dd/yy")` nor `new Date(dateRaw)` accepts the date text, the source keeps the raw text as the date (lib/transaction-parser.ts:85-98), so a row such as "N/A,COFFEE,4.50,,100" gets the date "N/A". The model's `toDate` parameter always yields a civil date, so this fallback is not modelled: every kept row has a civil date here.
- The series `timezone` argument is unused by the source. All dates are civil dates, like UTC.
- The default `start` (one year ago) and `end` (today) of the series options come from the clock. The model takes both as required fields.

Numbers:
- JavaScript floating point is not modelled: amounts and ratios are exact reals.
  - `toFixed`, `toLocaleString` and the reply and description texts are left out. Replies and insights are structured datatypes.
  - `Math.round` for cents rounds half up, as JavaScript does for non-negative values.
- `Number.parseFloat` is modelled on an optional '-' or '+' sign, digits and an optional fraction. Exponents, "Infinity" and leading whitespace are left out; the amount text reaches it with its white space already removed.
- Normalize.StableId: the amount is printed after rounding to whole cents (`AmountText`). The source prints `${txn.amount}` unrounded, so a debit of 12.345 on 2024-01-05 with an empty description gives "txn-2024010512345deb" in the source and "txn-202401051235debi" in the model.
- TransactionDetect.OutlierIsTwoDeviations: `Math.sqrt` is replaced by the equivalent comparison of squares. The lemma states the equivalence for any non-negative root of the variance.
- NaN in comparisons follows JavaScript only where the model uses `Num`: the goal metrics and the empty-list day span.

Text:
- Case mapping (`toLowerCase`/`toUpperCase`) covers ASCII letters only.
- Regex character classes (`\s`, `\d`, alphanumerics) are the ASCII ones.

Learning:
- `completeLesson` mutates the shared `crownsBySkill` object in place (hooks/use-learning.ts:255). The model builds a new map, so it does not capture the aliasing with the previous state. Its visible effect: in a session that started from `DEFAULT_PROGRESS`, completing a skill writes into `DEFAULT_PROGRESS.crownsBySkill` itself, so `resetProgress` (hooks/use-learning.ts:359) does not clear the crowns until the page reloads. The model's `ResetProgress` clears them.
- Learning.CheckAnswer: answers are numbers, truth values or lists of strings. Other JavaScript values (strings, objects, `null`) are not modelled. For fill-in-numeric, a list with one numeric element coerces to that number in the source; the model reads every non-empty list as NaN, so it is wrong there.
- `tap_tokens` sorts the caller's array in place (hooks/use-learning.ts:177). The model compares the token multisets and does not mutate the answer.
- Learning.LearningState.GetSkillStatus: the prerequisite recursion is bounded by a fuel of |skills| + 1, a bound the model chooses; that it suffices for every acyclic chain is not proved. On a cyclic chain the source recurses until the stack overflows and throws a RangeError; the model reports the skill as locked instead.
- Units are flattened into one skill list.
- `responseTime` is unused by the source and left out.
- `dueAt` ISO text is modelled as milliseconds.
- `getLessonStatus`, `getTip`, `getExercise`, `getLesson` and `getLeaderboard` are plain lookups or I/O.

Gamification:
- Badge descriptions, icons and requirements are display text. Badges keep id, name, category and lock state.
- `addLearningXP` is `addXP` as written.
- The `XP_REWARDS` constants beyond lessons are listed but not used by any modelled operation.

Analytics glue:
- `generateChartData` (lib/analytics.ts:132-165) is the composition normalise → series → chart rows, and is not modelled separately.
- `projectedCompletionDate` (lib/analytics.ts:79) is clock arithmetic and is left out.
- `bucketLabel` month and week names are display strings. Only the quarter label's shape is stated.

Pairing and buckets:
- `pairTransfers` does not skip a B that is already paired (lib/analytics/classify.ts:87-110), so one inflow can be claimed by several outflows. The model does the same.
- When start is after end the model generates no buckets; the date-fns `each…OfInterval` behaviour for a reversed interval is not modelled.

Chat assistant:
- `generateAIResponse` is modelled without its `user` field, which is unused.
- Every reply carries the source's suggestion strings, but no contract states them.
- AiResponse.GoalResponse requires that a goal comes with a months estimate. `analyzeFinancialData` always provides one.
- AiResponse.AnalysisSpec states the savings rate through `Analytics.SavingsRate` (rate × income = net × 100), not as a division.

## Findings

The model's composed operations (`CalculateAnalytics`, `GetSkillStatus`, `ContextualResponse` and `GenerateAIResponse`) follow the code as written. Each finding's corrected definition stands beside them: `CalculateAnalyticsCorrected`, `GetSkillStatusCorrected` and `SpendingResponse`.

| source | as written | input that shows it | evidently intended | confidence | as-written member | corrected member |
|---|---|---|---|---|---|---|
| hooks/use-learning.ts:124 | a prerequisite counts only when its status is exactly 'passed' | prerequisite skill whose lessons are all complete and one is perfect: its status is 'perfect', so the dependent skill stays locked | a finished prerequisite ('passed' or 'perfect') unlocks the dependent skill | not executed | Learning.PerfectPrerequisiteLocksAsWritten | Learning.FinishedPrerequisitesUnlock |
| components/ai-chat/ai-response-generator.ts:191-192 | `topCategories[0].percentage` is read without a length check | transactions with no debits, e.g. a single credit: categorySpending is empty and the spending reply throws a TypeError | with no categories, show the breakdown with no highlight | not executed | AiResponse.NoDebitsCrashesAsWritten | AiResponse.SpendingResponseAgrees |
| lib/analytics.ts:22-25 | the day span uses `Math.min`/`Math.max` over all dates | an empty transaction list: the span is NaN, so average daily spending and the monthly figures are NaN | a span of at least one day, giving zero averages | not executed | Analytics.EmptyMetricsAsWritten | Analytics.MetricsSpec |
