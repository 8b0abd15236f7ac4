# Expense dashboard: aggregation and record references

This project models the computing core of a small expense tracker built on
the Living Apps platform. The tracker has two record types:

- expenses (`Ausgaben`): date, receipt, notes, a category reference, a description and an amount;
- categories (`Kategorien`): a name and a description.

An expense refers to its category through a lookup URL. The URL ends in the
category's 24-character hexadecimal record id.

The dashboard page derives the following from one snapshot of both lists:

- a category lookup from record id to display name;
- the key figures: total, count, average and the total of the current month;
- a monthly trend of at most six months in ascending order;
- a breakdown by category name, largest first, and its pie projection;
- a table of the ten newest expenses.

The service layer provides `extractRecordId`, which parses a lookup URL, and
`createRecordUrl`, which builds one.

Modules, one per file:

- `Records` (records.dfy): the record shapes, with every optional field as an `Option`.
- `StringOrder` (string_order.dfy): the lexicographic order used for `localeCompare`.
- `OrderedMap` (ordered_map.dfy): a JavaScript `Map` as an insertion-ordered list of entries.
- `RecordRef` (record_ref.dfy): `extractRecordId` and `createRecordUrl`.
- `CategoryLookup` (category_lookup.dfy): `categoryMap` and the resolution of a category reference to a name.
- `Kpis` (kpis.dfy): the key figures.
- `MonthlyTrend` (monthly_trend.dfy): `monthlyData`.
- `CategoryBreakdown` (category_breakdown.dfy): `categoryData` and `pieData`.
- `RecentExpenses` (recent_expenses.dfy): `recentExpenses`.
- `Dashboard` (dashboard.dfy): all derivations together.

The three derivations that fill a `Map` with `forEach` and `set` are methods
with loops. Each method is proved equal to a left fold, and the properties
are lemmas about that fold. The derivations that are expressions (`reduce`,
`filter`, `map`, `sort`, `slice`) are functions with lemmas.

Amounts are integer cents. The current month is a parameter holding the
`yyyy-MM` string of today. `Array.prototype.sort` is stable, so it is
modelled by a stable insertion sort. Any stable sort with the same
comparator gives the same list.

Three behaviours of the code worth knowing:

- The breakdown groups expenses by the category name their reference resolves to. Two categories with the same name share one group. A category literally named "Unkategorisiert" shares the group of the unresolved expenses.
- An empty `kategoriename` shows as "Unbekannt", just like a missing one, because `||` treats the empty string as false.
- An expense whose `datum` is the empty string belongs to no month of the trend, because `if (a.fields.datum)` is false for it.

## Model

| member | source | states |
|---|---|---|
| StringOrder.Less | src/pages/Dashboard.tsx:105 | definition of the lexicographic order standing for `localeCompare` (also at line 145); used by SortByMonth and SortByDate, its properties are the StringOrder lemmas |
| StringOrder.Irreflexive | src/pages/Dashboard.tsx:105 | no month key sorts before itself |
| StringOrder.Transitive | src/pages/Dashboard.tsx:105 | the string order used for `localeCompare` is transitive |
| StringOrder.Trichotomy | src/pages/Dashboard.tsx:145 | any two distinct strings are ordered one way or the other |
| StringOrder.Asymmetric | src/pages/Dashboard.tsx:145 | two strings never sort before each other |
| StringOrder.NotLess | src/pages/Dashboard.tsx:145 | a string that does not sort before another sorts after it or equals it |
| StringOrder.LessEqTransitive | src/pages/Dashboard.tsx:145 | the non-strict order is transitive |
| StringOrder.EmptyFirst | src/pages/Dashboard.tsx:143-144 | the empty string, which stands in for a missing date, sorts first |
| OrderedMap.Keys | src/pages/Dashboard.tsx:104 | the entries iterate in their stored order, one key per entry |
| OrderedMap.Get | src/pages/Dashboard.tsx:99 | definition of `map.get`; its properties are the lemmas GetFindsKeys, PutGet and GetEntry |
| OrderedMap.Put | src/pages/Dashboard.tsx:69 | definition of `map.set`; its properties are the lemmas PutKeys, PutGet and PutUnique |
| OrderedMap.GetFindsKeys | src/pages/Dashboard.tsx:99 | `get` finds a value exactly for the keys present |
| OrderedMap.PutKeys | src/pages/Dashboard.tsx:69 | `set` on a present key keeps the key order; a new key is appended last |
| OrderedMap.PutGet | src/pages/Dashboard.tsx:69 | after `set(k, v)`, `get(k)` is `v` and every other key keeps its value |
| OrderedMap.PutUnique | src/pages/Dashboard.tsx:69 | `set` keeps the keys distinct |
| OrderedMap.AddTo | src/pages/Dashboard.tsx:99 | definition of the update that sets `k` to its current value, or 0 when absent, plus `x` (also at line 123); used by MonthTotals and CategoryTotals, its property is the lemma AddToSum |
| OrderedMap.AddToSum | src/pages/Dashboard.tsx:123 | adding an amount under one key raises the sum of all values by that amount |
| OrderedMap.GetEntry | src/pages/Dashboard.tsx:104 | with distinct keys, each entry holds what `get` returns for its key |
| RecordRef.InHexClass | src/services/livingAppsService.ts:12 | definition of the class `[a-f0-9]` under the `i` flag; used by MatchesAt, its property is the lemma HexClassMembers |
| RecordRef.MatchesAt | src/services/livingAppsService.ts:12 | definition of the pattern `([a-f0-9]{24})$` matching at a position; used by Search |
| RecordRef.HexClassMembers | src/services/livingAppsService.ts:12 | `[a-f0-9]` under the `i` flag matches exactly the digits and the letters a-f of either case |
| RecordRef.Search | src/services/livingAppsService.ts:12 | definition of the leftmost match of the pattern; its property is the lemma SearchFindsSuffix |
| RecordRef.SearchFindsSuffix | src/services/livingAppsService.ts:12 | the end-anchored pattern matches exactly when the last 24 characters are hex, and only there |
| RecordRef.ExtractRecordId | src/services/livingAppsService.ts:9-14 | an id is found iff the URL is present, has at least 24 characters and ends in 24 hex characters; so a missing or empty URL gives none; the id is that suffix, 24 hex characters, with its case kept, not normalised |
| RecordRef.CreateRecordUrl | src/services/livingAppsService.ts:16-18 | the URL is the fixed base, then the app id, then "/records/", then the record id |
| RecordRef.RoundTrip | src/services/livingAppsService.ts:9-18 | extracting from the URL built for a well-formed id gives the id back |
| CategoryLookup.DisplayName | src/pages/Dashboard.tsx:69 | a category shows its name when that is present and not empty, otherwise "Unbekannt"; never empty |
| CategoryLookup.CategoryMapOf | src/pages/Dashboard.tsx:66-72 | definition of `categoryMap` as a fold of `set`; its properties are the lemmas CategoryMapUnique, CategoryMapHasId, CategoryMapOnlyIds and CategoryMapLastWins |
| CategoryLookup.CategoryMapUnique | src/pages/Dashboard.tsx:66-72 | the lookup holds each id once |
| CategoryLookup.CategoryMapHasId | src/pages/Dashboard.tsx:66-72 | every category's record id is in the lookup |
| CategoryLookup.CategoryMapOnlyIds | src/pages/Dashboard.tsx:66-72 | only record ids of categories are in the lookup |
| CategoryLookup.CategoryMapLastWins | src/pages/Dashboard.tsx:66-72 | an id maps to the display name of the last category with that id, so a later duplicate overwrites an earlier one |
| CategoryLookup.BuildCategoryMap | src/pages/Dashboard.tsx:66-72 | the loop of `set` calls builds exactly the folded lookup |
| CategoryLookup.ResolveName | src/pages/Dashboard.tsx:119-121 | definition of the resolution of a reference to a name with a fallback; its cases are the lemma ResolveNameCases |
| CategoryLookup.ResolveNameCases | src/pages/Dashboard.tsx:119-121 | a reference without an id or with an id not in the lookup resolves to the fallback; otherwise it resolves to the looked-up name; the result is the fallback or a name in the lookup |
| CategoryLookup.TableCategoryName | src/pages/Dashboard.tsx:393-394 | definition of the table's category column, with "N/A" as the fallback; its property is the lemma TableNameOfUnknown |
| CategoryLookup.TableNameOfUnknown | src/pages/Dashboard.tsx:393-394 | in the table, a reference to an id no category has shows "N/A" |
| Kpis.Amount | src/pages/Dashboard.tsx:76 | definition of the amount of an expense, 0 when `betrag` is absent (also at lines 82, 99 and 123); used by Total, MonthSum and the bucket folds |
| Kpis.Total | src/pages/Dashboard.tsx:76 | definition of the `reduce` total, an absent amount counting 0; its properties are the lemmas TotalAppend and TotalNonNegative |
| Kpis.TotalAppend | src/pages/Dashboard.tsx:76 | the total of two lists joined is the sum of their totals |
| Kpis.TotalNonNegative | src/pages/Dashboard.tsx:76 | with non-negative amounts the total is non-negative |
| Kpis.InMonth | src/pages/Dashboard.tsx:81 | definition of `a.fields.datum?.startsWith(currentMonth)`; used by ThisMonth, related to the trend by MonthlyTrend.InMonthIsInBucket |
| Kpis.ThisMonth | src/pages/Dashboard.tsx:81 | an expense is in the current month's list iff it is in the input and its date is present and starts with the month |
| Kpis.ThisMonthCounts | src/pages/Dashboard.tsx:81 | the filter keeps each current-month expense exactly as often as the input has it, and no other expense |
| Kpis.ThisMonthTotal | src/pages/Dashboard.tsx:82 | definition of the current month's total; its properties are the lemmas ThisMonthAtMostTotal and MonthlyTrend.ThisMonthTotalIsMonthSum |
| Kpis.ThisMonthAtMostTotal | src/pages/Dashboard.tsx:80-82 | with non-negative amounts the current month's total lies between 0 and the overall total |
| Kpis.Average | src/pages/Dashboard.tsx:85 | the average is 0 for no expenses and otherwise the value that, times the count, gives the total |
| Kpis.ComputeKpis | src/pages/Dashboard.tsx:75-88 | total is the sum of the amounts (`Total`), the month total is that of the current month's expenses (`ThisMonthTotal`), count is the list length and the average is `Average` of total and count, so 0 for no expenses and otherwise total divided by count; with non-negative amounts the month total lies between 0 and the total |
| Kpis.AverageExample | src/pages/Dashboard.tsx:76-85 | two expenses of 10.00 and 20.00 average to 15.00 |
| MonthlyTrend.MonthKey | src/pages/Dashboard.tsx:98 | definition of `datum.substring(0, 7)`; used by InBucket and MonthTotals |
| MonthlyTrend.Dated | src/pages/Dashboard.tsx:97 | definition of the test `if (a.fields.datum)`: present and not empty; used by InBucket, MonthTotals and DatedTotal |
| MonthlyTrend.InMonthIsInBucket | src/pages/Dashboard.tsx:81-98 | for a seven-character month, a date starts with the month iff the date is present, not empty, and its first seven characters are the month |
| MonthlyTrend.ThisMonthTotalIsMonthSum | src/pages/Dashboard.tsx:80-100 | the current month's total in the key figures equals the sum the trend collects for that month |
| MonthlyTrend.MonthTotals | src/pages/Dashboard.tsx:95-101 | definition of `monthMap` as a fold of the loop body; its properties are the lemmas MonthTotalsUnique, MonthTotalsGet, MonthTotalsHasBucket, MonthTotalsOnlyBuckets and MonthTotalsSum |
| MonthlyTrend.MonthTotalsUnique | src/pages/Dashboard.tsx:95-101 | the month map holds each month once |
| MonthlyTrend.MonthTotalsGet | src/pages/Dashboard.tsx:95-101 | a month's entry is the sum of the amounts of the dated expenses in that month |
| MonthlyTrend.MonthTotalsHasBucket | src/pages/Dashboard.tsx:97-99 | the month of every dated expense has an entry |
| MonthlyTrend.MonthTotalsOnlyBuckets | src/pages/Dashboard.tsx:97-99 | every entry is the month of some dated expense |
| MonthlyTrend.MonthTotalsSum | src/pages/Dashboard.tsx:96-101 | the entries add up to the total of the dated expenses: undated ones count in no month |
| MonthlyTrend.BuildMonthTotals | src/pages/Dashboard.tsx:95-101 | the loop builds exactly the folded month map |
| MonthlyTrend.InsertByMonthPermutes | src/pages/Dashboard.tsx:105 | insertion adds the one entry and loses none |
| MonthlyTrend.InsertByMonthBounds | src/pages/Dashboard.tsx:105 | insertion keeps a lower bound on the months |
| MonthlyTrend.InsertByMonthAscending | src/pages/Dashboard.tsx:105 | inserting a new month into an ascending list keeps it strictly ascending |
| MonthlyTrend.AbsentFromPermutation | src/pages/Dashboard.tsx:105 | a month absent from a list is absent from any permutation of it |
| MonthlyTrend.SortByMonth | src/pages/Dashboard.tsx:104-105 | definition of the sort by month key; its property is the lemma SortByMonthSorts |
| MonthlyTrend.SortByMonthPermutes | src/pages/Dashboard.tsx:104-105 | sorting the month entries permutes them |
| MonthlyTrend.SortByMonthSorts | src/pages/Dashboard.tsx:104-105 | sorting distinct months permutes the entries into strictly ascending order |
| MonthlyTrend.LastSix | src/pages/Dashboard.tsx:106 | `slice(-6)` keeps at most six entries |
| MonthlyTrend.LastSixKeeps | src/pages/Dashboard.tsx:106 | the kept entries are the last ones of the list, in order |
| MonthlyTrend.LastSixDropsEarlier | src/pages/Dashboard.tsx:106 | an entry that is dropped sorts before every entry kept, and six are kept |
| MonthlyTrend.MonthlySeries | src/pages/Dashboard.tsx:91-112 | definition of the trend; its properties are the lemmas MonthlyOrdered, MonthlyPointsFromExpenses and MonthlyKeepsLatest |
| MonthlyTrend.MonthlyData | src/pages/Dashboard.tsx:91-112 | the derivation computes the specified series |
| MonthlyTrend.MonthlyOrdered | src/pages/Dashboard.tsx:91-106 | no expenses give no points; at most six points; months strictly ascending |
| MonthlyTrend.MonthlyPointsFromExpenses | src/pages/Dashboard.tsx:96-110 | each point's month is the first seven characters of some expense's date, and its total is that month's sum |
| MonthlyTrend.SeriesPoints | src/pages/Dashboard.tsx:104-111 | helper: unfolds MonthlySeries into the last six sorted month entries, a proof step for MonthlyPointsFromExpenses and MonthlyKeepsLatest |
| MonthlyTrend.MonthlyKeepsLatest | src/pages/Dashboard.tsx:104-106 | a dated expense's month is missing only if six later months are shown |
| CategoryBreakdown.BucketName | src/pages/Dashboard.tsx:119-121 | definition of an expense's bucket name, with the "Unkategorisiert" fallback; used by CategoryTotals, its cases are CategoryLookup.ResolveNameCases |
| CategoryBreakdown.BucketNamesAt | src/pages/Dashboard.tsx:118-121 | one bucket name per expense, in order |
| CategoryBreakdown.FirstSeenElements | src/pages/Dashboard.tsx:123 | the first-seen names are exactly the names met, each once |
| CategoryBreakdown.FirstSeenAppend | src/pages/Dashboard.tsx:123 | helper: unfolds FirstSeen one step at the end (a name met again adds nothing, a new one goes last), a proof step for KeysStep |
| CategoryBreakdown.KeysStep | src/pages/Dashboard.tsx:123 | one update keeps the keys equal to the names in order of first meeting |
| CategoryBreakdown.CategoryTotals | src/pages/Dashboard.tsx:116-124 | definition of `categoryTotals` as a fold of the loop body; its properties are the lemmas CategoryTotalsKeys, CategoryTotalsUnique, CategoryTotalsGet and CategoryTotalsSum |
| CategoryBreakdown.CategoryTotalsKeys | src/pages/Dashboard.tsx:116-124 | the buckets appear in the order their names are first met |
| CategoryBreakdown.CategoryTotalsUnique | src/pages/Dashboard.tsx:116-124 | each bucket name occurs once |
| CategoryBreakdown.CategoryTotalsGet | src/pages/Dashboard.tsx:118-123 | each bucket holds the sum of the amounts of the expenses that resolve to its name |
| CategoryBreakdown.CategoryTotalsSum | src/pages/Dashboard.tsx:118-124 | the buckets add up to the overall total: every expense counts in exactly one bucket |
| CategoryBreakdown.BuildCategoryTotals | src/pages/Dashboard.tsx:116-124 | the loop builds exactly the folded bucket map |
| CategoryBreakdown.ToCategoryTotals | src/pages/Dashboard.tsx:126-127 | one name and total per entry, in entry order |
| CategoryBreakdown.ToCategoryTotalsSum | src/pages/Dashboard.tsx:126-127 | the conversion keeps the sum |
| CategoryBreakdown.InsertByTotalPermutes | src/pages/Dashboard.tsx:128 | insertion adds the one group, loses none and keeps the sum |
| CategoryBreakdown.InsertByTotalBounds | src/pages/Dashboard.tsx:128 | insertion keeps an upper bound on the totals and keeps out a name that is absent |
| CategoryBreakdown.InsertByTotalOrders | src/pages/Dashboard.tsx:128 | insertion keeps the totals non-increasing |
| CategoryBreakdown.InsertByTotalUnique | src/pages/Dashboard.tsx:128 | inserting a new name keeps the names distinct |
| CategoryBreakdown.InsertByTotalStable | src/pages/Dashboard.tsx:128 | the inserted group goes first among equal totals; other groups keep their order |
| CategoryBreakdown.SortByTotal | src/pages/Dashboard.tsx:128 | definition of the stable sort by total, largest first; its properties are the SortByTotal lemmas |
| CategoryBreakdown.SortByTotalPermutes | src/pages/Dashboard.tsx:128 | sorting permutes the groups and keeps the sum |
| CategoryBreakdown.SortByTotalOrders | src/pages/Dashboard.tsx:128 | the sorted groups have non-increasing totals |
| CategoryBreakdown.SortByTotalUnique | src/pages/Dashboard.tsx:128 | sorting keeps distinct names distinct |
| CategoryBreakdown.SortByTotalStable | src/pages/Dashboard.tsx:128 | within each total the input order is kept |
| CategoryBreakdown.Breakdown | src/pages/Dashboard.tsx:115-129 | definition of `categoryData`; its properties are the Breakdown lemmas |
| CategoryBreakdown.CategoryData | src/pages/Dashboard.tsx:115-129 | the derivation computes the specified breakdown |
| CategoryBreakdown.BreakdownOrdered | src/pages/Dashboard.tsx:126-128 | totals non-increasing and names unique |
| CategoryBreakdown.BreakdownSum | src/pages/Dashboard.tsx:118-128 | the group totals add up to the overall total |
| CategoryBreakdown.BreakdownTotals | src/pages/Dashboard.tsx:118-127 | each group's total is the sum of its expenses' amounts |
| CategoryBreakdown.BreakdownNameOfSomeExpense | src/pages/Dashboard.tsx:121-126 | each group is named after the bucket of some expense |
| CategoryBreakdown.BreakdownHasBucket | src/pages/Dashboard.tsx:121-126 | every expense's bucket is one of the groups |
| CategoryBreakdown.BreakdownTies | src/pages/Dashboard.tsx:116-128 | groups with equal totals appear in the order their names were first met |
| CategoryBreakdown.PieData | src/pages/Dashboard.tsx:132-137 | definition of `pieData`; its properties are the lemmas PieSum and PieOfBreakdown |
| CategoryBreakdown.PieSum | src/pages/Dashboard.tsx:132-137 | the slices add up to the groups' total |
| CategoryBreakdown.PieOfBreakdown | src/pages/Dashboard.tsx:132-137 | one slice per group, in the same order, with the group's name and total as value; the slices add up to the overall total |
| RecentExpenses.DateKey | src/pages/Dashboard.tsx:143-144 | definition of the sort key of an expense, its `datum` or the empty string when absent; used by SortByDate |
| RecentExpenses.InsertByDatePermutes | src/pages/Dashboard.tsx:142-146 | insertion adds the one expense and loses none |
| RecentExpenses.InsertByDateBounds | src/pages/Dashboard.tsx:142-146 | insertion keeps an upper bound on the dates |
| RecentExpenses.InsertByDateOrders | src/pages/Dashboard.tsx:142-146 | insertion keeps the list newest first |
| RecentExpenses.InsertByDateStable | src/pages/Dashboard.tsx:142-146 | the inserted expense goes first among equal dates; the others keep their order |
| RecentExpenses.SortByDate | src/pages/Dashboard.tsx:141-146 | definition of the stable sort by date, newest first; its properties are the SortByDate lemmas |
| RecentExpenses.SortByDatePermutes | src/pages/Dashboard.tsx:141-146 | sorting permutes the expenses |
| RecentExpenses.SortByDateOrders | src/pages/Dashboard.tsx:141-146 | the sorted list is newest first, with a missing date read as "" |
| RecentExpenses.SortByDateStable | src/pages/Dashboard.tsx:141-146 | expenses with equal dates keep their input order |
| RecentExpenses.Recent | src/pages/Dashboard.tsx:140-148 | definition of `recentExpenses`; its properties are the lemmas RecentShape, RecentAreNewest and RecentKeepsTies |
| RecentExpenses.RecentShape | src/pages/Dashboard.tsx:140-148 | length min(10, n); every row comes from the input; newest first; undated rows last |
| RecentExpenses.UndatedLast | src/pages/Dashboard.tsx:143-145 | in a newest-first list everything after an undated expense is undated |
| RecentExpenses.RecentAreNewest | src/pages/Dashboard.tsx:141-147 | an expense left out of the table is no newer than the last row, and the table is full |
| RecentExpenses.RecentKeepsTies | src/pages/Dashboard.tsx:141-147 | equal dates keep input order, and the table is a prefix of the sorted copy |
| Dashboard.Derive | src/pages/Dashboard.tsx:65-148 | every derived value is its defining function; breakdown and pie add up to the total; at most six months and min(10, n) rows |

## Left out

- JSX rendering, the loading, error and empty states, the charts, the tooltip and `formatCurrency` (src/pages/Dashboard.tsx:151-418): user interface and `Intl` locale formatting.
- The data-loading effect (src/pages/Dashboard.tsx:45-63): asynchronous fetching and React state.
- The German month labels made with date-fns `format`/`parseISO` (src/pages/Dashboard.tsx:109): the trend keeps the raw `YYYY-MM` key instead. date-fns is not part of this model. The model assumes every month key parses as a date, as the documented format of `datum` (src/types/app.ts:18) provides; for another string (such as "15.03.2024", whose key is "15.03.2") the source's label formatting at line 109 throws when that key is among the last six, and the model, which returns a series for every input, does not capture this.
- `Math.round(total * 100) / 100` (src/pages/Dashboard.tsx:110, 127): with amounts in integer cents this is the identity. Floating-point amounts, NaN and rounding are not modelled.
- `new Date()` (src/pages/Dashboard.tsx:80): the clock is replaced by the parameter `currentMonth`.
- `localeCompare`: modelled as lexicographic order on characters. This agrees with the locale order on the ASCII digit-and-dash dates the source stores, but not on arbitrary strings.
- Strings are sequences of Dafny characters, not JavaScript UTF-16 code units.
- The JavaScript engine's own sort algorithm: modelled by a stable insertion sort, which gives the same list as any stable sort with the same comparator.
- `recentExpenses` sorts a copy, so the input is not changed. The model works on immutable values, so this holds by construction and is not stated as a lemma.
- `callApi` and every `LivingAppsService` method (src/services/livingAppsService.ts:20-96): HTTP input and output.
- `APP_IDS` and the other constants of src/types/app.ts: configuration only. The record shapes are modelled as datatypes.
- claude_agent.py: a deployment script with processes, polling and network calls.
