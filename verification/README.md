# Bookkeeping app: a Dafny model of its rules

This project models the deterministic core of an Android bookkeeping app
written in Kotlin. It proves properties of that model. The parts modelled are:

- the records a user keeps (bills, categories, budgets), and the codecs
  between a record and the key/value document the cloud store keeps for it;
- the message shown for a failed sign-in or sign-up;
- the home screen's month view: the month cursor, the month's bills, the
  income and expense totals, and the bills grouped by day;
- the statistics screen: a month or year cursor, the period's totals, and
  one share per category, largest first;
- the add/edit bill form: the amount-input filter, the checks made before
  saving, the bill that is written, and how an existing bill is loaded;
- the CSV text of the data export.

Amounts are exact `real`s. A date is a datatype holding its calendar fields
in the device's time zone. Three things are parameters of the operations
that need them: the clock's reading ("now"), the date formatter, and
`Double.toString`. One reading `now` stands for every `Date()` call made in
one operation: the two default arguments of `Bill` and the two `?: Date()`
fallbacks of `Bill.fromMap` each call the clock, so in the app their
readings may differ by a tick. A call into the store or the authentication service
becomes an input: the bill list that a listener delivers, or how a call
ended.

Modules, one per file:

| file | module | models |
|---|---|---|
| wrappers.dfy | Wrappers | `Option` |
| values.dfy | Values | document values, typed casts with defaults, Kotlin `Int` conversions |
| text.dfy | Text | digits and integer text, string order, `contains`, `split`/`joinToString`; strings are compared by code point, where Kotlin compares UTF-16 units, which differ only on supplementary characters, which day keys never contain |
| collections.dfy | Collections | `filter`, `find`, `sumOf`, `groupBy` key order, stable sorting |
| bills.dfy, categories.dfy, budgets.dfy | Bills, Categories, Budgets | the records and their codecs |
| auth.dfy | Auth | `parseAuthException`, `register`/`login` results |
| ledger.dfy | Ledger | totals, type and month selectors, the month cursor |
| statistics.dfy | Statistics | StatisticsViewModel.kt |
| home.dfy | Home | HomeViewModel.kt |
| amounts.dfy | Amounts | the amount pattern and `toDoubleOrNull` |
| billform.dfy | BillForm | BillViewModel.kt |
| export.dfy | Export | the CSV building of SettingsViewModel.kt |

`saveBill` (BillViewModel.kt) copies the selected category's id, name and
icon onto the bill it writes. `Bill` (Bill.kt) declares no colour, yet
StatisticsViewModel.kt:152 reads `firstBill.categoryColor`, so the source as
it stands does not compile. The model gives `Bill` a `categoryColor` field
so that the statistics can be stated. Nothing but the record's default
(`""`) ever sets it, and the store does not keep it.

What the document store does with a written document is an assumed
abstraction, `Values.StoredDoc`, since the store's code is not part of this
model. The assumption is that the store keeps every key and value, except that
a `java.util.Date` is read back as a Timestamp of the same instant. The
round trips through the store (`Bills.RoundTripThroughStore`,
`Budgets.RoundTripThroughStore`, `Categories.StoreKeepsMap`) rest on it.

## Model

| member | source | states |
|---|---|---|
| Values.WrapToInt32 | app/src/main/kotlin/com/bookkeeping/data/model/Budget.kt:33-34 | `Long.toInt()` gives the value modulo 2^32 in the Int range, and leaves any value already in range unchanged |
| Values.TruncateToInt32 | app/src/main/kotlin/com/bookkeeping/data/model/Budget.kt:33-34 | `Double.toInt()` rounds toward zero, and saturates at Int.MIN_VALUE and Int.MAX_VALUE |
| Values.StoredDocNormalizes | app/src/main/kotlin/com/bookkeeping/data/repository/FirebaseRepository.kt:37-51 | the assumed store conversion keeps the keys, leaves no Date in a document read back, changes nothing in a document without Dates, and is idempotent |
| Bills.ValueOf | app/src/main/kotlin/com/bookkeeping/data/model/Bill.kt:8-11 | `BillType.valueOf` accepts exactly "INCOME" and "EXPENSE", and the constant it returns has that name |
| Bills.TypeOr | app/src/main/kotlin/com/bookkeeping/data/model/Bill.kt:53-57 | the decoded type is INCOME exactly when the document's type is the text "INCOME"; anything else, or no type, gives EXPENSE |
| Bills.ToMap | app/src/main/kotlin/com/bookkeeping/data/model/Bill.kt:37-46 | the document has exactly the keys amount, type, categoryId, categoryName, categoryIcon, note, billDate and createdAt, and no id |
| Bills.FromMap | app/src/main/kotlin/com/bookkeeping/data/model/Bill.kt:49-51 | the decoded bill's id is the argument, and its colour is empty |
| Bills.FromMapFallsBack | app/src/main/kotlin/com/bookkeeping/data/model/Bill.kt:52-63 | a missing or wrongly typed field decodes to the record's default; an integral or floating amount is converted; an unknown type gives EXPENSE |
| Bills.FromEmptyMap | app/src/main/kotlin/com/bookkeeping/data/model/Bill.kt:49-64 | an empty document decodes to the default bill with the given id, dated now |
| Bills.FromMapIgnoresIdKey | app/src/main/kotlin/com/bookkeeping/data/model/Bill.kt:51 | an "id" entry in the document changes nothing |
| Bills.RoundTripThroughStore | app/src/main/kotlin/com/bookkeeping/data/model/Bill.kt:37-63 | writing a bill to the store and reading it back under `id` gives the same bill with that id (and no colour) |
| Bills.RoundTripWithoutStore | app/src/main/kotlin/com/bookkeeping/data/model/Bill.kt:37-63 | decoding `toMap()` directly keeps every field but the two dates, which become now, since a Date is not a Timestamp |
| Categories.ToMap | app/src/main/kotlin/com/bookkeeping/data/model/Category.kt:14-20 | the document has exactly the keys name, icon, color, type and isDefault, and no id |
| Categories.FromMap | app/src/main/kotlin/com/bookkeeping/data/model/Category.kt:23-25 | the decoded category's id is the argument |
| Categories.FromMapFallsBack | app/src/main/kotlin/com/bookkeeping/data/model/Category.kt:26-34 | a missing or wrongly typed field decodes to "", "", "#4A90D9", EXPENSE and false respectively |
| Categories.UnknownTypeIsExpense | app/src/main/kotlin/com/bookkeeping/data/model/Category.kt:29-33 | any type name other than "INCOME" decodes to EXPENSE |
| Categories.RoundTrip | app/src/main/kotlin/com/bookkeeping/data/model/Category.kt:14-36 | `fromMap(id, c.toMap())` is `c` with its id replaced by `id` |
| Categories.StoreKeepsMap | app/src/main/kotlin/com/bookkeeping/data/model/Category.kt:14-20 | a category's document holds no date, so the store gives it back unchanged |
| Categories.DefaultExpenseCategories | app/src/main/kotlin/com/bookkeeping/data/model/Category.kt:38-48 | nine categories, all of type EXPENSE, all marked default, all without an id, with different names |
| Categories.DefaultIncomeCategories | app/src/main/kotlin/com/bookkeeping/data/model/Category.kt:50-56 | five categories, all of type INCOME, all marked default, all without an id, with different names |
| Budgets.ToMap | app/src/main/kotlin/com/bookkeeping/data/model/Budget.kt:17-24 | the document has exactly the keys amount, categoryId, categoryName, year, month and createdAt, and no id |
| Budgets.FromMap | app/src/main/kotlin/com/bookkeeping/data/model/Budget.kt:27-29 | the decoded budget's id is the argument |
| Budgets.FromMapFallsBack | app/src/main/kotlin/com/bookkeeping/data/model/Budget.kt:30-35 | a missing or non-numeric amount, year or month decodes to 0, missing texts to "", a missing timestamp to now |
| Budgets.YearMonthConversion | app/src/main/kotlin/com/bookkeeping/data/model/Budget.kt:33-34 | for every stored value, an integral year or month reads back as `WrapToInt32` of it, and a floating one as `TruncateToInt32` of it |
| Budgets.YearConversion | app/src/main/kotlin/com/bookkeeping/data/model/Budget.kt:33-34 | examples: 2^32 + 2024 reads as 2024, Int.MAX_VALUE + 1 as Int.MIN_VALUE, 2024.9 as 2024, -1.5 as -1 and 1e10 as Int.MAX_VALUE |
| Budgets.RoundTripThroughStore | app/src/main/kotlin/com/bookkeeping/data/model/Budget.kt:17-36 | writing a budget to the store and reading it back under `id` gives the same budget with that id |
| Auth.FirstMatchWins | app/src/main/kotlin/com/bookkeeping/data/repository/AuthRepository.kt:64-70 | the first rule whose text the message contains decides, whatever later rules say |
| Auth.NoMatchPassesThrough | app/src/main/kotlin/com/bookkeeping/data/repository/AuthRepository.kt:71 | a message that no rule matches is passed through unchanged |
| Auth.MissingMessageIsUnknown | app/src/main/kotlin/com/bookkeeping/data/repository/AuthRepository.kt:71 | an exception without a message is reported as 未知错误 |
| Auth.EachRuleApplies | app/src/main/kotlin/com/bookkeeping/data/repository/AuthRepository.kt:65-70 | each of the six texts maps to its own message, when no earlier rule's text occurs in the message |
| Auth.EarlierRuleFirst | app/src/main/kotlin/com/bookkeeping/data/repository/AuthRepository.kt:64-71 | a message holding both "network error" and, later, "email address is badly formatted" gets the format message: the order of the rules decides, not the order of the texts |
| Auth.Complete | app/src/main/kotlin/com/bookkeeping/data/repository/AuthRepository.kt:29-36 | success exactly when the call returns a user; no user gives the given failure; an exception gives the classified message |
| Auth.Register | app/src/main/kotlin/com/bookkeeping/data/repository/AuthRepository.kt:28-37 | a result without a user fails with 注册失败：用户为空, and an exception fails with its classified message |
| Auth.Login | app/src/main/kotlin/com/bookkeeping/data/repository/AuthRepository.kt:39-48 | a result without a user fails with 登录失败：用户为空, and an exception fails with its classified message |
| Ledger.PreviousMonth | app/src/main/kotlin/com/bookkeeping/viewmodel/HomeViewModel.kt:78-87 | one calendar month back: the month stays in 1..12, and January wraps to December of the year before |
| Ledger.NextMonth | app/src/main/kotlin/com/bookkeeping/viewmodel/HomeViewModel.kt:89-98 | one calendar month on: the month stays in 1..12, and December wraps to January of the year after |
| Ledger.MonthIndexInjective | app/src/main/kotlin/com/bookkeeping/viewmodel/HomeViewModel.kt:78-98 | a month count names a single (year, month) with the month in 1..12, so the cursor steps above are exact |
| Ledger.StepsUndoEachOther | app/src/main/kotlin/com/bookkeeping/viewmodel/HomeViewModel.kt:78-98 | `nextMonth` after `previousMonth`, and the other way round, returns to the same (year, month) |
| Ledger.IncomeAndExpenseAddUp | app/src/main/kotlin/com/bookkeeping/viewmodel/StatisticsViewModel.kt:129-130 | the income total and the expense total add up to the total of all the bills |
| Ledger.TotalOfAppended | app/src/main/kotlin/com/bookkeeping/viewmodel/HomeViewModel.kt:49-52 | appending a bill adds its amount to a selection's total exactly when the bill is selected |
| Collections.FindIndex | app/src/main/kotlin/com/bookkeeping/viewmodel/BillViewModel.kt:78 | the position found holds the first element that satisfies the predicate; none found means none satisfies it |
| Collections.Find | app/src/main/kotlin/com/bookkeeping/viewmodel/BillViewModel.kt:78 | `find` returns the first satisfying element, and none exactly when no element satisfies it |
| Collections.FilterKeeps | app/src/main/kotlin/com/bookkeeping/viewmodel/HomeViewModel.kt:41-44 | `filter` keeps every element that satisfies the predicate |
| Collections.FilterSplits | app/src/main/kotlin/com/bookkeeping/viewmodel/BillViewModel.kt:43-44 | filtering by a predicate and by its negation splits the list into two parts that together hold all of it |
| Collections.DistinctKeys | app/src/main/kotlin/com/bookkeeping/viewmodel/StatisticsViewModel.kt:140 | the keys of `groupBy` are distinct, and every element's key is among them |
| Collections.DistinctKeysFirstSeen | app/src/main/kotlin/com/bookkeeping/viewmodel/StatisticsViewModel.kt:140 | the keys come in the order of first occurrence, as in the LinkedHashMap `groupBy` builds: wherever a later key occurs, an earlier key has occurred before it |
| Collections.DistinctKeysOrigin | app/src/main/kotlin/com/bookkeeping/viewmodel/StatisticsViewModel.kt:140 | every key of `groupBy` is the key of some element |
| Collections.GroupSumsAddUp | app/src/main/kotlin/com/bookkeeping/viewmodel/StatisticsViewModel.kt:140-144 | the group totals of `groupBy` add up to the total of the list |
| Collections.SortDescPermutes | app/src/main/kotlin/com/bookkeeping/viewmodel/StatisticsViewModel.kt:158 | `sortedByDescending` returns a permutation of its input |
| Collections.SortDescSorted | app/src/main/kotlin/com/bookkeeping/viewmodel/StatisticsViewModel.kt:158 | `sortedByDescending` returns a list that does not increase by the weight |
| Collections.SortDescStable | app/src/main/kotlin/com/bookkeeping/viewmodel/StatisticsViewModel.kt:158 | `sortedByDescending` is stable: elements of equal weight keep their order |
| Collections.SortByPermutes | app/src/main/kotlin/com/bookkeeping/viewmodel/HomeViewModel.kt:58 | sorting the keys of the sorted map is a permutation |
| Collections.SortBySorted | app/src/main/kotlin/com/bookkeeping/viewmodel/HomeViewModel.kt:58 | under a strict total order, the sorted keys come in that order |
| Collections.SortedGroupsOrdered | app/src/main/kotlin/com/bookkeeping/viewmodel/HomeViewModel.kt:55-58 | the groups of `groupBy` + `toSortedMap` come in strictly increasing order of the comparator |
| Collections.SortedGroupsAt | app/src/main/kotlin/com/bookkeeping/viewmodel/HomeViewModel.kt:55-58 | each group holds exactly the elements with its key, in their order in the list, and is not empty |
| Collections.SortedGroupsPartition | app/src/main/kotlin/com/bookkeeping/viewmodel/HomeViewModel.kt:55-58 | every element lies in exactly one group, the one of its key |
| Text.NatToStringReadsBack | app/src/main/kotlin/com/bookkeeping/viewmodel/HomeViewModel.kt:58 | the decimal text of a number is all digits and reads back as the number |
| Text.IntToStringInjective | app/src/main/kotlin/com/bookkeeping/viewmodel/HomeViewModel.kt:58 | different integers have different `toString` texts |
| Text.LessTransitive | app/src/main/kotlin/com/bookkeeping/viewmodel/HomeViewModel.kt:58 | `String.compareTo` order is transitive |
| Text.LessTotal | app/src/main/kotlin/com/bookkeeping/viewmodel/HomeViewModel.kt:58 | of two different strings, one is less than the other |
| Text.SplitJoin | app/src/main/kotlin/com/bookkeeping/viewmodel/SettingsViewModel.kt:44 | splitting at the separator undoes joining, when no field holds the separator |
| Statistics.PeriodBills | app/src/main/kotlin/com/bookkeeping/viewmodel/StatisticsViewModel.kt:115-126 | the period's bills are exactly the bills of the cursor's year and, in month mode, also of its month |
| Statistics.PeriodBefore | app/src/main/kotlin/com/bookkeeping/viewmodel/StatisticsViewModel.kt:60-73 | in month mode one calendar month back, with the month in 1..12; in year mode the year minus one and the month unchanged |
| Statistics.PeriodAfter | app/src/main/kotlin/com/bookkeeping/viewmodel/StatisticsViewModel.kt:78-91 | in month mode one calendar month on, with the month in 1..12; in year mode the year plus one and the month unchanged |
| Statistics.PeriodStepsUndoEachOther | app/src/main/kotlin/com/bookkeeping/viewmodel/StatisticsViewModel.kt:60-93 | in either mode, a step back and a step on cancel out, in either order |
| Statistics.SummaryTotalsAddUp | app/src/main/kotlin/com/bookkeeping/viewmodel/StatisticsViewModel.kt:129-136 | income plus expense is the total of the period's bills, and the selected type's total is one of the two |
| Statistics.CategoryStatsEmptyIff | app/src/main/kotlin/com/bookkeeping/viewmodel/StatisticsViewModel.kt:139-161 | there are no category stats exactly when the selected total is not above zero |
| Statistics.CategoryStatsDistinct | app/src/main/kotlin/com/bookkeeping/viewmodel/StatisticsViewModel.kt:140-157 | no category id appears in two stats |
| Statistics.CategoryStatsCoverIds | app/src/main/kotlin/com/bookkeeping/viewmodel/StatisticsViewModel.kt:140-157 | every category id among the selected bills has a stat |
| Statistics.CategoryStatsDescribeGroups | app/src/main/kotlin/com/bookkeeping/viewmodel/StatisticsViewModel.kt:141-156 | each stat is its group's total and share of the total, with the selected type and the name, icon and colour of the group's first bill |
| Statistics.CategoryStatsAmountsAddUp | app/src/main/kotlin/com/bookkeeping/viewmodel/StatisticsViewModel.kt:136-158 | the stat amounts add up to the selected total |
| Statistics.CategoryStatsShares | app/src/main/kotlin/com/bookkeeping/viewmodel/StatisticsViewModel.kt:145 | each percentage is the stat's amount divided by the total |
| Statistics.CategoryStatsPercentagesAddUp | app/src/main/kotlin/com/bookkeeping/viewmodel/StatisticsViewModel.kt:144-158 | the percentages add up to one |
| Statistics.CategoryStatsOrdered | app/src/main/kotlin/com/bookkeeping/viewmodel/StatisticsViewModel.kt:158 | the stats do not increase by amount, and stats of equal amount keep the order of their categories' first bills |
| Statistics.StatisticsViewModel.constructor | app/src/main/kotlin/com/bookkeeping/viewmodel/StatisticsViewModel.kt:25-46 | the default state on the current month, in month mode, for expenses, loading |
| Statistics.StatisticsViewModel.SetStatsPeriod | app/src/main/kotlin/com/bookkeeping/viewmodel/StatisticsViewModel.kt:49-52 | only the period changes, then the data reloads |
| Statistics.StatisticsViewModel.SetBillType | app/src/main/kotlin/com/bookkeeping/viewmodel/StatisticsViewModel.kt:54-57 | only the type changes, then the data reloads |
| Statistics.StatisticsViewModel.PreviousPeriod | app/src/main/kotlin/com/bookkeeping/viewmodel/StatisticsViewModel.kt:60-75 | the cursor moves one period back and stays valid, then the data reloads |
| Statistics.StatisticsViewModel.NextPeriod | app/src/main/kotlin/com/bookkeeping/viewmodel/StatisticsViewModel.kt:78-93 | the cursor moves one period on and stays valid, then the data reloads |
| Statistics.StatisticsViewModel.PreviousMonth | app/src/main/kotlin/com/bookkeeping/viewmodel/StatisticsViewModel.kt:96 | the old name behaves as `previousPeriod` in either mode |
| Statistics.StatisticsViewModel.NextMonth | app/src/main/kotlin/com/bookkeeping/viewmodel/StatisticsViewModel.kt:97 | the old name behaves as `nextPeriod` in either mode |
| Statistics.StatisticsViewModel.Reload | app/src/main/kotlin/com/bookkeeping/viewmodel/StatisticsViewModel.kt:99-101 | the data reloads |
| Statistics.StatisticsViewModel.OnBills | app/src/main/kotlin/com/bookkeeping/viewmodel/StatisticsViewModel.kt:107-169 | a delivery of the bill list sets the totals and stats of the cursor's period and type, and ends loading; the cursor, period and type do not change |
| Home.KeyStringInjective | app/src/main/kotlin/com/bookkeeping/viewmodel/HomeViewModel.kt:57-58 | different days have different `Triple.toString` texts, so the sorted map never merges two days |
| Home.BeforeOrders | app/src/main/kotlin/com/bookkeeping/viewmodel/HomeViewModel.kt:58 | descending text order of the day keys is a strict total order |
| Home.GroupByDayOrdered | app/src/main/kotlin/com/bookkeeping/viewmodel/HomeViewModel.kt:55-58 | the day groups come in strictly descending order of their keys' texts |
| Home.GroupByDayGroups | app/src/main/kotlin/com/bookkeeping/viewmodel/HomeViewModel.kt:55-57 | each group holds exactly the bills of its day, in list order, and is not empty |
| Home.GroupByDayPartitions | app/src/main/kotlin/com/bookkeeping/viewmodel/HomeViewModel.kt:55-57 | every bill lies in exactly one group, the one of its (year, month, day) |
| Home.TextualDayOrder | app/src/main/kotlin/com/bookkeeping/viewmodel/HomeViewModel.kt:58 | the order is by text, not by date: day 9 comes before day 10, and day 10 before day 1 |
| Home.NinthBeforeTenth | app/src/main/kotlin/com/bookkeeping/viewmodel/HomeViewModel.kt:55-58 | bills of the 10th and the 9th give two groups, the 9th's first |
| Home.MonthTotals | app/src/main/kotlin/com/bookkeeping/viewmodel/HomeViewModel.kt:47-52 | the loop's `income` is the total of the INCOME bills and `expense` the total of the others, which are the EXPENSE bills |
| Home.HomeViewModel.constructor | app/src/main/kotlin/com/bookkeeping/viewmodel/HomeViewModel.kt:12-31 | the empty state on the current month, loading |
| Home.HomeViewModel.PreviousMonth | app/src/main/kotlin/com/bookkeeping/viewmodel/HomeViewModel.kt:78-87 | the cursor moves one calendar month back and stays valid, then the bills reload |
| Home.HomeViewModel.NextMonth | app/src/main/kotlin/com/bookkeeping/viewmodel/HomeViewModel.kt:89-98 | the cursor moves one calendar month on and stays valid, then the bills reload |
| Home.HomeViewModel.OnBills | app/src/main/kotlin/com/bookkeeping/viewmodel/HomeViewModel.kt:36-66 | a delivery keeps exactly the bills of the cursor's month in list order, with their income and expense totals and their day groups, and ends loading; the cursor does not change |
| Amounts.DigitRun | app/src/main/kotlin/com/bookkeeping/viewmodel/BillViewModel.kt:55 | the leading run of digits is all digits and ends at the first non-digit |
| Amounts.MatchesAmountIff | app/src/main/kotlin/com/bookkeeping/viewmodel/BillViewModel.kt:55 | the matcher accepts exactly the language of `^\d*\.?\d{0,2}$`: digits, or digits, a point and at most two digits |
| Amounts.MatchedAmountParses | app/src/main/kotlin/com/bookkeeping/viewmodel/BillViewModel.kt:55-105 | every text the filter lets in reads as a number that is not negative, except "" and "." |
| Amounts.ZeroAmountMatches | app/src/main/kotlin/com/bookkeeping/viewmodel/BillViewModel.kt:55-107 | "0.00" passes the filter and reads as zero |
| BillForm.PickCategory | app/src/main/kotlin/com/bookkeeping/viewmodel/BillViewModel.kt:82 | the first category with the bill's category id if there is one, else the first category, else none |
| BillForm.FoundBill | app/src/main/kotlin/com/bookkeeping/viewmodel/BillViewModel.kt:78 | the bill found is the first in the list with the requested id; none exactly when no bill has that id |
| BillForm.CheckForm | app/src/main/kotlin/com/bookkeeping/viewmodel/BillViewModel.kt:105-114 | a text that does not read as a number above zero gives 请输入有效金额 first; then no category gives 请选择分类; otherwise the amount and category are accepted |
| BillForm.AcceptedTextsSaveRejects | app/src/main/kotlin/com/bookkeeping/viewmodel/BillViewModel.kt:54-110 | "", "." and "0.00" pass the amount filter, yet saving them fails with 请输入有效金额 |
| BillForm.MatchedAmountSaves | app/src/main/kotlin/com/bookkeeping/viewmodel/BillViewModel.kt:54-114 | any other text the filter lets in is saved, with a category chosen, exactly when it is not zero |
| BillForm.FormBill | app/src/main/kotlin/com/bookkeeping/viewmodel/BillViewModel.kt:119-128 | the written bill has the editing id in edit mode and "" otherwise, the parsed amount, the form's type, note and date, and the category's id, name and icon |
| BillForm.CategoriesPartition | app/src/main/kotlin/com/bookkeeping/viewmodel/BillViewModel.kt:43-44 | the expense and income lists together hold every category exactly once |
| BillForm.BillViewModel.constructor | app/src/main/kotlin/com/bookkeeping/viewmodel/BillViewModel.kt:15-27 | the default form: an empty expense bill dated now, no category, no error |
| BillForm.BillViewModel.OnCategories | app/src/main/kotlin/com/bookkeeping/viewmodel/BillViewModel.kt:41-45 | the expense list is the EXPENSE categories and the income list the INCOME ones, both in input order |
| BillForm.BillViewModel.SetBillType | app/src/main/kotlin/com/bookkeeping/viewmodel/BillViewModel.kt:50-52 | the type changes and the selected category is dropped |
| BillForm.BillViewModel.SetAmount | app/src/main/kotlin/com/bookkeeping/viewmodel/BillViewModel.kt:54-58 | the text is stored exactly when it fits the amount pattern, otherwise nothing changes; a fitting amount stays fitting |
| BillForm.BillViewModel.SetCategory | app/src/main/kotlin/com/bookkeeping/viewmodel/BillViewModel.kt:60-62 | only the selected category changes |
| BillForm.BillViewModel.SetNote | app/src/main/kotlin/com/bookkeeping/viewmodel/BillViewModel.kt:64-66 | only the note changes |
| BillForm.BillViewModel.SetDate | app/src/main/kotlin/com/bookkeeping/viewmodel/BillViewModel.kt:68-70 | only the date changes |
| BillForm.BillViewModel.LoadBill | app/src/main/kotlin/com/bookkeeping/viewmodel/BillViewModel.kt:72-101 | the first bill with the id fills the form in edit mode, with the category picked from its type's list; a missing bill gives 账单未找到 and a failed read its message, leaving the form as it was |
| BillForm.BillViewModel.Fill | app/src/main/kotlin/com/bookkeeping/viewmodel/BillViewModel.kt:84-93 | the form takes the bill's id, type, amount text, note and date, and the picked category |
| BillForm.BillViewModel.SaveBill | app/src/main/kotlin/com/bookkeeping/viewmodel/BillViewModel.kt:103-142 | a refused form writes nothing and records the check's error; an accepted one writes the form's bill (update in edit mode, add otherwise) with an amount above zero, and succeeds unless the write throws |
| BillForm.BillViewModel.Reset | app/src/main/kotlin/com/bookkeeping/viewmodel/BillViewModel.kt:144-149 | every field returns to its default except the two category lists, which are kept |
| BillForm.BillViewModel.ClearError | app/src/main/kotlin/com/bookkeeping/viewmodel/BillViewModel.kt:151-153 | the error is cleared |
| Export.TypeLabel | app/src/main/kotlin/com/bookkeeping/viewmodel/SettingsViewModel.kt:40 | 支出 exactly for EXPENSE and 收入 exactly for INCOME |
| Export.ReplaceChar | app/src/main/kotlin/com/bookkeeping/viewmodel/SettingsViewModel.kt:42 | `replace` of one character keeps the length and changes exactly the occurrences of that character |
| Export.EscapeNoteSafe | app/src/main/kotlin/com/bookkeeping/viewmodel/SettingsViewModel.kt:42 | the escaped note has the note's length, no comma and no line break, and every other character in place |
| Export.EscapePlainNote | app/src/main/kotlin/com/bookkeeping/viewmodel/SettingsViewModel.kt:42 | a note without commas and line breaks is written as it is |
| Export.RowsAppend | app/src/main/kotlin/com/bookkeeping/viewmodel/SettingsViewModel.kt:38-45 | one more bill adds its line at the end |
| Export.BuildCsv | app/src/main/kotlin/com/bookkeeping/viewmodel/SettingsViewModel.kt:25-45 | no text for an empty list; otherwise U+FEFF, the header 日期,类型,分类,金额,备注 and one line per bill, in list order |
| Export.RowSplitsBack | app/src/main/kotlin/com/bookkeeping/viewmodel/SettingsViewModel.kt:44 | a line splits at its commas into the date, type, category name, amount and escaped note, when the date, name and amount texts hold no comma |
| Export.CommaInCategoryName | app/src/main/kotlin/com/bookkeeping/viewmodel/SettingsViewModel.kt:44 | the category name is not escaped: a name with one comma gives six columns, and the amount moves to the fifth |

## Left out

- Double and Float arithmetic: amounts are exact reals, so rounding in sums
  and the `toFloat()` of the percentage are not modelled.
- `Calendar`, time zones and `SimpleDateFormat`: a date is its calendar
  fields, and the date text of the export is a parameter.
- `Double.toString`: the amount text of the export and of `loadBill` is a
  parameter. Whether a loaded amount's text fits the amount pattern again is
  therefore not stated.
- Amounts.ToDoubleOrNull: models decimal notation (a sign, digits, a point,
  digits, an exponent). Whitespace, the f/d suffixes, "NaN", "Infinity" and
  hexadecimal literals are read as not a number.
- Kotlin `Int` overflow of the year cursor: the year is unbounded here.
- Coroutines and listeners: each `collect` body is one method call on the
  delivered list. Repeated deliveries, their interleaving, and the
  `try`/`catch` around the statistics aggregation (which throws nothing here)
  are not modelled.
- BillForm.BillViewModel.SaveBill: the `isLoading` flag set before the write
  is not observable here, since the write is one step.
- The store and authentication calls themselves (FirebaseRepository.kt):
  the bill list and how a call ended are inputs. `deleteBill`, `logout`,
  `authState` and `sendPasswordResetEmail` are not part of this model.
- File writing and sharing in `exportData`: the model stops at the text.
- The screens, navigation and theme files, and the other view models, which
  hold no rules of their own.
