/**
 * The statistics screen's state holder (StatisticsViewModel.kt): a period
 * cursor (a month or a whole year) that the user steps back and forth, a
 * selected bill type, and the aggregation that every delivery of the bill
 * list recomputes: the period's income and expense totals and, for the
 * selected type, one share per category, largest first.
 */
module Statistics {

  import opened Wrappers
  import opened Values
  import opened Bills
  import opened Categories
  import opened Collections
  import opened Ledger

  datatype StatsPeriod = MONTH | YEAR

  datatype CategoryStat = CategoryStat(category: Category, amount: real, percentage: real)

  function StatAmount(s: CategoryStat): real
  {
    s.amount
  }

  function StatPercentage(s: CategoryStat): real
  {
    s.percentage
  }

  function StatId(s: CategoryStat): string
  {
    s.category.id
  }

  function CategoryIdOf(b: Bill): string
  {
    b.categoryId
  }

  /** The period filter of `loadData`: the year, and in month mode also the month. */
  function InPeriod(period: StatsPeriod, year: int, month: int): Bill -> bool
  {
    (b: Bill) =>
      if period == MONTH then b.billDate.year == year && b.billDate.month == month
      else b.billDate.year == year
  }

  /** The bills of the period, in their order in `bills`. */
  function PeriodBills(bills: seq<Bill>, period: StatsPeriod, year: int, month: int): (r: seq<Bill>)
    ensures forall i :: 0 <= i < |r| ==>
      r[i] in bills && r[i].billDate.year == year && (period == MONTH ==> r[i].billDate.month == month)
    ensures forall i :: 0 <= i < |bills| ==>
      (bills[i].billDate.year == year && (period == MONTH ==> bills[i].billDate.month == month) ==> bills[i] in r)
  {
    FilterKeeps(bills, InPeriod(period, year, month));
    Filter(bills, InPeriod(period, year, month))
  }

  /** The bills of one category: one group of `groupBy { it.categoryId }`. */
  function Group(bills: seq<Bill>, id: string): seq<Bill>
  {
    Filter(bills, HasKey(CategoryIdOf, id))
  }

  /**
   * The `mapNotNull` over the groups listed in `ids`: an empty group yields
   * nothing; otherwise a stat whose category has the group's id, the selected
   * type and the name, icon and colour of the group's first bill, whose amount
   * is the group's total, and whose percentage is its share of `total`.
   */
  function GroupStats(bills: seq<Bill>, ids: seq<string>, total: real, t: BillType): seq<CategoryStat>
    requires total != 0.0
  {
    if ids == [] then []
    else
      var g := Group(bills, ids[0]);
      (if g == [] then []
       else
         var first := g[0];
         [CategoryStat(Category(ids[0], first.categoryName, first.categoryIcon, first.categoryColor, t, false),
                       Total(g), Total(g) / total)])
      + GroupStats(bills, ids[1..], total, t)
  }

  /** One stat per group of `groupBy { it.categoryId }`, in the order the groups are formed. */
  function Unsorted(bills: seq<Bill>, t: BillType): seq<CategoryStat>
    requires Total(bills) != 0.0
  {
    GroupStats(bills, DistinctKeys(bills, CategoryIdOf), Total(bills), t)
  }

  /** The category stats of bills already filtered to the period and the type `t`. */
  function CategoryStats(bills: seq<Bill>, t: BillType): seq<CategoryStat>
  {
    if Total(bills) > 0.0 then SortDesc(Unsorted(bills, t), StatAmount) else []
  }

  /** What one delivery of the bill list sets in the state. */
  datatype Summary = Summary(totalAmount: real, totalIncome: real, totalExpense: real, categoryStats: seq<CategoryStat>)

  /** The body of the `collect` in `loadData`. */
  function Summarize(bills: seq<Bill>, period: StatsPeriod, year: int, month: int, t: BillType): Summary
  {
    var periodBills := PeriodBills(bills, period, year, month);
    var selected := Filter(periodBills, OfType(t));
    Summary(
      Total(selected),
      Total(Filter(periodBills, OfType(INCOME))),
      Total(Filter(periodBills, OfType(EXPENSE))),
      CategoryStats(selected, t))
  }

  /** The cursor one period back: a month in month mode, a year in year mode. */
  function PeriodBefore(period: StatsPeriod, year: int, month: int): (r: (int, int))
    ensures period == YEAR ==> r == (year - 1, month)
    ensures period == MONTH && 1 <= month <= 12 ==>
      1 <= r.1 <= 12 && MonthIndex(r.0, r.1) == MonthIndex(year, month) - 1
  {
    if period == MONTH then PreviousMonth(year, month) else (year - 1, month)
  }

  /** The cursor one period on: a month in month mode, a year in year mode. */
  function PeriodAfter(period: StatsPeriod, year: int, month: int): (r: (int, int))
    ensures period == YEAR ==> r == (year + 1, month)
    ensures period == MONTH && 1 <= month <= 12 ==>
      1 <= r.1 <= 12 && MonthIndex(r.0, r.1) == MonthIndex(year, month) + 1
  {
    if period == MONTH then NextMonth(year, month) else (year + 1, month)
  }

  /** In either mode, stepping back and then on (or on and then back) returns to the same cursor. */
  lemma PeriodStepsUndoEachOther(period: StatsPeriod, year: int, month: int)
    requires 1 <= month <= 12
    ensures var p := PeriodBefore(period, year, month); PeriodAfter(period, p.0, p.1) == (year, month)
    ensures var n := PeriodAfter(period, year, month); PeriodBefore(period, n.0, n.1) == (year, month)
  {
    StepsUndoEachOther(year, month);
  }

  /** The income and expense totals of a delivery add up to the total of the period's bills. */
  lemma SummaryTotalsAddUp(bills: seq<Bill>, period: StatsPeriod, year: int, month: int, t: BillType)
    ensures var s := Summarize(bills, period, year, month, t);
      && s.totalIncome + s.totalExpense == Total(PeriodBills(bills, period, year, month))
      && s.totalAmount == (if t == INCOME then s.totalIncome else s.totalExpense)
  {
    IncomeAndExpenseAddUp(PeriodBills(bills, period, year, month));
  }

  lemma {:induction false} GroupStatsMembers(bills: seq<Bill>, ids: seq<string>, total: real, t: BillType, s: CategoryStat)
    requires total != 0.0
    requires s in GroupStats(bills, ids, total, t)
    ensures var g := Group(bills, s.category.id);
      && s.category.id in ids
      && g != []
      && s.category == Category(s.category.id, g[0].categoryName, g[0].categoryIcon, g[0].categoryColor, t, false)
      && s.amount == Total(g)
      && s.percentage == s.amount / total
  {
    var g := Group(bills, ids[0]);
    var head := if g == [] then [] else
      [CategoryStat(Category(ids[0], g[0].categoryName, g[0].categoryIcon, g[0].categoryColor, t, false),
                    Total(g), Total(g) / total)];
    if s !in head {
      GroupStatsMembers(bills, ids[1..], total, t, s);
    }
  }

  lemma {:induction false} GroupStatsComplete(bills: seq<Bill>, ids: seq<string>, total: real, t: BillType, id: string)
    requires total != 0.0
    requires id in ids && Group(bills, id) != []
    ensures exists i :: 0 <= i < |GroupStats(bills, ids, total, t)| && GroupStats(bills, ids, total, t)[i].category.id == id
  {
    var rest := GroupStats(bills, ids[1..], total, t);
    var r := GroupStats(bills, ids, total, t);
    if ids[0] == id {
      assert r[0].category.id == id;
    } else {
      GroupStatsComplete(bills, ids[1..], total, t, id);
      var i :| 0 <= i < |rest| && rest[i].category.id == id;
      assert r[|r| - |rest| + i] == rest[i];
    }
  }

  lemma {:induction false} GroupStatsDistinct(bills: seq<Bill>, ids: seq<string>, total: real, t: BillType)
    requires total != 0.0
    requires Distinct(ids)
    ensures DistinctBy(GroupStats(bills, ids, total, t), StatId)
  {
    if ids != [] {
      assert Distinct(ids[1..]);
      GroupStatsDistinct(bills, ids[1..], total, t);
      var rest := GroupStats(bills, ids[1..], total, t);
      forall k | 0 <= k < |rest| ensures rest[k].category.id != ids[0] {
        assert rest[k] in rest;
        GroupStatsMembers(bills, ids[1..], total, t, rest[k]);
        assert rest[k].category.id in ids[1..];
      }
    }
  }

  lemma {:induction false} GroupStatsSum(bills: seq<Bill>, ids: seq<string>, total: real, t: BillType)
    requires total != 0.0
    ensures SumOf(GroupStats(bills, ids, total, t), StatAmount) == SumOverGroups(bills, ids, CategoryIdOf, Amount)
  {
    if ids != [] {
      GroupStatsSum(bills, ids[1..], total, t);
      var g := Group(bills, ids[0]);
      var head := if g == [] then [] else
        [CategoryStat(Category(ids[0], g[0].categoryName, g[0].categoryIcon, g[0].categoryColor, t, false),
                      Total(g), Total(g) / total)];
      SumOfConcat(head, GroupStats(bills, ids[1..], total, t), StatAmount);
    }
  }

  /** When every percentage is the amount's share of the amounts' sum, the percentages add up to 1. */
  lemma {:induction false} SharesAddUp(stats: seq<CategoryStat>, total: real)
    requires total != 0.0
    requires forall i :: 0 <= i < |stats| ==> stats[i].percentage == stats[i].amount / total
    ensures SumOf(stats, StatPercentage) == SumOf(stats, StatAmount) / total
  {
    if stats != [] {
      SharesAddUp(stats[1..], total);
    }
  }

  lemma SharesAddUpToOne(stats: seq<CategoryStat>, total: real)
    requires total > 0.0 && SumOf(stats, StatAmount) == total
    requires forall i :: 0 <= i < |stats| ==> stats[i].percentage == stats[i].amount / total
    ensures SumOf(stats, StatPercentage) == 1.0
  {
    SharesAddUp(stats, total);
    DivideBySelf(SumOf(stats, StatAmount), total);
  }

  lemma DivideBySelf(a: real, total: real)
    requires total > 0.0 && a == total
    ensures a / total == 1.0
  {
  }

  lemma StatsAreUnsortedStats(bills: seq<Bill>, t: BillType, j: nat)
    requires Total(bills) > 0.0
    requires j < |CategoryStats(bills, t)|
    ensures CategoryStats(bills, t)[j] in Unsorted(bills, t)
  {
    var r := CategoryStats(bills, t);
    SortDescPermutes(Unsorted(bills, t), StatAmount);
    assert r[j] in multiset(r);
  }

  /** There are category stats exactly when the total of the bills is positive. */
  lemma CategoryStatsEmptyIff(bills: seq<Bill>, t: BillType)
    ensures CategoryStats(bills, t) == [] <==> Total(bills) <= 0.0
  {
    if Total(bills) > 0.0 {
      assert bills != [];
      CategoryStatsCoverIds(bills, t, 0);
    }
  }

  /** No category id has two stats. */
  lemma CategoryStatsDistinct(bills: seq<Bill>, t: BillType)
    requires Total(bills) > 0.0
    ensures DistinctBy(CategoryStats(bills, t), StatId)
  {
    GroupStatsDistinct(bills, DistinctKeys(bills, CategoryIdOf), Total(bills), t);
    SortDescDistinct(Unsorted(bills, t), StatAmount, StatId);
  }

  /** Every category id among the bills has a stat before the sort. */
  lemma UnsortedCoverIds(bills: seq<Bill>, t: BillType, i: nat)
    requires Total(bills) != 0.0
    requires i < |bills|
    ensures exists k :: 0 <= k < |Unsorted(bills, t)| && Unsorted(bills, t)[k].category.id == bills[i].categoryId
  {
    var id := bills[i].categoryId;
    GroupOfMember(bills, i);
    var ids := DistinctKeys(bills, CategoryIdOf);
    assert id in ids;
    GroupStatsComplete(bills, ids, Total(bills), t, id);
    var u := GroupStats(bills, ids, Total(bills), t);
    assert Unsorted(bills, t) == u;
    var k :| 0 <= k < |u| && u[k].category.id == id;
    assert Unsorted(bills, t)[k].category.id == id;
  }

  /** A bill's own category group is not empty. */
  lemma GroupOfMember(bills: seq<Bill>, i: nat)
    requires i < |bills|
    ensures Group(bills, bills[i].categoryId) != []
  {
    FilterKeeps(bills, HasKey(CategoryIdOf, bills[i].categoryId));
  }

  /** Every category id among the bills has a stat. */
  lemma CategoryStatsCoverIds(bills: seq<Bill>, t: BillType, i: nat)
    requires Total(bills) > 0.0
    requires i < |bills|
    ensures exists j :: 0 <= j < |CategoryStats(bills, t)| && CategoryStats(bills, t)[j].category.id == bills[i].categoryId
  {
    var u := Unsorted(bills, t);
    UnsortedCoverIds(bills, t, i);
    var k :| 0 <= k < |u| && u[k].category.id == bills[i].categoryId;
    var r := SortDesc(u, StatAmount);
    assert CategoryStats(bills, t) == r;
    SortDescPermutes(u, StatAmount);
    PermutedElement(u, r, k);
    var j :| 0 <= j < |r| && r[j] == u[k];
    assert CategoryStats(bills, t)[j].category.id == bills[i].categoryId;
  }

  /**
   * Each stat describes its category's group: the group is not empty, the
   * category has the group's id, the selected type and the first bill's name,
   * icon and colour, the amount is the group's total and the percentage the
   * amount's share of the total.
   */
  lemma CategoryStatsDescribeGroups(bills: seq<Bill>, t: BillType, j: nat)
    requires Total(bills) > 0.0
    requires j < |CategoryStats(bills, t)|
    ensures var s, g := CategoryStats(bills, t)[j], Group(bills, CategoryStats(bills, t)[j].category.id);
      && g != []
      && s.category == Category(s.category.id, g[0].categoryName, g[0].categoryIcon, g[0].categoryColor, t, false)
      && s.amount == Total(g)
      && s.percentage == s.amount / Total(bills)
  {
    StatsAreUnsortedStats(bills, t, j);
    GroupStatsMembers(bills, DistinctKeys(bills, CategoryIdOf), Total(bills), t, CategoryStats(bills, t)[j]);
  }

  /** The amounts add up to the total. */
  lemma CategoryStatsAmountsAddUp(bills: seq<Bill>, t: BillType)
    requires Total(bills) > 0.0
    ensures SumOf(CategoryStats(bills, t), StatAmount) == Total(bills)
  {
    SortDescSum(Unsorted(bills, t), StatAmount, StatAmount);
    GroupStatsSum(bills, DistinctKeys(bills, CategoryIdOf), Total(bills), t);
    GroupSumsAddUp(bills, CategoryIdOf, Amount);
  }

  lemma CategoryStatsShares(bills: seq<Bill>, t: BillType)
    requires Total(bills) > 0.0
    ensures forall j :: 0 <= j < |CategoryStats(bills, t)| ==>
      CategoryStats(bills, t)[j].percentage == CategoryStats(bills, t)[j].amount / Total(bills)
  {
    forall j | 0 <= j < |CategoryStats(bills, t)|
      ensures CategoryStats(bills, t)[j].percentage == CategoryStats(bills, t)[j].amount / Total(bills)
    {
      CategoryStatsDescribeGroups(bills, t, j);
    }
  }

  /** The percentages add up to 1. */
  lemma CategoryStatsPercentagesAddUp(bills: seq<Bill>, t: BillType)
    requires Total(bills) > 0.0
    ensures SumOf(CategoryStats(bills, t), StatPercentage) == 1.0
  {
    CategoryStatsShares(bills, t);
    CategoryStatsAmountsAddUp(bills, t);
    SharesAddUpToOne(CategoryStats(bills, t), Total(bills));
  }

  /**
   * The largest amount comes first, and stats of equal amount keep the order
   * in which `groupBy` formed their groups.
   */
  lemma CategoryStatsOrdered(bills: seq<Bill>, t: BillType, v: real)
    requires Total(bills) > 0.0
    ensures SortedDesc(CategoryStats(bills, t), StatAmount)
    ensures Filter(CategoryStats(bills, t), WeighsExactly(StatAmount, v))
         == Filter(Unsorted(bills, t), WeighsExactly(StatAmount, v))
  {
    SortDescSorted(Unsorted(bills, t), StatAmount);
    SortDescStable(Unsorted(bills, t), StatAmount, v);
  }

  /** The state of the statistics screen (`StatisticsUiState`) and the operations that replace it. */
  class StatisticsViewModel {
    var isLoading: bool
    var statsPeriod: StatsPeriod
    var currentYear: int
    var currentMonth: int
    var billType: BillType
    var totalAmount: real
    var totalIncome: real
    var totalExpense: real
    var categoryStats: seq<CategoryStat>
    var error: Option<string>

    /** The cursor's month is a calendar month. */
    ghost predicate Valid()
      reads this
    {
      1 <= currentMonth <= 12
    }

    /**
     * The default state, with the cursor on the month of the clock's date
     * `today`; `init` then starts loading.
     */
    constructor (today: Date)
      requires 1 <= today.month <= 12
      ensures Valid()
      ensures isLoading && statsPeriod == MONTH && billType == EXPENSE
      ensures currentYear == today.year && currentMonth == today.month
      ensures totalAmount == 0.0 && totalIncome == 0.0 && totalExpense == 0.0
      ensures categoryStats == [] && error == None
    {
      isLoading := true;
      statsPeriod := MONTH;
      currentYear := today.year;
      currentMonth := today.month;
      billType := EXPENSE;
      totalAmount, totalIncome, totalExpense := 0.0, 0.0, 0.0;
      categoryStats := [];
      error := None;
    }

    /** `setStatsPeriod`: the period changes, then the data reloads. */
    method SetStatsPeriod(period: StatsPeriod)
      modifies this`statsPeriod, this`isLoading
      ensures statsPeriod == period && isLoading
    {
      statsPeriod := period;
      LoadData();
    }

    /** `setBillType`: the type changes, then the data reloads. */
    method SetBillType(t: BillType)
      modifies this`billType, this`isLoading
      ensures billType == t && isLoading
    {
      billType := t;
      LoadData();
    }

    /** `previousPeriod`: the cursor moves one month back in month mode, one year back in year mode; then the data reloads. */
    method PreviousPeriod()
      requires Valid()
      modifies this`currentYear, this`currentMonth, this`isLoading
      ensures Valid() && isLoading
      ensures (currentYear, currentMonth) == PeriodBefore(statsPeriod, old(currentYear), old(currentMonth))
    {
      if statsPeriod == MONTH {
        var year := currentYear;
        var month := currentMonth - 1;
        if month < 1 {
          month := 12;
          year := year - 1;
        }
        currentYear, currentMonth := year, month;
      } else {
        currentYear := currentYear - 1;
      }
      LoadData();
    }

    /** `nextPeriod`: the cursor moves one month on in month mode, one year on in year mode; then the data reloads. */
    method NextPeriod()
      requires Valid()
      modifies this`currentYear, this`currentMonth, this`isLoading
      ensures Valid() && isLoading
      ensures (currentYear, currentMonth) == PeriodAfter(statsPeriod, old(currentYear), old(currentMonth))
    {
      if statsPeriod == MONTH {
        var year := currentYear;
        var month := currentMonth + 1;
        if month > 12 {
          month := 1;
          year := year + 1;
        }
        currentYear, currentMonth := year, month;
      } else {
        currentYear := currentYear + 1;
      }
      LoadData();
    }

    /** `previousMonth`: the old name of `previousPeriod`, in either mode. */
    method PreviousMonth()
      requires Valid()
      modifies this`currentYear, this`currentMonth, this`isLoading
      ensures Valid() && isLoading
      ensures (currentYear, currentMonth) == PeriodBefore(statsPeriod, old(currentYear), old(currentMonth))
    {
      PreviousPeriod();
    }

    /** `nextMonth`: the old name of `nextPeriod`, in either mode. */
    method NextMonth()
      requires Valid()
      modifies this`currentYear, this`currentMonth, this`isLoading
      ensures Valid() && isLoading
      ensures (currentYear, currentMonth) == PeriodAfter(statsPeriod, old(currentYear), old(currentMonth))
    {
      NextPeriod();
    }

    /** `reload` */
    method Reload()
      modifies this`isLoading
      ensures isLoading
    {
      LoadData();
    }

    /** The start of `loadData`, before the bill list arrives. */
    method LoadData()
      modifies this`isLoading
      ensures isLoading
    {
      isLoading := true;
    }

    /**
     * One delivery of the bill list to `loadData`'s `collect`: the totals and
     * the category stats of the cursor's period and the selected type.
     */
    method OnBills(bills: seq<Bill>)
      modifies this`isLoading, this`totalAmount, this`totalIncome, this`totalExpense, this`categoryStats
      ensures !isLoading
      ensures Summary(totalAmount, totalIncome, totalExpense, categoryStats)
           == Summarize(bills, statsPeriod, currentYear, currentMonth, billType)
    {
      var summary := Summarize(bills, statsPeriod, currentYear, currentMonth, billType);
      isLoading := false;
      totalAmount := summary.totalAmount;
      totalIncome := summary.totalIncome;
      totalExpense := summary.totalExpense;
      categoryStats := summary.categoryStats;
    }
  }
}
