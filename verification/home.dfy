/**
 * The home screen's state holder (HomeViewModel.kt): a (year, month) cursor
 * stepped a month at a time, and, for each delivery of the bill list, the
 * month's bills, its income and expense totals, and the bills grouped by day.
 */
module Home {

  import opened Wrappers
  import opened Values
  import opened Bills
  import opened Collections
  import opened Text
  import opened Ledger

  /** A group key: the `Triple(year, month, day)` of a bill's date. */
  datatype DayKey = DayKey(year: int, month: int, day: int)

  function DayOf(b: Bill): DayKey
  {
    DayKey(b.billDate.year, b.billDate.month, b.billDate.day)
  }

  /** `Triple.toString()`: "(year, month, day)". */
  function KeyString(k: DayKey): string
  {
    "(" + IntToString(k.year) + ", " + IntToString(k.month) + ", " + IntToString(k.day) + ")"
  }

  /**
   * The order of the sorted map, `compareByDescending { it.toString() }`:
   * `k1` comes before `k2` when its string is the larger one.
   */
  predicate Before(k1: DayKey, k2: DayKey)
  {
    Less(KeyString(k2), KeyString(k1))
  }

  /**
   * `groupBy { Triple(year, month, day) }.toSortedMap(compareByDescending { it.toString() })`:
   * each day with its bills, the days in the sorted map's order.
   */
  function GroupByDay(bills: seq<Bill>): seq<(DayKey, seq<Bill>)>
  {
    SortedGroups(bills, DayOf, Before)
  }

  /** The parts of a "(a, b, c)" string whose first two parts hold no comma. */
  lemma TripleStringParts(x1: string, x2: string, x3: string, y1: string, y2: string, y3: string)
    requires ',' !in x1 && ',' !in x2 && ',' !in y1 && ',' !in y2
    requires "(" + x1 + ", " + x2 + ", " + x3 + ")" == "(" + y1 + ", " + y2 + ", " + y3 + ")"
    ensures x1 == y1 && x2 == y2 && x3 == y3
  {
    var rx, ry := " " + x2 + ", " + x3 + ")", " " + y2 + ", " + y3 + ")";
    var sx, sy := "(" + x1 + ", " + x2 + ", " + x3 + ")", "(" + y1 + ", " + y2 + ", " + y3 + ")";
    assert sx[1..] == x1 + [','] + rx;
    assert sy[1..] == y1 + [','] + ry;
    CutAtFirst(x1, rx, y1, ry, ',');
    var tx, ty := " " + x3 + ")", " " + y3 + ")";
    assert rx[1..] == x2 + [','] + tx;
    assert ry[1..] == y2 + [','] + ty;
    CutAtFirst(x2, tx, y2, ty, ',');
    assert x3 == tx[1..|tx| - 1] && y3 == ty[1..|ty| - 1];
  }

  /** Different days have different strings, so the sorted map never merges two of them. */
  lemma KeyStringInjective(a: DayKey, b: DayKey)
    requires KeyString(a) == KeyString(b)
    ensures a == b
  {
    IntToStringChars(a.year);
    IntToStringChars(a.month);
    IntToStringChars(b.year);
    IntToStringChars(b.month);
    TripleStringParts(IntToString(a.year), IntToString(a.month), IntToString(a.day),
                      IntToString(b.year), IntToString(b.month), IntToString(b.day));
    IntToStringInjective(a.year, b.year);
    IntToStringInjective(a.month, b.month);
    IntToStringInjective(a.day, b.day);
  }

  /** Of two different days, one comes before the other. */
  lemma BeforeTotal(a: DayKey, b: DayKey)
    requires a != b
    ensures Before(a, b) || Before(b, a)
  {
    if KeyString(a) == KeyString(b) {
      KeyStringInjective(a, b);
    } else {
      LessTotal(KeyString(a), KeyString(b));
    }
  }

  /** `Before` is a strict total order on day keys. */
  lemma BeforeOrders(u: seq<DayKey>)
    ensures TotalOrderOn(u, Before)
  {
    forall a, b | a in u && b in u && a != b ensures Before(a, b) || Before(b, a) {
      BeforeTotal(a, b);
    }
    forall a, b, c | a in u && b in u && c in u && Before(a, b) && Before(b, c) ensures Before(a, c) {
      LessTransitive(KeyString(c), KeyString(b), KeyString(a));
    }
  }

  /** The groups come in strictly descending order of their keys' strings. */
  lemma GroupByDayOrdered(bills: seq<Bill>)
    ensures var r := GroupByDay(bills);
      forall g, h :: 0 <= g < h < |r| ==> Less(KeyString(r[h].0), KeyString(r[g].0))
  {
    BeforeOrders(DistinctKeys(bills, DayOf));
    SortedGroupsOrdered(bills, DayOf, Before);
  }

  /** Each group holds the bills of its day, in their order in `bills`, and is not empty. */
  lemma GroupByDayGroups(bills: seq<Bill>, g: nat)
    requires g < |GroupByDay(bills)|
    ensures var r := GroupByDay(bills);
      r[g].1 == Filter(bills, HasKey(DayOf, r[g].0)) && r[g].1 != []
  {
    SortedGroupsAt(bills, DayOf, Before, g);
  }

  /** Every bill lies in exactly one group, the one whose key is its day. */
  lemma GroupByDayPartitions(bills: seq<Bill>, i: nat)
    requires i < |bills|
    ensures var r := GroupByDay(bills);
      exists g :: 0 <= g < |r| && r[g].0 == DayOf(bills[i]) && bills[i] in r[g].1
        && forall h :: 0 <= h < |r| && bills[i] in r[h].1 ==> h == g
  {
    SortedGroupsPartition(bills, DayOf, Before, i);
    var r := SortedGroups(bills, DayOf, Before);
    var g :| 0 <= g < |r| && r[g].0 == DayOf(bills[i]) && bills[i] in r[g].1
      && forall h :: 0 <= h < |r| && bills[i] in r[h].1 ==> h == g;
    assert GroupByDay(bills)[g] == r[g];
  }

  /**
   * The order is by text, not by date: within a month day 9 comes before
   * day 10, and day 10 before day 1.
   */
  lemma TextualDayOrder(year: int, month: int)
    ensures Before(DayKey(year, month, 9), DayKey(year, month, 10))
    ensures Before(DayKey(year, month, 10), DayKey(year, month, 1))
  {
    var p := "(" + IntToString(year) + ", " + IntToString(month) + ", ";
    assert KeyString(DayKey(year, month, 9)) == p + "9)";
    assert KeyString(DayKey(year, month, 10)) == p + "10)";
    assert KeyString(DayKey(year, month, 1)) == p + "1)";
    LessAfterPrefix(p, "10)", "9)");
    LessAfterPrefix(p, "1)", "10)");
  }

  /** A bill of the 10th delivered before one of the 9th: the 9th's group comes first. */
  lemma NinthBeforeTenth(b10: Bill, b9: Bill)
    requires b10.billDate.day == 10 && b9.billDate.day == 9
    requires b10.billDate.year == b9.billDate.year && b10.billDate.month == b9.billDate.month
    ensures var r := GroupByDay([b10, b9]);
      |r| == 2 && r[0].0.day == 9 && r[1].0.day == 10
  {
    TextualDayOrder(b9.billDate.year, b9.billDate.month);
    var k10, k9 := DayOf(b10), DayOf(b9);
    assert [b10][..0] == [];
    assert DistinctKeys([b10], DayOf) == [k10];
    assert [b10, b9][..1] == [b10];
    assert DistinctKeys([b10, b9], DayOf) == [k10, k9];
    assert SortBy([k9], Before) == [k9];
    assert SortBy([k10, k9], Before) == InsertBy(k10, [k9], Before) == [k9, k10];
    GroupsOfAt([b10, b9], [k9, k10], DayOf, 0);
    GroupsOfAt([b10, b9], [k9, k10], DayOf, 1);
  }

  /**
   * The `forEach` over the month's bills: `income` adds up the INCOME bills,
   * `expense` every other one.
   */
  method MonthTotals(bills: seq<Bill>) returns (income: real, expense: real)
    ensures income == Total(Filter(bills, OfType(INCOME)))
    ensures expense == Total(Filter(bills, OfType(EXPENSE)))
  {
    income, expense := 0.0, 0.0;
    var i := 0;
    while i < |bills|
      invariant 0 <= i <= |bills|
      invariant income == Total(Filter(bills[..i], OfType(INCOME)))
      invariant expense == Total(Filter(bills[..i], Not(OfType(INCOME))))
    {
      var b := bills[i];
      assert bills[..i + 1] == bills[..i] + [b];
      TotalOfAppended(bills[..i], b, OfType(INCOME));
      TotalOfAppended(bills[..i], b, Not(OfType(INCOME)));
      if b.billType == INCOME {
        income := income + b.amount;
      } else {
        expense := expense + b.amount;
      }
      i := i + 1;
    }
    assert bills[..i] == bills;
    FilterAgree(bills, Not(OfType(INCOME)), OfType(EXPENSE));
  }

  class HomeViewModel {
    var isLoading: bool
    var bills: seq<Bill>
    var groupedBills: seq<(DayKey, seq<Bill>)>
    var totalIncome: real
    var totalExpense: real
    var currentYear: int
    var currentMonth: int
    var error: Option<string>

    /** The cursor's month is a calendar month. */
    ghost predicate Valid()
      reads this
    {
      1 <= currentMonth <= 12
    }

    /**
     * The default state, with the cursor on the month of the clock's date
     * `today`; `init` then starts loading.
     */
    constructor (today: Date)
      requires 1 <= today.month <= 12
      ensures Valid()
      ensures isLoading && bills == [] && groupedBills == []
      ensures totalIncome == 0.0 && totalExpense == 0.0
      ensures currentYear == today.year && currentMonth == today.month
      ensures error == None
    {
      bills, groupedBills := [], [];
      totalIncome, totalExpense := 0.0, 0.0;
      currentYear, currentMonth := today.year, today.month;
      error := None;
      isLoading := true;
    }

    /** The start of `loadBills`, before the bill list arrives. */
    method LoadBills()
      modifies this`isLoading
      ensures isLoading
    {
      isLoading := true;
    }

    /** `previousMonth`: the cursor moves one month back, then the bills reload. */
    method PreviousMonth()
      requires Valid()
      modifies this`currentYear, this`currentMonth, this`isLoading
      ensures Valid() && isLoading
      ensures (currentYear, currentMonth) == Ledger.PreviousMonth(old(currentYear), old(currentMonth))
    {
      var year := currentYear;
      var month := currentMonth - 1;
      if month < 1 {
        month := 12;
        year := year - 1;
      }
      currentYear, currentMonth := year, month;
      LoadBills();
    }

    /** `nextMonth`: the cursor moves one month on, then the bills reload. */
    method NextMonth()
      requires Valid()
      modifies this`currentYear, this`currentMonth, this`isLoading
      ensures Valid() && isLoading
      ensures (currentYear, currentMonth) == Ledger.NextMonth(old(currentYear), old(currentMonth))
    {
      var year := currentYear;
      var month := currentMonth + 1;
      if month > 12 {
        month := 1;
        year := year + 1;
      }
      currentYear, currentMonth := year, month;
      LoadBills();
    }

    /**
     * One delivery of the bill list to `loadBills`'s `collect`: the bills of
     * the cursor's month, their income and expense totals and their day groups.
     */
    method OnBills(all: seq<Bill>)
      modifies this`isLoading, this`bills, this`groupedBills, this`totalIncome, this`totalExpense
      ensures !isLoading
      ensures bills == Filter(all, InMonth(currentYear, currentMonth))
      ensures totalIncome == Total(Filter(bills, OfType(INCOME)))
      ensures totalExpense == Total(Filter(bills, OfType(EXPENSE)))
      ensures groupedBills == GroupByDay(bills)
    {
      isLoading := false;
      bills := Filter(all, InMonth(currentYear, currentMonth));
      ShowBills();
    }

    /** The rest of the `collect` body, once `bills` holds the month's bills: totals and day groups. */
    method ShowBills()
      modifies this`groupedBills, this`totalIncome, this`totalExpense
      ensures totalIncome == Total(Filter(bills, OfType(INCOME)))
      ensures totalExpense == Total(Filter(bills, OfType(EXPENSE)))
      ensures groupedBills == GroupByDay(bills)
    {
      var income, expense := MonthTotals(bills);
      groupedBills := GroupByDay(bills);
      totalIncome, totalExpense := income, expense;
    }
  }
}
