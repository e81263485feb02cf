/**
 * What the home and statistics screens share: the amount totals of bill
 * lists, the selection of bills by type and by calendar month, and the
 * (year, month) cursor that both step back and forth.
 */
module Ledger {

  import opened Bills
  import opened Collections

  function Amount(b: Bill): real
  {
    b.amount
  }

  /** `sumOf { it.amount }` */
  function Total(bills: seq<Bill>): real
  {
    SumOf(bills, Amount)
  }

  /** `{ it.type == t }` */
  function OfType(t: BillType): Bill -> bool
  {
    (b: Bill) => b.billType == t
  }

  /** The bills dated in the given calendar month. */
  function InMonth(year: int, month: int): Bill -> bool
  {
    (b: Bill) => b.billDate.year == year && b.billDate.month == month
  }

  /** The number of months from the start of year 0 to (year, month). */
  function MonthIndex(year: int, month: int): int
  {
    year * 12 + (month - 1)
  }

  /** One month back: `month - 1`, and below 1 wrap to 12 of the year before. */
  function PreviousMonth(year: int, month: int): (r: (int, int))
    ensures 1 <= month <= 12 ==> 1 <= r.1 <= 12 && MonthIndex(r.0, r.1) == MonthIndex(year, month) - 1
  {
    if month - 1 < 1 then (year - 1, 12) else (year, month - 1)
  }

  /** One month on: `month + 1`, and above 12 wrap to 1 of the year after. */
  function NextMonth(year: int, month: int): (r: (int, int))
    ensures 1 <= month <= 12 ==> 1 <= r.1 <= 12 && MonthIndex(r.0, r.1) == MonthIndex(year, month) + 1
  {
    if month + 1 > 12 then (year + 1, 1) else (year, month + 1)
  }

  /** A month index names a single (year, month) with the month in 1..12. */
  lemma MonthIndexInjective(y1: int, m1: int, y2: int, m2: int)
    requires 1 <= m1 <= 12 && 1 <= m2 <= 12
    requires MonthIndex(y1, m1) == MonthIndex(y2, m2)
    ensures y1 == y2 && m1 == m2
  {
    assert y1 * 12 <= MonthIndex(y1, m1) < y1 * 12 + 12;
    assert y2 * 12 <= MonthIndex(y2, m2) < y2 * 12 + 12;
  }

  /** Stepping back and then on returns to the same month, and so does stepping on and then back. */
  lemma StepsUndoEachOther(year: int, month: int)
    requires 1 <= month <= 12
    ensures var p := PreviousMonth(year, month); NextMonth(p.0, p.1) == (year, month)
    ensures var n := NextMonth(year, month); PreviousMonth(n.0, n.1) == (year, month)
  {
    var p := PreviousMonth(year, month);
    var q := NextMonth(p.0, p.1);
    MonthIndexInjective(q.0, q.1, year, month);
    var n := NextMonth(year, month);
    var o := PreviousMonth(n.0, n.1);
    MonthIndexInjective(o.0, o.1, year, month);
  }

  /** The income total and the expense total add up to the total of all the bills. */
  lemma IncomeAndExpenseAddUp(bills: seq<Bill>)
    ensures Total(Filter(bills, OfType(INCOME))) + Total(Filter(bills, OfType(EXPENSE))) == Total(bills)
  {
    SumOfSplits(bills, OfType(INCOME), Amount);
    FilterAgree(bills, Not(OfType(INCOME)), OfType(EXPENSE));
  }

  /** Appending one bill to a list adds its amount to the total of the selection exactly when it is selected. */
  lemma TotalOfAppended(bills: seq<Bill>, b: Bill, p: Bill -> bool)
    ensures Total(Filter(bills + [b], p)) == Total(Filter(bills, p)) + (if p(b) then b.amount else 0.0)
  {
    FilterConcat(bills, [b], p);
    assert Filter([b], p) == (if p(b) then [b] else []) + Filter([], p);
    SumOfConcat(Filter(bills, p), Filter([b], p), Amount);
  }
}
