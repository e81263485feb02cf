/** The budget record (Budget.kt) and its document codec. */
module Budgets {

  import opened Values

  datatype Budget = Budget(
    id: string,
    amount: real,
    categoryId: string,
    categoryName: string,
    year: Int32,
    month: Int32,
    createdAt: Date)

  /** `Budget(id = id)`: every other field at its default, the creation date at `now`. */
  function DefaultBudget(id: string, now: Date): Budget
  {
    Budget(id, 0.0, "", "", 0, 0, now)
  }

  /** `Budget.toMap()`: every field but the id; the store keeps the Int year and month as integers. */
  function ToMap(b: Budget): (m: Doc)
    ensures m.Keys == {"amount", "categoryId", "categoryName", "year", "month", "createdAt"}
    ensures "id" !in m
  {
    map[
      "amount" := DoubleVal(b.amount),
      "categoryId" := StrVal(b.categoryId),
      "categoryName" := StrVal(b.categoryName),
      "year" := LongVal(b.year),
      "month" := LongVal(b.month),
      "createdAt" := DateVal(b.createdAt)]
  }

  /** `Budget.fromMap(id, map)`, with `now` the clock's reading used by `Date()`. */
  function FromMap(id: string, m: Doc, now: Date): (b: Budget)
    ensures b.id == id
  {
    Budget(
      id,
      NumberToReal(m, "amount"),
      StringOr(m, "categoryId", ""),
      StringOr(m, "categoryName", ""),
      NumberToInt(m, "year"),
      NumberToInt(m, "month"),
      TimestampOr(m, "createdAt", now))
  }

  /** Every field whose key is missing or holds a value of the wrong kind decodes to the record's default. */
  lemma FromMapFallsBack(id: string, m: Doc, now: Date)
    ensures var b, d := FromMap(id, m, now), DefaultBudget(id, now);
      && (!("amount" in m && (m["amount"].LongVal? || m["amount"].DoubleVal?)) ==> b.amount == d.amount)
      && (!("categoryId" in m && m["categoryId"].StrVal?) ==> b.categoryId == d.categoryId)
      && (!("categoryName" in m && m["categoryName"].StrVal?) ==> b.categoryName == d.categoryName)
      && (!("year" in m && (m["year"].LongVal? || m["year"].DoubleVal?)) ==> b.year == d.year)
      && (!("month" in m && (m["month"].LongVal? || m["month"].DoubleVal?)) ==> b.month == d.month)
      && (!("createdAt" in m && m["createdAt"].TimestampVal?) ==> b.createdAt == d.createdAt)
  {
  }

  /**
   * A year or month stored as an integer is read back as its low 32 bits
   * (`Long.toInt()`), and one stored as a floating number is cut toward zero
   * and saturated (`Double.toInt()`).
   */
  lemma YearMonthConversion(id: string, now: Date, x: int, d: real)
    ensures FromMap(id, map["year" := LongVal(x)], now).year == WrapToInt32(x)
    ensures FromMap(id, map["month" := LongVal(x)], now).month == WrapToInt32(x)
    ensures FromMap(id, map["year" := DoubleVal(d)], now).year == TruncateToInt32(d)
    ensures FromMap(id, map["month" := DoubleVal(d)], now).month == TruncateToInt32(d)
  {
  }

  /**
   * Examples of these conversions: a stored year outside the Int range keeps
   * only its low 32 bits, and a fractional one is cut toward zero.
   */
  lemma YearConversion(id: string, now: Date)
    ensures FromMap(id, map["year" := LongVal(TWO_32 + 2024)], now).year == 2024
    ensures FromMap(id, map["year" := LongVal(INT_MAX + 1)], now).year == INT_MIN
    ensures FromMap(id, map["year" := DoubleVal(2024.9)], now).year == 2024
    ensures FromMap(id, map["month" := DoubleVal(-1.5)], now).month == -1
    ensures FromMap(id, map["month" := DoubleVal(1.0e10)], now).month == INT_MAX
  {
  }

  /** Writing a budget to the store and reading it back under the name `id` gives the budget with that id. */
  lemma RoundTripThroughStore(b: Budget, id: string, now: Date)
    ensures FromMap(id, StoredDoc(ToMap(b)), now) == b.(id := id)
  {
    var m := StoredDoc(ToMap(b));
    assert m["createdAt"] == TimestampVal(b.createdAt);
    assert m["year"] == LongVal(b.year) && m["month"] == LongVal(b.month);
  }
}
