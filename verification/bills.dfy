/**
 * The bill record (Bill.kt): its type, its fields and defaults, and the
 * codec between a bill and the document the store keeps for it.
 */
module Bills {

  import opened Wrappers
  import opened Values

  datatype BillType = INCOME | EXPENSE

  /** `BillType.name` */
  function TypeName(t: BillType): string
  {
    match t
    case INCOME => "INCOME"
    case EXPENSE => "EXPENSE"
  }

  /** `BillType.valueOf(name)`: the constant of exactly that name; anything else throws. */
  function ValueOf(name: string): (r: Option<BillType>)
    ensures r.Some? <==> name == "INCOME" || name == "EXPENSE"
    ensures r.Some? ==> TypeName(r.value) == name
  {
    if name == "INCOME" then Some(INCOME)
    else if name == "EXPENSE" then Some(EXPENSE)
    else None
  }

  /**
   * `try { BillType.valueOf(map["type"] as? String ?: "EXPENSE") } catch (e: Exception) { EXPENSE }`:
   * the type is INCOME exactly when the document says "INCOME".
   */
  function TypeOr(m: Doc): (t: BillType)
    ensures t == INCOME <==> "type" in m && m["type"] == StrVal("INCOME")
  {
    match ValueOf(StringOr(m, "type", "EXPENSE"))
    case Some(t) => t
    case None => EXPENSE
  }

  /**
   * A bill. `categoryColor` is not a field of the source's record, yet the
   * statistics read it from every bill; here it exists and nothing but the
   * record's default ever sets it.
   */
  datatype Bill = Bill(
    id: string,
    amount: real,
    billType: BillType,
    categoryId: string,
    categoryName: string,
    categoryIcon: string,
    categoryColor: string,
    note: string,
    billDate: Date,
    createdAt: Date)

  /** `Bill(id = id)`: every other field at its default, both dates at the clock's reading `now`. */
  function DefaultBill(id: string, now: Date): Bill
  {
    Bill(id, 0.0, EXPENSE, "", "", "", "", "", now, now)
  }

  /** `Bill.toMap()`: every stored field but the id, which is the document's name. */
  function ToMap(b: Bill): (m: Doc)
    ensures m.Keys == {"amount", "type", "categoryId", "categoryName", "categoryIcon", "note", "billDate", "createdAt"}
    ensures "id" !in m
  {
    map[
      "amount" := DoubleVal(b.amount),
      "type" := StrVal(TypeName(b.billType)),
      "categoryId" := StrVal(b.categoryId),
      "categoryName" := StrVal(b.categoryName),
      "categoryIcon" := StrVal(b.categoryIcon),
      "note" := StrVal(b.note),
      "billDate" := DateVal(b.billDate),
      "createdAt" := DateVal(b.createdAt)]
  }

  /** `Bill.fromMap(id, map)`, with `now` the clock's reading used by `Date()`. */
  function FromMap(id: string, m: Doc, now: Date): (b: Bill)
    ensures b.id == id
    ensures b.categoryColor == ""
  {
    Bill(
      id,
      NumberToReal(m, "amount"),
      TypeOr(m),
      StringOr(m, "categoryId", ""),
      StringOr(m, "categoryName", ""),
      StringOr(m, "categoryIcon", ""),
      "",
      StringOr(m, "note", ""),
      TimestampOr(m, "billDate", now),
      TimestampOr(m, "createdAt", now))
  }

  /**
   * Every field whose key is missing or holds a value of the wrong kind
   * decodes to the record's default; a numeric amount of either kind is
   * converted; an unknown type name decodes to EXPENSE.
   */
  lemma FromMapFallsBack(id: string, m: Doc, now: Date)
    ensures var b, d := FromMap(id, m, now), DefaultBill(id, now);
      && (!("amount" in m && (m["amount"].LongVal? || m["amount"].DoubleVal?)) ==> b.amount == d.amount)
      && ("amount" in m && m["amount"].LongVal? ==> b.amount == m["amount"].i as real)
      && ("amount" in m && m["amount"].DoubleVal? ==> b.amount == m["amount"].d)
      && (!("type" in m && m["type"] == StrVal("INCOME")) ==> b.billType == d.billType)
      && (!("categoryId" in m && m["categoryId"].StrVal?) ==> b.categoryId == d.categoryId)
      && (!("categoryName" in m && m["categoryName"].StrVal?) ==> b.categoryName == d.categoryName)
      && (!("categoryIcon" in m && m["categoryIcon"].StrVal?) ==> b.categoryIcon == d.categoryIcon)
      && (!("note" in m && m["note"].StrVal?) ==> b.note == d.note)
      && (!("billDate" in m && m["billDate"].TimestampVal?) ==> b.billDate == d.billDate)
      && (!("createdAt" in m && m["createdAt"].TimestampVal?) ==> b.createdAt == d.createdAt)
  {
  }

  /** An empty document decodes to the default bill with the given id. */
  lemma FromEmptyMap(id: string, now: Date)
    ensures FromMap(id, map[], now) == DefaultBill(id, now)
  {
  }

  /** The id comes from the argument: an "id" entry in the document is ignored. */
  lemma FromMapIgnoresIdKey(id: string, m: Doc, v: Value, now: Date)
    ensures FromMap(id, m["id" := v], now) == FromMap(id, m, now)
  {
  }

  /**
   * Writing a bill to the store and reading it back under the name `id`
   * gives the bill with that id (and without a colour, which is not stored).
   */
  lemma RoundTripThroughStore(b: Bill, id: string, now: Date)
    ensures FromMap(id, StoredDoc(ToMap(b)), now) == b.(id := id, categoryColor := "")
  {
    var m := StoredDoc(ToMap(b));
    assert m["billDate"] == TimestampVal(b.billDate);
    assert m["createdAt"] == TimestampVal(b.createdAt);
    assert m["type"] == StrVal(TypeName(b.billType));
    assert ValueOf(TypeName(b.billType)) == Some(b.billType);
  }

  /**
   * Read back directly, without the store's conversion of dates into
   * timestamps, the map keeps every field but loses both dates to `now`.
   */
  lemma RoundTripWithoutStore(b: Bill, id: string, now: Date)
    ensures FromMap(id, ToMap(b), now)
         == b.(id := id, categoryColor := "", billDate := now, createdAt := now)
  {
    assert ValueOf(TypeName(b.billType)) == Some(b.billType);
  }
}
