/**
 * The category record (Category.kt): its fields and defaults, its document
 * codec, and the starter categories every new account is seeded with.
 */
module Categories {

  import opened Wrappers
  import opened Values
  import opened Bills

  const DEFAULT_COLOR: string := "#4A90D9"

  datatype Category = Category(
    id: string,
    name: string,
    icon: string,
    color: string,
    billType: BillType,
    isDefault: bool)

  /** `Category(id = id)`: every other field at its default. */
  function DefaultCategory(id: string): Category
  {
    Category(id, "", "", DEFAULT_COLOR, EXPENSE, false)
  }

  /** `Category.toMap()`: every field but the id, which is the document's name. */
  function ToMap(c: Category): (m: Doc)
    ensures m.Keys == {"name", "icon", "color", "type", "isDefault"}
    ensures "id" !in m
  {
    map[
      "name" := StrVal(c.name),
      "icon" := StrVal(c.icon),
      "color" := StrVal(c.color),
      "type" := StrVal(TypeName(c.billType)),
      "isDefault" := BoolVal(c.isDefault)]
  }

  /** `Category.fromMap(id, map)` */
  function FromMap(id: string, m: Doc): (c: Category)
    ensures c.id == id
  {
    Category(
      id,
      StringOr(m, "name", ""),
      StringOr(m, "icon", ""),
      StringOr(m, "color", DEFAULT_COLOR),
      TypeOr(m),
      BoolOr(m, "isDefault", false))
  }

  /** Every field whose key is missing or holds a value of the wrong kind decodes to the record's default. */
  lemma FromMapFallsBack(id: string, m: Doc)
    ensures var c, d := FromMap(id, m), DefaultCategory(id);
      && (!("name" in m && m["name"].StrVal?) ==> c.name == d.name)
      && (!("icon" in m && m["icon"].StrVal?) ==> c.icon == d.icon)
      && (!("color" in m && m["color"].StrVal?) ==> c.color == d.color)
      && (!("type" in m && m["type"] == StrVal("INCOME")) ==> c.billType == d.billType)
      && (!("isDefault" in m && m["isDefault"].BoolVal?) ==> c.isDefault == d.isDefault)
  {
  }

  /** A type name other than "INCOME" and "EXPENSE" makes valueOf throw, and the category is an expense one. */
  lemma UnknownTypeIsExpense(id: string, m: Doc, name: string)
    requires name != "INCOME"
    ensures FromMap(id, m["type" := StrVal(name)]).billType == EXPENSE
  {
  }

  /** Decoding a category's map under the name `id` gives the category with that id. */
  lemma RoundTrip(c: Category, id: string)
    ensures FromMap(id, ToMap(c)) == c.(id := id)
  {
    assert ValueOf(TypeName(c.billType)) == Some(c.billType);
  }

  /** A category's document holds no date, so the store gives it back unchanged. */
  lemma StoreKeepsMap(c: Category)
    ensures StoredDoc(ToMap(c)) == ToMap(c)
  {
  }

  /** `Category.getDefaultExpenseCategories()` */
  function DefaultExpenseCategories(): (r: seq<Category>)
    ensures |r| == 9
    ensures forall i :: 0 <= i < |r| ==> r[i].id == "" && r[i].billType == EXPENSE && r[i].isDefault
    ensures forall i, j :: 0 <= i < j < |r| ==> r[i].name != r[j].name
  {
    [ Category("", "餐饮", "🍔", "#FF6B6B", EXPENSE, true),
      Category("", "交通", "🚗", "#4A90D9", EXPENSE, true),
      Category("", "购物", "🛒", "#9B59B6", EXPENSE, true),
      Category("", "娱乐", "🎮", "#E67E22", EXPENSE, true),
      Category("", "居住", "🏠", "#27AE60", EXPENSE, true),
      Category("", "通讯", "📱", "#3498DB", EXPENSE, true),
      Category("", "医疗", "💊", "#E74C3C", EXPENSE, true),
      Category("", "教育", "📚", "#1ABC9C", EXPENSE, true),
      Category("", "其他", "📦", "#95A5A6", EXPENSE, true) ]
  }

  /** `Category.getDefaultIncomeCategories()` */
  function DefaultIncomeCategories(): (r: seq<Category>)
    ensures |r| == 5
    ensures forall i :: 0 <= i < |r| ==> r[i].id == "" && r[i].billType == INCOME && r[i].isDefault
    ensures forall i, j :: 0 <= i < j < |r| ==> r[i].name != r[j].name
  {
    [ Category("", "工资", "💵", "#52C41A", INCOME, true),
      Category("", "奖金", "🎁", "#FAAD14", INCOME, true),
      Category("", "投资", "📈", "#722ED1", INCOME, true),
      Category("", "兼职", "💼", "#13C2C2", INCOME, true),
      Category("", "其他", "💰", "#52C41A", INCOME, true) ]
  }
}
