/**
 * The add/edit bill screen (BillViewModel.kt): the form's state, the checks
 * `saveBill` makes before it writes, the bill it writes, and how `loadBill`
 * fills the form from a stored bill.
 */
module BillForm {

  import opened Wrappers
  import opened Values
  import opened Bills
  import opened Categories
  import opened Collections
  import opened Text
  import opened Amounts

  const AMOUNT_ERROR: string := "请输入有效金额"
  const CATEGORY_ERROR: string := "请选择分类"
  const NOT_FOUND: string := "账单未找到"

  /** `{ it.type == t }` on categories */
  function CategoryOfType(t: BillType): Category -> bool
  {
    (c: Category) => c.billType == t
  }

  /** `{ it.id == id }` on categories */
  function CategoryWithId(id: string): Category -> bool
  {
    (c: Category) => c.id == id
  }

  /** `{ it.id == id }` on bills */
  function BillWithId(id: string): Bill -> bool
  {
    (b: Bill) => b.id == id
  }

  /**
   * `categories.find { it.id == id } ?: categories.firstOrNull()`: the
   * category with that id, else the first one, else none.
   */
  function PickCategory(categories: seq<Category>, id: string): (r: Option<Category>)
    ensures r.None? <==> categories == []
    ensures (exists i :: 0 <= i < |categories| && categories[i].id == id) ==>
      r.Some? && (exists i :: 0 <= i < |categories| && categories[i] == r.value && r.value.id == id
                               && forall j :: 0 <= j < i ==> categories[j].id != id)
    ensures (forall i :: 0 <= i < |categories| ==> categories[i].id != id) && categories != [] ==> r == Some(categories[0])
    ensures r.Some? ==> r.value in categories
  {
    match Find(categories, CategoryWithId(id))
    case Some(c) => Some(c)
    case None => if categories == [] then None else Some(categories[0])
  }

  /** The outcome of `saveBill`'s checks: an error message, or the amount and category to write. */
  datatype Check = Rejected(message: string) | Accepted(value: real, category: Category)

  /**
   * `saveBill`'s checks, in order: the amount text must read as a number
   * above zero, then a category must be selected.
   */
  function CheckForm(amount: string, selected: Option<Category>): (r: Check)
    ensures r.Accepted? <==> ToDoubleOrNull(amount).Some? && ToDoubleOrNull(amount).value > 0.0 && selected.Some?
    ensures r.Accepted? ==> ToDoubleOrNull(amount) == Some(r.value) && selected == Some(r.category)
    ensures (ToDoubleOrNull(amount).None? || ToDoubleOrNull(amount).value <= 0.0) ==> r == Rejected(AMOUNT_ERROR)
    ensures ToDoubleOrNull(amount).Some? && ToDoubleOrNull(amount).value > 0.0 && selected.None? ==> r == Rejected(CATEGORY_ERROR)
  {
    match ToDoubleOrNull(amount)
    case None => Rejected(AMOUNT_ERROR)
    case Some(v) =>
      if v <= 0.0 then Rejected(AMOUNT_ERROR)
      else match selected
        case None => Rejected(CATEGORY_ERROR)
        case Some(c) => Accepted(v, c)
  }

  /**
   * Some texts `setAmount` lets into the form are still refused as amounts
   * by `saveBill`: the empty text, a lone point and zero written with decimals.
   */
  lemma AcceptedTextsSaveRejects(c: Option<Category>)
    ensures MatchesAmount("") && CheckForm("", c) == Rejected(AMOUNT_ERROR)
    ensures MatchesAmount(".") && CheckForm(".", c) == Rejected(AMOUNT_ERROR)
    ensures MatchesAmount("0.00") && CheckForm("0.00", c) == Rejected(AMOUNT_ERROR)
  {
    EmptyMatches();
    MatchedAmountParses("");
    assert DigitRun(".") == 0 && "."[1..] == [];
    MatchedAmountParses(".");
    ZeroAmountMatches();
  }

  /**
   * Any other text `setAmount` lets in reads as a number, and with a
   * category selected `saveBill` accepts it exactly when it is not zero.
   */
  lemma MatchedAmountSaves(s: string, c: Category)
    requires MatchesAmount(s) && s != "" && s != "."
    ensures ToDoubleOrNull(s).Some?
    ensures CheckForm(s, Some(c)).Accepted? <==> ToDoubleOrNull(s).value != 0.0
  {
    MatchedAmountParses(s);
  }

  /** The bill `saveBill` writes: the form's fields, the id only in edit mode, created at the clock's reading `now`. */
  function FormBill(isEditMode: bool, editingBillId: string, value: real, t: BillType, c: Category,
                    note: string, billDate: Date, now: Date): (b: Bill)
    ensures b.id == (if isEditMode then editingBillId else "")
    ensures b.amount == value && b.billType == t && b.note == note && b.billDate == billDate
    ensures b.categoryId == c.id && b.categoryName == c.name && b.categoryIcon == c.icon
    ensures b.categoryColor == DefaultBill("", now).categoryColor && b.createdAt == now
  {
    Bill(if isEditMode then editingBillId else "", value, t, c.id, c.name, c.icon, "", note, billDate, now)
  }

  /** `bills.find { it.id == billId }`: the first bill with that id, if any. */
  function FoundBill(bills: seq<Bill>, billId: string): (r: Option<Bill>)
    ensures r.None? <==> forall i :: 0 <= i < |bills| ==> bills[i].id != billId
    ensures r.Some? ==> (exists i :: 0 <= i < |bills| && bills[i] == r.value && r.value.id == billId
                                  && forall j :: 0 <= j < i ==> bills[j].id != billId)
  {
    Find(bills, BillWithId(billId))
  }

  /** The repository call `saveBill` makes. */
  datatype Request = Add(bill: Bill) | Update(bill: Bill)

  /** What the repository read in `loadBill` gives: the bill list, or an exception and its message. */
  datatype Fetch = Fetched(bills: seq<Bill>) | FetchFailed(message: Option<string>)

  /** The two category lists `loadCategories` keeps split every category of the list it receives. */
  lemma CategoriesPartition(categories: seq<Category>)
    ensures multiset(Filter(categories, CategoryOfType(EXPENSE))) + multiset(Filter(categories, CategoryOfType(INCOME)))
         == multiset(categories)
  {
    FilterSplits(categories, CategoryOfType(EXPENSE));
    FilterAgree(categories, Not(CategoryOfType(EXPENSE)), CategoryOfType(INCOME));
  }

  class BillViewModel {
    var isLoading: bool
    var isEditMode: bool
    var editingBillId: string
    var billType: BillType
    var amount: string
    var selectedCategory: Option<Category>
    var note: string
    var billDate: Date
    var expenseCategories: seq<Category>
    var incomeCategories: seq<Category>
    var error: Option<string>

    /** The amount text is one `setAmount` would accept. */
    ghost predicate AmountFits()
      reads this
    {
      MatchesAmount(amount)
    }

    /** `BillUiState()`: an empty expense form dated at the clock's reading `now`. */
    constructor (now: Date)
      ensures !isLoading && !isEditMode && editingBillId == "" && billType == EXPENSE
      ensures amount == "" && selectedCategory == None && note == "" && billDate == now
      ensures expenseCategories == [] && incomeCategories == [] && error == None
      ensures AmountFits()
    {
      isLoading, isEditMode, editingBillId, billType := false, false, "", EXPENSE;
      amount, selectedCategory, note, billDate := "", None, "", now;
      expenseCategories, incomeCategories, error := [], [], None;
      EmptyMatches();
    }

    /** One delivery of the category list to `loadCategories`: the list split by type. */
    method OnCategories(categories: seq<Category>)
      modifies this`expenseCategories, this`incomeCategories
      ensures expenseCategories == Filter(categories, CategoryOfType(EXPENSE))
      ensures incomeCategories == Filter(categories, CategoryOfType(INCOME))
    {
      expenseCategories := Filter(categories, CategoryOfType(EXPENSE));
      incomeCategories := Filter(categories, CategoryOfType(INCOME));
    }

    /** `setBillType`: a new type drops the selected category. */
    method SetBillType(t: BillType)
      modifies this`billType, this`selectedCategory
      ensures billType == t && selectedCategory == None
    {
      billType := t;
      selectedCategory := None;
    }

    /**
     * `setAmount`: the text is taken when it fits the amount pattern and
     * ignored otherwise. (The pattern already admits the empty text, so the
     * separate emptiness test changes nothing.)
     */
    method SetAmount(s: string)
      modifies this`amount
      ensures MatchesAmount(s) ==> amount == s
      ensures !MatchesAmount(s) ==> amount == old(amount)
      ensures old(AmountFits()) ==> AmountFits()
    {
      EmptyMatches();
      if s == [] || MatchesAmount(s) {
        amount := s;
      }
    }

    method SetCategory(c: Category)
      modifies this`selectedCategory
      ensures selectedCategory == Some(c)
    {
      selectedCategory := Some(c);
    }

    method SetNote(s: string)
      modifies this`note
      ensures note == s
    {
      note := s;
    }

    method SetDate(d: Date)
      modifies this`billDate
      ensures billDate == d
    {
      billDate := d;
    }

    /**
     * `loadBill`: the first bill with the id fills the form in edit mode,
     * with the category of that id among the loaded categories of its type
     * (else the first of them); no such bill, or a failed read, leaves an
     * error. `showAmount` stands for `Double.toString`.
     */
    method LoadBill(billId: string, fetch: Fetch, showAmount: real -> string)
      modifies this`isLoading, this`isEditMode, this`editingBillId, this`billType, this`amount
      modifies this`selectedCategory, this`note, this`billDate, this`error
      ensures !isLoading
      ensures fetch.FetchFailed? ==> error == fetch.message
      ensures fetch.Fetched? && FoundBill(fetch.bills, billId).None? ==> error == Some(NOT_FOUND)
      ensures fetch.Fetched? && FoundBill(fetch.bills, billId).Some? ==>
        var b := FoundBill(fetch.bills, billId).value;
        && isEditMode && editingBillId == billId && billType == b.billType
        && amount == showAmount(b.amount) && note == b.note && billDate == b.billDate
        && selectedCategory == PickCategory(if b.billType == EXPENSE then expenseCategories else incomeCategories, b.categoryId)
        && error == old(error)
      ensures fetch.FetchFailed? || FoundBill(fetch.bills, billId).None? ==>
        && isEditMode == old(isEditMode) && editingBillId == old(editingBillId) && billType == old(billType)
        && amount == old(amount) && selectedCategory == old(selectedCategory)
        && note == old(note) && billDate == old(billDate)
    {
      isLoading := true;
      match fetch
      case FetchFailed(message) =>
        isLoading, error := false, message;
      case Fetched(bills) =>
        match FoundBill(bills, billId)
        case None =>
          isLoading, error := false, Some(NOT_FOUND);
        case Some(b) =>
          isLoading := false;
          Fill(b, if b.billType == EXPENSE then expenseCategories else incomeCategories, showAmount);
    }

    /** The form filled from the stored bill `b`, in edit mode, with the category picked from `categories`. */
    method Fill(b: Bill, categories: seq<Category>, showAmount: real -> string)
      modifies this`isEditMode, this`editingBillId, this`billType, this`amount
      modifies this`selectedCategory, this`note, this`billDate
      ensures isEditMode && editingBillId == b.id && billType == b.billType
      ensures amount == showAmount(b.amount) && note == b.note && billDate == b.billDate
      ensures selectedCategory == PickCategory(categories, b.categoryId)
    {
      selectedCategory := PickCategory(categories, b.categoryId);
      isEditMode, editingBillId, billType := true, b.id, b.billType;
      amount, note, billDate := showAmount(b.amount), b.note, b.billDate;
    }

    /**
     * `saveBill`: a refused form only records the error; an accepted one is
     * written (updated in edit mode, added otherwise), and `failure` is the
     * message of the exception the write throws, if it throws. `succeeded`
     * is whether `onSuccess` runs.
     */
    method SaveBill(now: Date, failure: Option<Option<string>>) returns (request: Option<Request>, succeeded: bool)
      modifies this`isLoading, this`error
      ensures CheckForm(amount, selectedCategory).Rejected? ==>
        request == None && !succeeded && isLoading == old(isLoading)
        && error == Some(CheckForm(amount, selectedCategory).message)
      ensures CheckForm(amount, selectedCategory).Accepted? ==>
        var check := CheckForm(amount, selectedCategory);
        var bill := FormBill(isEditMode, editingBillId, check.value, billType, check.category, note, billDate, now);
        && request == Some(if isEditMode then Update(bill) else Add(bill))
        && bill.amount > 0.0
        && !isLoading
        && succeeded == failure.None?
        && error == (if failure.None? then old(error) else failure.value)
    {
      match CheckForm(amount, selectedCategory)
      case Rejected(message) =>
        error := Some(message);
        request, succeeded := None, false;
      case Accepted(value, c) =>
        isLoading := true;
        var bill := FormBill(isEditMode, editingBillId, value, billType, c, note, billDate, now);
        request := Some(if isEditMode then Update(bill) else Add(bill));
        isLoading := false;
        match failure
        case None =>
          succeeded := true;
        case Some(message) =>
          error := message;
          succeeded := false;
    }

    /** `reset`: an empty form again, keeping the loaded category lists. */
    method Reset(now: Date)
      modifies this
      ensures !isLoading && !isEditMode && editingBillId == "" && billType == EXPENSE
      ensures amount == "" && selectedCategory == None && note == "" && billDate == now
      ensures expenseCategories == old(expenseCategories) && incomeCategories == old(incomeCategories)
      ensures error == None
      ensures AmountFits()
    {
      isLoading, isEditMode, editingBillId, billType := false, false, "", EXPENSE;
      amount, selectedCategory, note, billDate := "", None, "", now;
      error := None;
      EmptyMatches();
    }

    method ClearError()
      modifies this`error
      ensures error == None
    {
      error := None;
    }
  }
}
