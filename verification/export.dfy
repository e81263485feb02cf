/**
 * The CSV backup of the settings screen (SettingsViewModel.kt,
 * `exportData`): a byte-order mark, a header line, and one comma-separated
 * line per bill. The date format and `Double.toString` are parameters.
 */
module Export {

  import opened Wrappers
  import opened Values
  import opened Bills
  import opened Text

  /** The UTF-8 byte-order mark written first, for spreadsheet programs. */
  const BOM: char := '\U{FEFF}'
  const HEADER: string := "日期,类型,分类,金额,备注\n"
  const EXPENSE_LABEL: string := "支出"
  const INCOME_LABEL: string := "收入"

  /** The type column: the expense label for expenses, the income label for anything else. */
  function TypeLabel(t: BillType): (r: string)
    ensures r == EXPENSE_LABEL <==> t == EXPENSE
    ensures r == INCOME_LABEL <==> t == INCOME
    ensures ',' !in r && '\n' !in r
  {
    assert EXPENSE_LABEL[0] != INCOME_LABEL[0];
    match t
    case EXPENSE => EXPENSE_LABEL
    case INCOME => INCOME_LABEL
  }

  /** `s.replace(from, to)` for single characters. */
  function ReplaceChar(s: string, from: char, to: char): (r: string)
    ensures |r| == |s|
    ensures forall i :: 0 <= i < |s| ==> r[i] == if s[i] == from then to else s[i]
  {
    if s == [] then [] else [if s[0] == from then to else s[0]] + ReplaceChar(s[1..], from, to)
  }

  /** The note column: commas become full-width commas, then line breaks become spaces. */
  function EscapeNote(note: string): string
  {
    ReplaceChar(ReplaceChar(note, ',', '，'), '\n', ' ')
  }

  /** The escaped note has the note's length, no comma and no line break, and every other character in place. */
  lemma EscapeNoteSafe(note: string)
    ensures |EscapeNote(note)| == |note|
    ensures ',' !in EscapeNote(note) && '\n' !in EscapeNote(note)
    ensures forall i :: 0 <= i < |note| && note[i] != ',' && note[i] != '\n' ==> EscapeNote(note)[i] == note[i]
  {
    var r := EscapeNote(note);
    assert forall i :: 0 <= i < |r| ==> r[i] != ',' && r[i] != '\n';
  }

  /** Escaping a note that holds neither a comma nor a line break leaves it as it is. */
  lemma EscapePlainNote(note: string)
    requires ',' !in note && '\n' !in note
    ensures EscapeNote(note) == note
  {
    EscapeNoteSafe(note);
  }

  /** The five columns of a bill's line. */
  function Fields(b: Bill, formatDate: Date -> string, showAmount: real -> string): (r: seq<string>)
    ensures |r| == 5
  {
    [formatDate(b.billDate), TypeLabel(b.billType), b.categoryName, showAmount(b.amount), EscapeNote(b.note)]
  }

  /** A bill's line: its columns joined by commas, and a line break. */
  function Row(b: Bill, formatDate: Date -> string, showAmount: real -> string): string
  {
    Join(Fields(b, formatDate, showAmount), ',') + "\n"
  }

  /** The lines of `bills`, in their order. */
  function Rows(bills: seq<Bill>, formatDate: Date -> string, showAmount: real -> string): string
  {
    if bills == [] then "" else Row(bills[0], formatDate, showAmount) + Rows(bills[1..], formatDate, showAmount)
  }

  /** Appending a bill appends its line. */
  lemma {:induction false} RowsAppend(bills: seq<Bill>, b: Bill, formatDate: Date -> string, showAmount: real -> string)
    ensures Rows(bills + [b], formatDate, showAmount) == Rows(bills, formatDate, showAmount) + Row(b, formatDate, showAmount)
  {
    if bills != [] {
      assert (bills + [b])[1..] == bills[1..] + [b];
      RowsAppend(bills[1..], b, formatDate, showAmount);
    } else {
      assert bills + [b] == [b];
    }
  }

  /** The lines of the first `i + 1` bills are those of the first `i` and the line of bill `i`. */
  lemma RowsStep(bills: seq<Bill>, i: nat, formatDate: Date -> string, showAmount: real -> string)
    requires i < |bills|
    ensures Rows(bills[..i + 1], formatDate, showAmount) == Rows(bills[..i], formatDate, showAmount) + Row(bills[i], formatDate, showAmount)
  {
    assert bills[..i + 1] == bills[..i] + [bills[i]];
    RowsAppend(bills[..i], bills[i], formatDate, showAmount);
  }

  /**
   * `exportData`'s text: nothing for an empty bill list (the export stops
   * there); otherwise the mark, the header and every bill's line in order.
   */
  method BuildCsv(bills: seq<Bill>, formatDate: Date -> string, showAmount: real -> string) returns (csv: Option<string>)
    ensures bills == [] <==> csv == None
    ensures csv.Some? ==> csv.value == [BOM] + HEADER + Rows(bills, formatDate, showAmount)
  {
    if bills == [] {
      return None;
    }
    var head := [BOM] + HEADER;
    var sb := head;
    var i := 0;
    while i < |bills|
      invariant 0 <= i <= |bills|
      invariant sb == head + Rows(bills[..i], formatDate, showAmount)
    {
      RowsStep(bills, i, formatDate, showAmount);
      sb := sb + Row(bills[i], formatDate, showAmount);
      i := i + 1;
    }
    assert bills[..i] == bills;
    return Some(sb);
  }

  /**
   * A line splits back at its commas into the bill's five columns, when
   * the date text, the category name and the amount text hold no comma:
   * the note cannot break the columns, since it is escaped.
   */
  lemma RowSplitsBack(b: Bill, formatDate: Date -> string, showAmount: real -> string)
    requires ',' !in formatDate(b.billDate) && ',' !in b.categoryName && ',' !in showAmount(b.amount)
    ensures Split(Row(b, formatDate, showAmount)[..|Row(b, formatDate, showAmount)| - 1], ',') == Fields(b, formatDate, showAmount)
  {
    var fields := Fields(b, formatDate, showAmount);
    EscapeNoteSafe(b.note);
    var line := Join(fields, ',');
    assert Row(b, formatDate, showAmount)[..|Row(b, formatDate, showAmount)| - 1] == line;
    SplitJoin(fields, ',');
  }

  /** Joining five fields whose third is `x` `,` `y` is joining the six fields with `x` and `y` apart. */
  lemma JoinSplitsThird(d: string, t: string, x: string, y: string, a: string, n: string)
    ensures Join([d, t, x + [','] + y, a, n], ',') == Join([d, t, x, y, a, n], ',')
  {
    var five := [d, t, x + [','] + y, a, n];
    var six := [d, t, x, y, a, n];
    assert five[1..] == [t, x + [','] + y, a, n] && five[1..][1..] == [x + [','] + y, a, n];
    assert five[1..][1..][1..] == [a, n] && five[1..][1..][1..][1..] == [n];
    assert six[1..] == [t, x, y, a, n] && six[1..][1..] == [x, y, a, n] && six[1..][1..][1..] == [y, a, n];
    assert six[1..][1..][1..][1..] == [a, n] && six[1..][1..][1..][1..][1..] == [n];
    assert Join([a, n], ',') == a + [','] + n;
    assert Join([x + [','] + y, a, n], ',') == x + [','] + y + [','] + Join([a, n], ',');
    assert Join([x, y, a, n], ',') == x + [','] + (y + [','] + Join([a, n], ','));
  }

  /**
   * The category name is written unescaped: a name with one comma splits
   * its line into six columns, and every column after it moves one place.
   */
  lemma CommaInCategoryName(b: Bill, formatDate: Date -> string, showAmount: real -> string, x: string, y: string)
    requires b.categoryName == x + [','] + y
    requires ',' !in formatDate(b.billDate) && ',' !in x && ',' !in y && ',' !in showAmount(b.amount)
    ensures var cells := Split(Row(b, formatDate, showAmount)[..|Row(b, formatDate, showAmount)| - 1], ',');
      |cells| == 6 && cells[2] == x && cells[3] == y && cells[4] == showAmount(b.amount)
  {
    var d, t, a, n := formatDate(b.billDate), TypeLabel(b.billType), showAmount(b.amount), EscapeNote(b.note);
    EscapeNoteSafe(b.note);
    JoinSplitsThird(d, t, x, y, a, n);
    var line := Join([d, t, x, y, a, n], ',');
    assert Row(b, formatDate, showAmount)[..|Row(b, formatDate, showAmount)| - 1] == line;
    var six := [d, t, x, y, a, n];
    assert forall i :: 0 <= i < |six| ==> ',' !in six[i];
    SplitJoin(six, ',');
  }
}
