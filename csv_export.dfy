/**
 * The CSV export of a transaction list: a byte-order mark, a header line, then one line per
 * transaction in list order. Fields are separated by commas as in section 2 of RFC 4180, but only
 * the date and the description are enclosed in double quotes and quotes inside a field are not
 * doubled.
 */
module CsvExport {
  import opened Wrappers
  import opened Entities

  /** A row of the transaction list; `kind` is the type as text. */
  datatype TransactionRow = TransactionRow(
    transactionDate: Date,
    kind: string,
    categoryName: string,
    amount: int,
    description: Option<string>)

  /** U+FEFF, written first so that spreadsheet programs read the text as UTF-8. */
  const Bom: string := "\U{FEFF}"
  const Header: string := "날짜,유형,카테고리,금액,메모\n"

  predicate IsDigit(c: char)
  {
    '0' <= c <= '9'
  }

  /** A character of a printed number or date: a digit, a sign or a hyphen. */
  predicate NumberChar(c: char)
  {
    IsDigit(c) || c == '-' || c == '+'
  }

  /** Decimal digits of a natural number, most significant first, without leading zeros. */
  function NatText(n: nat): (r: string)
    ensures |r| >= 1
  {
    if n < 10 then [(n as int + '0' as int) as char]
    else NatText(n / 10) + [((n % 10) as int + '0' as int) as char]
  }

  /** Decimal text of an integer with a leading minus sign when negative (`Long.toString`). */
  function IntText(n: int): string
  {
    if n < 0 then "-" + NatText(-n) else NatText(n)
  }

  /**
   * The year as ISO-8601 prints it: at least four digits, a minus sign for years before year 0, and
   * a plus sign for years after 9999.
   */
  function YearText(y: int): string
  {
    if -1000 < y < 0 then "-" + NatText(10000 - y)[1..]
    else if 0 <= y < 1000 then NatText(y + 10000)[1..]
    else if y > 9999 then "+" + IntText(y)
    else IntText(y)
  }

  /** A month or day value: a zero is put in front of values below ten. */
  function TwoDigitText(n: int): string
  {
    (if n < 10 then "0" else "") + IntText(n)
  }

  /** `LocalDate.toString`: year, month and day separated by hyphens. */
  function DateText(d: Date): string
  {
    YearText(d.year) + "-" + TwoDigitText(d.month) + "-" + TwoDigitText(d.day)
  }

  /** The type column: income for exactly the text "INCOME", expense for anything else. */
  function TypeLabel(kind: string): (r: string)
    ensures r == "수입" <==> kind == "INCOME"
    ensures r == "지출" <==> kind != "INCOME"
  {
    if kind == "INCOME" then "수입" else "지출"
  }

  /** The field enclosed in double quotes, unescaped. */
  function Quoted(s: string): string
  {
    "\"" + s + "\""
  }

  /** One line: quoted date, type label, category name, amount, quoted description (empty when absent). */
  function CsvLine(t: TransactionRow): string
  {
    Quoted(DateText(t.transactionDate)) + "," + TypeLabel(t.kind) + "," + t.categoryName + ","
    + IntText(t.amount) + "," + Quoted(if t.description.Some? then t.description.value else "") + "\n"
  }

  /** The lines of `list`, in order. */
  function CsvBody(list: seq<TransactionRow>): string
  {
    if list == [] then "" else CsvBody(list[..|list| - 1]) + CsvLine(list[|list| - 1])
  }

  /** The whole export text before encoding. */
  function CsvText(list: seq<TransactionRow>): string
  {
    Bom + Header + CsvBody(list)
  }

  /** exportCsv's string building: the BOM and header, then one appended line per row. */
  method ExportCsv(list: seq<TransactionRow>) returns (csv: string)
    ensures csv == CsvText(list)
  {
    csv := Bom;
    csv := csv + Header;
    var i := 0;
    while i < |list|
      invariant 0 <= i <= |list|
      invariant csv == Bom + Header + CsvBody(list[..i])
    {
      CsvBodyStep(list, i);
      ConcatAssoc(Bom + Header, CsvBody(list[..i]), CsvLine(list[i]));
      csv := csv + CsvLine(list[i]);
      i := i + 1;
    }
    assert list[..i] == list;
  }

  /** Regrouping a concatenation; the loop above needs it stated separately to stay within its budget. */
  lemma ConcatAssoc(a: string, b: string, c: string)
    ensures (a + b) + c == a + (b + c)
  {
  }

  lemma CsvBodyStep(list: seq<TransactionRow>, i: nat)
    requires i < |list|
    ensures CsvBody(list[..i + 1]) == CsvBody(list[..i]) + CsvLine(list[i])
  {
    assert list[..i + 1][..i] == list[..i];
  }

  // ---------------------------------------------------------------------------------------------
  // Properties

  /** Every character of a natural number's text is a digit, and one digit is printed exactly below ten. */
  lemma {:induction false} NatTextDigits(n: nat)
    ensures forall c :: c in NatText(n) ==> IsDigit(c)
    ensures n < 10 <==> |NatText(n)| == 1
  {
    if n >= 10 {
      NatTextDigits(n / 10);
    }
  }

  /** An integer prints as digits, with a leading minus sign exactly when it is negative. */
  lemma IntTextShape(n: int)
    ensures |IntText(n)| >= 1
    ensures IntText(n)[0] == '-' <==> n < 0
    ensures forall c :: c in IntText(n)[(if n < 0 then 1 else 0)..] ==> IsDigit(c)
  {
    if n < 0 {
      NatTextDigits(-n);
      assert IntText(n)[1..] == NatText(-n);
      assert NatText(-n)[0] in NatText(-n);
    } else {
      NatTextDigits(n);
      assert IntText(n)[0] in NatText(n);
    }
  }

  /** A printed date holds only digits, hyphens and a plus sign. */
  lemma DateTextChars(d: Date)
    ensures forall c :: c in DateText(d) ==> NumberChar(c)
  {
    var y := d.year;
    if -1000 < y < 0 {
      NatTextDigits(10000 - y);
      var digits := NatText(10000 - y);
      assert forall c :: c in digits[1..] ==> c in digits;
    } else if 0 <= y < 1000 {
      NatTextDigits(y + 10000);
      var digits := NatText(y + 10000);
      assert forall c :: c in digits[1..] ==> c in digits;
    }
    IntTextChars(y);
    IntTextChars(d.month);
    IntTextChars(d.day);
  }

  /** A printed integer holds only digits and a minus sign. */
  lemma IntTextChars(n: int)
    ensures forall c :: c in IntText(n) ==> NumberChar(c)
  {
    if n < 0 {
      NatTextDigits(-n);
    } else {
      NatTextDigits(n);
    }
  }

  /** Number of occurrences of `c` in `s`. */
  function Occurrences(s: string, c: char): nat
  {
    if s == [] then 0 else (if s[0] == c then 1 else 0) + Occurrences(s[1..], c)
  }

  /** Counting distributes over concatenation. */
  lemma {:induction false} OccurrencesAppend(a: string, b: string, c: char)
    ensures Occurrences(a + b, c) == Occurrences(a, c) + Occurrences(b, c)
  {
    if a != [] {
      assert (a + b)[1..] == a[1..] + b;
      OccurrencesAppend(a[1..], b, c);
    } else {
      assert a + b == b;
    }
  }

  /** A character that does not occur is counted zero times. */
  lemma {:induction false} OccurrencesAbsent(s: string, c: char)
    requires c !in s
    ensures Occurrences(s, c) == 0
  {
    if s != [] {
      assert forall x :: x in s[1..] ==> x in s;
      OccurrencesAbsent(s[1..], c);
    }
  }

  /** A row whose category name and description contain no line break gives exactly one line break. */
  lemma CsvLineHasOneNewline(t: TransactionRow)
    requires '\n' !in t.categoryName
    requires t.description.Some? ==> '\n' !in t.description.value
    ensures Occurrences(CsvLine(t), '\n') == 1
  {
    var date := DateText(t.transactionDate);
    var amount := IntText(t.amount);
    var memo := if t.description.Some? then t.description.value else "";
    DateTextChars(t.transactionDate);
    IntTextChars(t.amount);
    assert '\n' !in date && '\n' !in amount && '\n' !in memo;
    var typeText := TypeLabel(t.kind);
    assert '\n' !in typeText;
    var fields := Quoted(date) + "," + typeText + "," + t.categoryName + "," + amount + "," + Quoted(memo);
    assert '\n' !in fields;
    assert CsvLine(t) == fields + "\n";
    OccurrencesAbsent(fields, '\n');
    OccurrencesAppend(fields, "\n", '\n');
  }

  /** The byte-order mark and the header hold one line break, the header's own. */
  lemma PreambleHasOneNewline()
    ensures Occurrences(Bom + Header, '\n') == 1
  {
    var titles := Bom + "날짜,유형,카테고리,금액,메모";
    assert Bom + Header == titles + "\n";
    assert '\n' !in titles;
    OccurrencesAbsent(titles, '\n');
    OccurrencesAppend(titles, "\n", '\n');
  }

  /** Rows whose category name and description hold no line break give one line break each. */
  lemma {:induction false} CsvBodyNewlines(list: seq<TransactionRow>)
    requires forall t :: t in list ==> '\n' !in t.categoryName
    requires forall t :: t in list ==> t.description.Some? ==> '\n' !in t.description.value
    ensures Occurrences(CsvBody(list), '\n') == |list|
  {
    if list != [] {
      var init := list[..|list| - 1];
      assert forall t :: t in init ==> t in list;
      CsvBodyNewlines(init);
      CsvLineHasOneNewline(list[|list| - 1]);
      OccurrencesAppend(CsvBody(init), CsvLine(list[|list| - 1]), '\n');
    }
  }

  /**
   * When no category name or description holds a line break, the export has exactly one line per
   * row plus the header line.
   */
  lemma CsvLineCount(list: seq<TransactionRow>)
    requires forall t :: t in list ==> '\n' !in t.categoryName
    requires forall t :: t in list ==> t.description.Some? ==> '\n' !in t.description.value
    ensures Occurrences(CsvText(list), '\n') == |list| + 1
  {
    PreambleHasOneNewline();
    CsvBodyNewlines(list);
    OccurrencesAppend(Bom + Header, CsvBody(list), '\n');
  }

  /** Appending a row to the list appends exactly its line to the export. */
  lemma CsvTextAppend(list: seq<TransactionRow>, t: TransactionRow)
    ensures CsvText(list + [t]) == CsvText(list) + CsvLine(t)
  {
    assert (list + [t])[..|list|] == list;
  }

  /** The description is copied into its field verbatim: a quote inside it is not doubled. */
  lemma DescriptionNotEscaped()
    ensures Occurrences(Quoted("a\"b"), '"') == 3
  {
  }
}
