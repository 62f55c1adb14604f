/**
 * The read side of transactions: the monthly income/expense summary built from per-category rows,
 * the default date window of a transaction search, and the CSV export text.
 */
module TransactionQuery {
  import opened Wrappers
  import opened Entities

  // ---------------------------------------------------------------------------------------------
  // Monthly summary

  /** One row of the per-category monthly totals; `kind` is the type as text, as the query returns it. */
  datatype RawSummary = RawSummary(categoryName: string, kind: string, amount: int)

  /**
   * A category's share of its total, as a percentage. Only the zero-total guard is modelled: `Zero`
   * is the literal 0, `Share(part, total)` stands for part / total * 100 computed in floating point.
   */
  datatype Percentage = Zero | Share(part: int, total: int)

  datatype CategorySummary = CategorySummary(categoryName: string, amount: int, percentage: Percentage)

  datatype MonthlySummary = MonthlySummary(
    year: int,
    month: int,
    totalIncome: int,
    totalExpense: int,
    balance: int,
    incomeSummary: seq<CategorySummary>,
    expenseSummary: seq<CategorySummary>)

  /** The rows whose type text is exactly `kind`, in input order. */
  function OfType(rows: seq<RawSummary>, kind: string): (r: seq<RawSummary>)
    ensures |r| <= |rows|
    ensures forall x :: x in r <==> x in rows && x.kind == kind
  {
    if rows == [] then []
    else if rows[0].kind == kind then [rows[0]] + OfType(rows[1..], kind)
    else OfType(rows[1..], kind)
  }

  /** The rows whose type text is neither "INCOME" nor "EXPENSE". */
  function OtherTypes(rows: seq<RawSummary>): (r: seq<RawSummary>)
    ensures forall x :: x in r <==> x in rows && x.kind != "INCOME" && x.kind != "EXPENSE"
  {
    if rows == [] then []
    else if rows[0].kind != "INCOME" && rows[0].kind != "EXPENSE" then [rows[0]] + OtherTypes(rows[1..])
    else OtherTypes(rows[1..])
  }

  function SumAmounts(rows: seq<RawSummary>): int
  {
    if rows == [] then 0 else rows[0].amount + SumAmounts(rows[1..])
  }

  /** One summary entry per row, in order, with name and amount copied and the zero-total guard applied. */
  function Summaries(rows: seq<RawSummary>, total: int): (r: seq<CategorySummary>)
    ensures |r| == |rows|
    ensures forall i :: 0 <= i < |rows| ==>
      && r[i].categoryName == rows[i].categoryName
      && r[i].amount == rows[i].amount
      && (r[i].percentage == Zero <==> total == 0)
      && (total != 0 ==> r[i].percentage == Share(rows[i].amount, total))
  {
    if rows == [] then []
    else
      [CategorySummary(rows[0].categoryName, rows[0].amount, if total == 0 then Zero else Share(rows[0].amount, total))]
      + Summaries(rows[1..], total)
  }

  /** getMonthlySummary over the rows the monthly query returned. */
  function GetMonthlySummary(rows: seq<RawSummary>, year: int, month: int): (r: MonthlySummary)
    ensures r.year == year && r.month == month
    ensures r.balance == r.totalIncome - r.totalExpense
    ensures r.totalIncome == SumAmounts(OfType(rows, "INCOME"))
    ensures r.totalExpense == SumAmounts(OfType(rows, "EXPENSE"))
    ensures r.incomeSummary == Summaries(OfType(rows, "INCOME"), r.totalIncome)
    ensures r.expenseSummary == Summaries(OfType(rows, "EXPENSE"), r.totalExpense)
    ensures r.totalIncome == 0 ==> forall e :: e in r.incomeSummary ==> e.percentage == Zero
    ensures r.totalExpense == 0 ==> forall e :: e in r.expenseSummary ==> e.percentage == Zero
  {
    var incomeRaw := OfType(rows, "INCOME");
    var expenseRaw := OfType(rows, "EXPENSE");
    var totalIncome := SumAmounts(incomeRaw);
    var totalExpense := SumAmounts(expenseRaw);
    MonthlySummary(year, month, totalIncome, totalExpense, totalIncome - totalExpense,
                   Summaries(incomeRaw, totalIncome), Summaries(expenseRaw, totalExpense))
  }

  /** Selecting by type keeps every row of that type as many times as it occurs, and no other row. */
  lemma {:induction false} OfTypeKeepsMultiplicity(rows: seq<RawSummary>, kind: string)
    ensures forall x :: multiset(OfType(rows, kind))[x] == if x.kind == kind then multiset(rows)[x] else 0
  {
    if rows != [] {
      OfTypeKeepsMultiplicity(rows[1..], kind);
      assert rows == [rows[0]] + rows[1..];
      assert multiset(rows) == multiset{rows[0]} + multiset(rows[1..]);
    }
  }

  /** The other-type rows are kept with their multiplicity, and no income or expense row is. */
  lemma {:induction false} OtherTypesKeepsMultiplicity(rows: seq<RawSummary>)
    ensures forall x :: multiset(OtherTypes(rows))[x] == (if x.kind != "INCOME" && x.kind != "EXPENSE" then multiset(rows)[x] else 0)
  {
    if rows != [] {
      OtherTypesKeepsMultiplicity(rows[1..]);
      assert rows == [rows[0]] + rows[1..];
      assert multiset(rows) == multiset{rows[0]} + multiset(rows[1..]);
    }
  }

  /** Selecting by type commutes with concatenation, so the selected rows keep their input order. */
  lemma {:induction false} OfTypeAppend(a: seq<RawSummary>, b: seq<RawSummary>, kind: string)
    ensures OfType(a + b, kind) == OfType(a, kind) + OfType(b, kind)
  {
    if a != [] {
      assert (a + b)[1..] == a[1..] + b;
      OfTypeAppend(a[1..], b, kind);
    } else {
      assert a + b == b;
    }
  }

  /** The income and expense totals together with the other-type rows account for every row's amount. */
  lemma {:induction false} TotalsPartition(rows: seq<RawSummary>)
    ensures SumAmounts(rows)
         == SumAmounts(OfType(rows, "INCOME")) + SumAmounts(OfType(rows, "EXPENSE")) + SumAmounts(OtherTypes(rows))
  {
    if rows != [] {
      TotalsPartition(rows[1..]);
    }
  }

  /** The summary's balance is the signed sum of the rows when every row is an income or an expense. */
  lemma {:induction false} BalanceIsSignedSum(rows: seq<RawSummary>, year: int, month: int)
    requires forall x :: x in rows ==> x.kind == "INCOME" || x.kind == "EXPENSE"
    ensures GetMonthlySummary(rows, year, month).balance == SignedSum(rows)
  {
    if rows != [] {
      assert forall x :: x in rows[1..] ==> x in rows;
      BalanceIsSignedSum(rows[1..], year, month);
    }
  }

  /** Incomes counted up, everything else counted down. */
  function SignedSum(rows: seq<RawSummary>): int
  {
    if rows == [] then 0
    else (if rows[0].kind == "INCOME" then rows[0].amount else -rows[0].amount) + SignedSum(rows[1..])
  }

  // ---------------------------------------------------------------------------------------------
  // Search window

  /** The mutable search request; only the two dates take part in the defaulting. */
  class TransactionSearchRequest {
    var startDate: Option<Date>
    var endDate: Option<Date>

    constructor (startDate: Option<Date>, endDate: Option<Date>)
      ensures this.startDate == startDate && this.endDate == endDate
    {
      this.startDate := startDate;
      this.endDate := endDate;
    }
  }

  /** Day 1 of the date's month. */
  function FirstDayOfMonth(d: Date): (r: Date)
    ensures r.year == d.year && r.month == d.month && r.day == 1
  {
    d.(day := 1)
  }

  /** Calendar order on dates. */
  predicate DateLe(a: Date, b: Date)
  {
    a.year < b.year || (a.year == b.year && (a.month < b.month || (a.month == b.month && a.day <= b.day)))
  }

  /**
   * The defaulting getTransactions does before querying: a missing start becomes day 1 of today's
   * month and a missing end becomes today; given dates are kept. `today` is the clock's reading.
   */
  method FillDefaultDates(req: TransactionSearchRequest, today: Date)
    modifies req
    ensures req.startDate == (if old(req.startDate).None? then Some(FirstDayOfMonth(today)) else old(req.startDate))
    ensures req.endDate == (if old(req.endDate).None? then Some(today) else old(req.endDate))
  {
    if req.startDate.None? {
      req.startDate := Some(FirstDayOfMonth(today));
    }
    if req.endDate.None? {
      req.endDate := Some(today);
    }
  }

  /** When both dates are defaulted the window runs from the first of the month up to today. */
  lemma DefaultWindowOrdered(today: Date)
    requires today.day >= 1
    ensures DateLe(FirstDayOfMonth(today), today)
  {
  }
}
