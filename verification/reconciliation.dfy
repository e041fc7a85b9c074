/** End-of-day cash reconciliation: expense totals, the counted-cash difference,
    the cross-business daily summary, the cash ledger's daily in/out totals, and
    the expense list edited in the report form. */
module Reconciliation {
  import opened Common
  import opened Records

  function ExpenseAmount(e: Expense): int { e.amount }

  /** `getExpTotal(exps)`: the sum of the expense amounts, a missing list counting as empty. */
  function ExpTotal(exps: Option<seq<Expense>>): (r: int)
    ensures exps.None? ==> r == 0
    ensures exps.Some? && (forall e :: e in exps.value ==> e.amount >= 0) ==> r >= 0
  {
    match exps
    case None => 0
    case Some(es) =>
      SumOfNonNegative(es, ExpenseAmount);
      SumOf(es, ExpenseAmount)
  }

  /** The expense total of two lists back to back is the sum of their totals. */
  lemma ExpTotalAppend(a: seq<Expense>, b: seq<Expense>)
    ensures ExpTotal(Some(a + b)) == ExpTotal(Some(a)) + ExpTotal(Some(b))
  {
    SumOfAppend(a, b, ExpenseAmount);
  }

  /** `calcCashDiff(r)`: counted cash minus the cash that should be in the till,
      which is the declared cash takings less the expenses paid out of them. */
  function CashDiff(r: DailyReport): (d: int)
    ensures d < 0 <==> r.actualCash < r.cash - ExpTotal(r.expenses)
    ensures d == 0 <==> r.actualCash == r.cash - ExpTotal(r.expenses)
    ensures d > 0 <==> r.actualCash > r.cash - ExpTotal(r.expenses)
  {
    r.actualCash - (r.cash - ExpTotal(r.expenses))
  }

  /** Cash takings 1000 with expenses 30 and 20 leave 950 expected in the till:
      counting 950 balances exactly, counting 850 is a shortfall of 100. */
  lemma CashDiffExample()
    ensures
      var r := DailyReport(1, 1, 1, "2025-01-01", 0, 1000, 0, 950, "",
                           Some([Expense(1, "bread", 30), Expense(2, "water", 20)]), "", 0);
      CashDiff(r) == 0 && CashDiff(r.(actualCash := 850)) == -100
  {
    var e1 := Expense(1, "bread", 30);
    var e2 := Expense(2, "water", 20);
    ExpTotalAppend([e1], [e2]);
    assert [e1] + [e2] == [e1, e2];
    SumOfSingleton(e1, ExpenseAmount);
    SumOfSingleton(e2, ExpenseAmount);
  }

  // ----- the expense list of the report form -----

  /** `handleAddExpense`: appends one expense under a fresh temporary id, unless
      the description or the amount field is empty (`amount` is `None` for an
      empty field); the list is then returned unchanged. */
  function AddExpense(list: seq<Expense>, freshId: Id, description: string, amount: Option<Amount>): (r: seq<Expense>)
    ensures description == "" || amount.None? ==> r == list
    ensures description != "" && amount.Some? ==>
              |r| == |list| + 1 && r[..|list|] == list && r[|list|] == Expense(freshId, description, amount.value)
  {
    if description == "" || amount.None? then list
    else list + [Expense(freshId, description, amount.value)]
  }

  function ExpenseIdIsNot(id: Id): Expense -> bool { (e: Expense) => e.id != id }
  function ExpenseIdIs(id: Id): Expense -> bool { (e: Expense) => e.id == id }

  /** `handleRemoveExpense(id)`: drops every expense carrying that id and keeps the rest. */
  function RemoveExpense(list: seq<Expense>, id: Id): (r: seq<Expense>)
    ensures forall e :: e in r <==> e in list && e.id != id
    ensures |r| <= |list|
    ensures Subsequence(r, list)
  {
    Filter(list, ExpenseIdIsNot(id))
  }

  /** An accepted expense raises the running total (`getTotalExpenses`) by its amount. */
  lemma AddExpenseTotal(list: seq<Expense>, freshId: Id, description: string, amount: Option<Amount>)
    ensures ExpTotal(Some(AddExpense(list, freshId, description, amount)))
         == ExpTotal(Some(list)) + (if description != "" && amount.Some? then amount.value else 0)
  {
    if description != "" && amount.Some? {
      var e := Expense(freshId, description, amount.value);
      ExpTotalAppend(list, [e]);
      SumOfSingleton(e, ExpenseAmount);
    }
  }

  /** Removing an id lowers the total by exactly the amounts that carried it. */
  lemma RemoveExpenseTotal(list: seq<Expense>, id: Id)
    ensures ExpTotal(Some(RemoveExpense(list, id)))
         == ExpTotal(Some(list)) - SumOf(Filter(list, ExpenseIdIs(id)), ExpenseAmount)
  {
    SumOfPartition(list, ExpenseIdIsNot(id), ExpenseIdIs(id), ExpenseAmount);
  }

  /** Removing the expense just added under a fresh id restores the list. */
  lemma RemoveUndoesAdd(list: seq<Expense>, freshId: Id, description: string, amount: Option<Amount>)
    requires forall e :: e in list ==> e.id != freshId
    ensures RemoveExpense(AddExpense(list, freshId, description, amount), freshId) == list
  {
    FilterKeepsAll(list, ExpenseIdIsNot(freshId));
    if description != "" && amount.Some? {
      var e := Expense(freshId, description, amount.value);
      FilterAppend(list, [e], ExpenseIdIsNot(freshId));
      FilterSingleton(e, ExpenseIdIsNot(freshId));
    }
  }

  /** Recording one more expense on a report raises its cash difference by that
      amount: the expense explains that much of a shortfall. */
  lemma CashDiffAddExpense(r: DailyReport, list: seq<Expense>, freshId: Id, description: string, amount: Amount)
    requires r.expenses == Some(list)
    requires description != ""
    ensures CashDiff(r.(expenses := Some(AddExpense(list, freshId, description, Some(amount)))))
         == CashDiff(r) + amount
  {
    AddExpenseTotal(list, freshId, description, Some(amount));
  }

  // ----- the daily summary across businesses -----

  /** One business's line in the summary. */
  datatype BusinessLine = BusinessLine(
    name: string,
    creditCard: int,
    cash: int,
    mealCards: int,
    expenses: int,
    total: int,
    net: int)

  /** The object `getDailySummary(date)` returns. */
  datatype DaySummary = DaySummary(
    totalCreditCard: int,
    totalCash: int,
    totalMealCards: int,
    totalExpenses: int,
    businessSummary: seq<BusinessLine>,
    total: int,
    netTotal: int)

  function LineCreditCard(l: BusinessLine): int { l.creditCard }
  function LineCash(l: BusinessLine): int { l.cash }
  function LineMealCards(l: BusinessLine): int { l.mealCards }
  function LineExpenses(l: BusinessLine): int { l.expenses }
  function LineNet(l: BusinessLine): int { l.net }

  predicate ConsistentLine(l: BusinessLine)
  {
    l.total == l.creditCard + l.cash + l.mealCards && l.net == l.total - l.expenses
  }

  function OnDate(date: Date): DailyReport -> bool { (r: DailyReport) => r.date == date }

  /** `reports.find(r => r.business_id === bid)`: the first report of the business, if any. */
  function FindReport(reports: seq<DailyReport>, bid: Id): (r: Option<DailyReport>)
    ensures r.None? <==> forall x :: x in reports ==> x.businessId != bid
    ensures r.Some? ==> r.value in reports && r.value.businessId == bid
    ensures r.Some? ==> exists i :: 0 <= i < |reports| && reports[i] == r.value
                          && forall j :: 0 <= j < i ==> reports[j].businessId != bid
    decreases |reports|
  {
    if |reports| == 0 then None
    else if reports[0].businessId == bid then Some(reports[0])
    else
      var r := FindReport(reports[1..], bid);
      assert reports == [reports[0]] + reports[1..];
      assert r.Some? ==> exists i :: 0 <= i < |reports| && reports[i] == r.value
                          && forall j :: 0 <= j < i ==> reports[j].businessId != bid by {
        if r.Some? {
          var i :| 0 <= i < |reports[1..]| && reports[1..][i] == r.value
                   && forall j :: 0 <= j < i ==> reports[1..][j].businessId != bid;
          assert reports[i + 1] == r.value;
          forall j | 0 <= j < i + 1
            ensures reports[j].businessId != bid
          {
            if j > 0 {
              assert reports[j] == reports[1..][j - 1];
            }
          }
        }
      }
      r
  }

  /** The line a business with report `r` contributes. */
  function LineFor(b: Business, r: DailyReport): (l: BusinessLine)
    ensures l.name == b.name
    ensures l.creditCard == r.creditCard && l.cash == r.cash && l.mealCards == r.mealCards
    ensures l.expenses == ExpTotal(r.expenses)
    ensures ConsistentLine(l)
  {
    var e := ExpTotal(r.expenses);
    BusinessLine(b.name, r.creditCard, r.cash, r.mealCards, e,
                 r.creditCard + r.cash + r.mealCards,
                 r.creditCard + r.cash + r.mealCards - e)
  }

  /** The running totals of the page's `businesses.forEach` loop. */
  datatype Running = Running(creditCard: int, cash: int, mealCards: int, expenses: int, lines: seq<BusinessLine>)

  lemma LinesAppend(lines: seq<BusinessLine>, l: BusinessLine)
    ensures SumOf(lines + [l], LineCreditCard) == SumOf(lines, LineCreditCard) + l.creditCard
    ensures SumOf(lines + [l], LineCash) == SumOf(lines, LineCash) + l.cash
    ensures SumOf(lines + [l], LineMealCards) == SumOf(lines, LineMealCards) + l.mealCards
    ensures SumOf(lines + [l], LineExpenses) == SumOf(lines, LineExpenses) + l.expenses
    ensures SumOf(lines + [l], LineNet) == SumOf(lines, LineNet) + l.net
  {
    assert (lines + [l])[..|lines|] == lines;
  }

  /** The running totals equal the column sums of the lines emitted so far,
      and every line is internally consistent. */
  predicate RunningAgrees(a: Running)
  {
    && (forall l :: l in a.lines ==> ConsistentLine(l))
    && a.creditCard == SumOf(a.lines, LineCreditCard)
    && a.cash == SumOf(a.lines, LineCash)
    && a.mealCards == SumOf(a.lines, LineMealCards)
    && a.expenses == SumOf(a.lines, LineExpenses)
    && SumOf(a.lines, LineNet) == a.creditCard + a.cash + a.mealCards - a.expenses
  }

  /** The loop body for a business that has a report: add its figures, emit its line. */
  function AddLine(a: Running, l: BusinessLine): (a': Running)
    requires RunningAgrees(a) && ConsistentLine(l)
    ensures RunningAgrees(a') && a'.lines == a.lines + [l]
  {
    LinesAppend(a.lines, l);
    Running(a.creditCard + l.creditCard, a.cash + l.cash, a.mealCards + l.mealCards,
            a.expenses + l.expenses, a.lines + [l])
  }

  /** One turn of the loop: a business with a report on the day adds its line;
      one without is skipped. */
  function Visit(a: Running, b: Business, dayReports: seq<DailyReport>): (a': Running)
    requires RunningAgrees(a)
    ensures RunningAgrees(a')
    ensures FindReport(dayReports, b.id).None? ==> a' == a
    ensures FindReport(dayReports, b.id).Some? ==>
              a'.lines == a.lines + [LineFor(b, FindReport(dayReports, b.id).value)]
  {
    match FindReport(dayReports, b.id)
    case None => a
    case Some(r) => AddLine(a, LineFor(b, r))
  }

  /** The loop over `bs`, each business looked up among the day's reports. */
  function Accumulate(bs: seq<Business>, dayReports: seq<DailyReport>): (a: Running)
    ensures |a.lines| <= |bs|
    ensures RunningAgrees(a)
    decreases |bs|
  {
    if |bs| == 0 then Running(0, 0, 0, 0, [])
    else Visit(Accumulate(bs[..|bs| - 1], dayReports), bs[|bs| - 1], dayReports)
  }

  /** `getDailySummary(date)`. Every total is the column sum of the per-business
      lines, every line's net is its total less its expenses, and the grand net
      is the grand total less all expenses. */
  function DailySummary(businesses: seq<Business>, reports: seq<DailyReport>, date: Date): (s: DaySummary)
    ensures s.total == s.totalCreditCard + s.totalCash + s.totalMealCards
    ensures s.netTotal == s.total - s.totalExpenses
    ensures forall l :: l in s.businessSummary ==> ConsistentLine(l)
    ensures s.totalCreditCard == SumOf(s.businessSummary, LineCreditCard)
    ensures s.totalCash == SumOf(s.businessSummary, LineCash)
    ensures s.totalMealCards == SumOf(s.businessSummary, LineMealCards)
    ensures s.totalExpenses == SumOf(s.businessSummary, LineExpenses)
    ensures s.netTotal == SumOf(s.businessSummary, LineNet)
    ensures |s.businessSummary| <= |businesses|
  {
    var a := Accumulate(businesses, Filter(reports, OnDate(date)));
    var total := a.creditCard + a.cash + a.mealCards;
    DaySummary(a.creditCard, a.cash, a.mealCards, a.expenses, a.lines, total, total - a.expenses)
  }

  /** The loop over `bs + [b]` is the loop over `bs`, then one turn for `b`. */
  lemma AccumulateSnoc(bs: seq<Business>, b: Business, dayReports: seq<DailyReport>)
    ensures Accumulate(bs + [b], dayReports) == Visit(Accumulate(bs, dayReports), b, dayReports)
  {
    assert (bs + [b])[..|bs|] == bs;
  }

  /** In the loop, a business that has no report among `dayReports` is skipped,
      wherever it stands in the list. */
  lemma {:induction false} AccumulateSkips(bs1: seq<Business>, b: Business, bs2: seq<Business>, dayReports: seq<DailyReport>)
    requires FindReport(dayReports, b.id).None?
    ensures Accumulate(bs1 + [b] + bs2, dayReports) == Accumulate(bs1 + bs2, dayReports)
    decreases |bs2|
  {
    if |bs2| == 0 {
      AccumulateSnoc(bs1, b, dayReports);
      assert bs1 + [b] + bs2 == bs1 + [b] && bs1 + bs2 == bs1;
    } else {
      var init := bs2[..|bs2| - 1];
      var last := bs2[|bs2| - 1];
      var a1 := Accumulate(bs1 + [b] + init, dayReports);
      var a2 := Accumulate(bs1 + init, dayReports);
      assert a1 == a2 by {
        AccumulateSkips(bs1, b, init, dayReports);
      }
      assert Accumulate(bs1 + [b] + bs2, dayReports) == Visit(a1, last, dayReports) by {
        assert bs1 + [b] + bs2 == (bs1 + [b] + init) + [last];
        AccumulateSnoc(bs1 + [b] + init, last, dayReports);
      }
      assert Accumulate(bs1 + bs2, dayReports) == Visit(a2, last, dayReports) by {
        assert bs1 + bs2 == (bs1 + init) + [last];
        AccumulateSnoc(bs1 + init, last, dayReports);
      }
    }
  }

  /** A business with no report on the date is left out of the breakdown and
      adds nothing to any total, wherever it stands among the businesses: the
      summary is as if it did not exist. */
  lemma SummaryOmitsBusinessWithoutReport(bs1: seq<Business>, b: Business, bs2: seq<Business>,
                                          reports: seq<DailyReport>, date: Date)
    requires forall r :: r in reports && r.date == date ==> r.businessId != b.id
    ensures DailySummary(bs1 + [b] + bs2, reports, date) == DailySummary(bs1 + bs2, reports, date)
  {
    var day := Filter(reports, OnDate(date));
    assert FindReport(day, b.id).None?;
    AccumulateSkips(bs1, b, bs2, day);
  }

  /** At most one report per (business, date); the page only upholds this by
      hiding the add button once a report exists. */
  predicate OneReportPerBusinessDay(reports: seq<DailyReport>)
  {
    forall i, j :: 0 <= i < j < |reports| && reports[i].date == reports[j].date
      ==> reports[i].businessId != reports[j].businessId
  }

  /** With one report per business and date, looking up a business among the
      day's reports finds its report. */
  lemma FindReportOnDate(reports: seq<DailyReport>, date: Date, b: Business, r: DailyReport)
    requires OneReportPerBusinessDay(reports)
    requires r in reports && r.date == date && r.businessId == b.id
    ensures FindReport(Filter(reports, OnDate(date)), b.id) == Some(r)
  {
    var day := Filter(reports, OnDate(date));
    var found := FindReport(day, b.id);
    assert r in day;
    var x := found.value;
    assert x in reports && x.date == date && x.businessId == b.id;
    var i :| 0 <= i < |reports| && reports[i] == x;
    var j :| 0 <= j < |reports| && reports[j] == r;
    assert x == r;
  }

  /** The summary's figures are the loop's running totals and lines. */
  lemma SummaryOfLoop(bs: seq<Business>, reports: seq<DailyReport>, date: Date)
    ensures
      var s := DailySummary(bs, reports, date);
      var a := Accumulate(bs, Filter(reports, OnDate(date)));
      && s.businessSummary == a.lines
      && s.totalCreditCard == a.creditCard && s.totalCash == a.cash
      && s.totalMealCards == a.mealCards && s.totalExpenses == a.expenses
      && s.netTotal == a.creditCard + a.cash + a.mealCards - a.expenses
  {
  }

  /** The loop over one more business that has report `r` among the day's
      reports is the loop over the others, then that business's line. */
  lemma AccumulateAddsLine(bs: seq<Business>, b: Business, dayReports: seq<DailyReport>, r: DailyReport)
    requires FindReport(dayReports, b.id) == Some(r)
    ensures
      var a := Accumulate(bs, dayReports);
      Accumulate(bs + [b], dayReports) == AddLine(a, LineFor(b, r))
  {
    AccumulateSnoc(bs, b, dayReports);
  }

  /** `s'` is `s` with business `b`'s line for report `r` appended, and every
      total raised by that report's figures. */
  predicate AddsReportLine(s: DaySummary, s': DaySummary, b: Business, r: DailyReport)
  {
    var e := ExpTotal(r.expenses);
    && s'.businessSummary == s.businessSummary
         + [BusinessLine(b.name, r.creditCard, r.cash, r.mealCards, e,
                         r.creditCard + r.cash + r.mealCards, r.creditCard + r.cash + r.mealCards - e)]
    && s'.totalCreditCard == s.totalCreditCard + r.creditCard
    && s'.totalCash == s.totalCash + r.cash
    && s'.totalMealCards == s.totalMealCards + r.mealCards
    && s'.totalExpenses == s.totalExpenses + e
    && s'.netTotal == s.netTotal + (r.creditCard + r.cash + r.mealCards - e)
  }

  /** A business's line, field by field. */
  lemma LineForFields(b: Business, r: DailyReport)
    ensures LineFor(b, r) == BusinessLine(b.name, r.creditCard, r.cash, r.mealCards, ExpTotal(r.expenses),
                r.creditCard + r.cash + r.mealCards, r.creditCard + r.cash + r.mealCards - ExpTotal(r.expenses))
  {
  }

  /** A business whose lookup among the date's reports finds `r` adds exactly
      `r`'s line and figures to the summary. */
  lemma SummaryAddsFoundReport(bs: seq<Business>, b: Business, reports: seq<DailyReport>, date: Date, r: DailyReport)
    requires FindReport(Filter(reports, OnDate(date)), b.id) == Some(r)
    ensures AddsReportLine(DailySummary(bs, reports, date), DailySummary(bs + [b], reports, date), b, r)
  {
    var day := Filter(reports, OnDate(date));
    var a := Accumulate(bs, day);
    var a' := Accumulate(bs + [b], day);
    var l := LineFor(b, r);
    SummaryOfLoop(bs, reports, date);
    SummaryOfLoop(bs + [b], reports, date);
    assert DailySummary(bs + [b], reports, date).businessSummary == DailySummary(bs, reports, date).businessSummary + [l]
        && a' == AddLine(a, l) by {
      AccumulateAddsLine(bs, b, day, r);
    }
    LineForFields(b, r);
  }

  /** A business whose report is on the date appends one line with that
      report's figures and raises every total by them. */
  lemma SummaryAddsBusinessWithReport(bs: seq<Business>, b: Business, reports: seq<DailyReport>, date: Date, r: DailyReport)
    requires OneReportPerBusinessDay(reports)
    requires r in reports && r.date == date && r.businessId == b.id
    ensures AddsReportLine(DailySummary(bs, reports, date), DailySummary(bs + [b], reports, date), b, r)
  {
    FindReportOnDate(reports, date, b, r);
    SummaryAddsFoundReport(bs, b, reports, date, r);
  }

  /** The summary of a date depends only on the reports of that date. */
  lemma SummaryDependsOnDayReports(bs: seq<Business>, ra: seq<DailyReport>, rb: seq<DailyReport>, date: Date)
    requires Filter(ra, OnDate(date)) == Filter(rb, OnDate(date))
    ensures DailySummary(bs, ra, date) == DailySummary(bs, rb, date)
  {
  }

  /** A report of another date never changes the summary, wherever it stands in
      the report list (a new report goes in front). */
  lemma SummaryIgnoresOtherDates(bs: seq<Business>, r1: seq<DailyReport>, x: DailyReport, r2: seq<DailyReport>, date: Date)
    requires x.date != date
    ensures DailySummary(bs, r1 + [x] + r2, date) == DailySummary(bs, r1 + r2, date)
  {
    FilterSkipsRejected(r1, x, r2, OnDate(date));
    SummaryDependsOnDayReports(bs, r1 + [x] + r2, r1 + r2, date);
  }

  // ----- the cash ledger screen -----

  /** `totalIn` and `totalOut` of the cash-ledger screen for one date. */
  datatype CashDay = CashDay(totalIn: int, totalOut: int)

  function MovementOnDate(date: Date): CashMovement -> bool { (c: CashMovement) => c.date == date }
  function MovementOfKind(k: CashKind): CashMovement -> bool { (c: CashMovement) => c.kind == k }
  function MovementAmount(c: CashMovement): int { c.amount }

  /** The day's incoming and outgoing totals; together they account for every
      movement dated that day. */
  function CashDayTotals(ms: seq<CashMovement>, date: Date): (r: CashDay)
    ensures r.totalIn + r.totalOut == SumOf(Filter(ms, MovementOnDate(date)), MovementAmount)
    ensures (forall c :: c in ms ==> c.date != date) ==> r == CashDay(0, 0)
  {
    var day := Filter(ms, MovementOnDate(date));
    assert |day| > 0 ==> day[0] in day;
    SumOfPartition(day, MovementOfKind(In), MovementOfKind(Out), MovementAmount);
    CashDay(SumOf(Filter(day, MovementOfKind(In)), MovementAmount),
            SumOf(Filter(day, MovementOfKind(Out)), MovementAmount))
  }

  /** A movement counts towards its own date only, in the column of its kind. */
  lemma CashDayAddMovement(ms: seq<CashMovement>, c: CashMovement, date: Date)
    ensures
      var before := CashDayTotals(ms, date);
      var after := CashDayTotals(ms + [c], date);
      && after.totalIn == before.totalIn + (if c.date == date && c.kind == In then c.amount else 0)
      && after.totalOut == before.totalOut + (if c.date == date && c.kind == Out then c.amount else 0)
  {
    var day := Filter(ms, MovementOnDate(date));
    var extra := if c.date == date then [c] else [];
    FilterAppend(ms, [c], MovementOnDate(date));
    FilterSingleton(c, MovementOnDate(date));
    assert Filter(ms + [c], MovementOnDate(date)) == day + extra;
    FilterAppend(day, extra, MovementOfKind(In));
    FilterAppend(day, extra, MovementOfKind(Out));
    SumOfAppend(Filter(day, MovementOfKind(In)), Filter(extra, MovementOfKind(In)), MovementAmount);
    SumOfAppend(Filter(day, MovementOfKind(Out)), Filter(extra, MovementOfKind(Out)), MovementAmount);
    if c.date == date {
      FilterSingleton(c, MovementOfKind(In));
      FilterSingleton(c, MovementOfKind(Out));
      SumOfSingleton(c, MovementAmount);
    }
  }
}
