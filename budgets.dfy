/**
  The budget-period record's validators and the declared bounds of the
  budget-period and budget records.
 */
module Budgets {
  import opened Outcomes
  import opened PyText

  const PeriodNameMessage: string := "Period name cannot be empty or contain only whitespace."
  const DatesMessage: string := "End date must be on or after start date."

  /** The declared `max_length` of `period_name`. */
  const PeriodNameMaxLength: nat := 100

  /** A calendar date. */
  datatype Date = Date(year: int, month: int, day: int)

  /** `a < b` on dates: chronological, which is lexicographic on (year, month, day). */
  predicate Before(a: Date, b: Date)
  {
    a.year < b.year
    || (a.year == b.year && a.month < b.month)
    || (a.year == b.year && a.month == b.month && a.day < b.day)
  }

  /** `<` on dates is a strict total order. */
  lemma BeforeIsStrictTotalOrder(a: Date, b: Date, c: Date)
    ensures !Before(a, a)
    ensures Before(a, b) && Before(b, c) ==> Before(a, c)
    ensures a == b || Before(a, b) || Before(b, a)
    ensures !(Before(a, b) && Before(b, a))
  {
  }

  /** The fields of `BudgetPeriod` the validators read; ids and audit timestamps are left out. */
  datatype BudgetPeriod = BudgetPeriod(periodName: string, startDate: Date, endDate: Date)

  /** The declared bound of `BudgetPeriod`: a period name of at most 100 characters. */
  predicate PeriodDeclaredBounds(p: BudgetPeriod)
  {
    |p.periodName| <= PeriodNameMaxLength
  }

  /**
    `period_name_not_empty`: an empty or whitespace-only name is rejected;
    otherwise the name comes back stripped, non-empty, with no whitespace at
    either end.
   */
  function PeriodNameNotEmpty(value: string): (r: Result<string>)
    ensures r.Err? <==> IsBlank(value)
    ensures r.Err? ==> r.error == PeriodNameMessage
    ensures r.Ok? ==> r.value == Strip(value) && r.value != [] && NoSurroundingSpace(r.value)
  {
    if Strip(value) == [] then Err(PeriodNameMessage) else Ok(Strip(value))
  }

  /** A name within the declared bound stays within it once stripped. */
  lemma PeriodNameStaysWithinBound(value: string)
    requires |value| <= PeriodNameMaxLength
    ensures PeriodNameNotEmpty(value).Ok? ==> |PeriodNameNotEmpty(value).value| <= PeriodNameMaxLength
  {
  }

  /**
    `check_dates`: the period is rejected exactly when its end date is
    before its start date, and is otherwise returned unchanged.
   */
  function CheckDates(p: BudgetPeriod): (r: Result<BudgetPeriod>)
    ensures r.Ok? <==> (p.startDate == p.endDate || Before(p.startDate, p.endDate))
    ensures r.Ok? ==> r.value == p
    ensures r.Err? ==> r.error == DatesMessage
  {
    if Before(p.endDate, p.startDate) then Err(DatesMessage) else Ok(p)
  }

  /** A one-day period, with equal start and end dates, is accepted. */
  lemma SameDayPeriodAccepted(name: string, d: Date)
    ensures CheckDates(BudgetPeriod(name, d, d)) == Ok(BudgetPeriod(name, d, d))
  {
  }

  /** Swapping the dates of a period that spans more than a day makes it invalid. */
  lemma SwappedDatesRejected(p: BudgetPeriod)
    requires CheckDates(p).Ok? && p.startDate != p.endDate
    ensures CheckDates(p.(startDate := p.endDate, endDate := p.startDate)).Err?
  {
  }

  /** The fields of `Budget` the model keeps; its own id and audit timestamps are left out. */
  datatype Budget = Budget(budgetPeriodId: Uuid, categoryId: Uuid, allocatedAmount: real, notes: Option<string>)

  /** The declared bound of `Budget`: `allocated_amount >= 0`. */
  predicate BudgetDeclaredBounds(b: Budget)
  {
    b.allocatedAmount >= 0.0
  }
}
