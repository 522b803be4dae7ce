/** dashboard.component.ts: the period filter over the loaded expenses, the
    income / spending summary, incremental pagination of the filtered list, and
    the category icon lookup. */
module Dashboard {
  import opened Js
  import opened Records
  import opened Storage
  import opened Offline
  import opened Expenses

  /** `limit`: the number of records one `loadMoreExpenses` adds. */
  const PageSize := 10
  const DefaultPeriod := "This Month"
  const PeriodOptions := ["Last 7 Days", "This Month", "This Year", "All Time"]
  /** `loadAllExpenses` asks for one page of this many records. */
  const LoadAllLimit := 1000

  // ---------------------------------------------------------------------------
  // Calendar

  /** The local date of `new Date()`: full year, month 0-11, day of the month. */
  datatype Clock = Clock(year: int, month: int, day: int)

  predicate ValidClock(now: Clock) { 0 <= now.month < 12 && 1 <= now.day <= 31 }

  predicate IsLeap(y: int) { y % 4 == 0 && (y % 100 != 0 || y % 400 == 0) }

  /** Days from 1 January of year 0 to 1 January of year y (proleptic Gregorian). */
  function DaysBeforeYear(y: int): int
  {
    365 * y + (y + 3) / 4 - (y + 99) / 100 + (y + 399) / 400
  }

  /** Days of year y before the first of month m (0-based). */
  function DaysBeforeMonth(y: int, m: int): (d: int)
    requires 0 <= m < 12
    ensures 0 <= d <= 335
  {
    [0, 31, 59, 90, 120, 151, 181, 212, 243, 273, 304, 334][m] + (if m >= 2 && IsLeap(y) then 1 else 0)
  }

  /** The day `new Date(y, m, d)` denotes, as a day ordinal: a month outside 0-11
      carries into the year and a day outside the month carries into the months. */
  function DayOrdinal(y: int, m: int, d: int): int
  {
    var year := y + m / 12;
    var month := m % 12;
    DaysBeforeYear(year) + DaysBeforeMonth(year, month) + d - 1
  }

  /** The number of days in month m (0-based) of year y. */
  function MonthLength(y: int, m: int): int
    requires 0 <= m < 12
  {
    [31, if IsLeap(y) then 29 else 28, 31, 30, 31, 30, 31, 31, 30, 31, 30, 31][m]
  }

  /** A year has 366 days exactly when it is a leap year, and 365 otherwise. */
  lemma YearLength(y: int)
    ensures DaysBeforeYear(y + 1) == DaysBeforeYear(y) + (if IsLeap(y) then 366 else 365)
  {
    assert (y + 4) / 4 - (y + 3) / 4 == if y % 4 == 0 then 1 else 0;
    assert (y + 100) / 100 - (y + 99) / 100 == if y % 100 == 0 then 1 else 0;
    assert (y + 400) / 400 - (y + 399) / 400 == if y % 400 == 0 then 1 else 0;
  }

  /** Within a year, the days before month m+1 are the days before month m plus its length. */
  lemma MonthTableStep(y: int, m: int)
    requires 0 <= m < 11
    ensures DaysBeforeMonth(y, m + 1) == DaysBeforeMonth(y, m) + MonthLength(y, m)
  {
    var before := [0, 31, 59, 90, 120, 151, 181, 212, 243, 273, 304, 334];
    var lengths := [31, 28, 31, 30, 31, 30, 31, 31, 30, 31, 30, 31];
    assert before[m + 1] == before[m] + lengths[m];
  }

  /** The first of the next month is the first of this month plus this month's length;
      after December the carry reaches January 1 of the next year. */
  lemma NextMonthStart(y: int, m: int)
    requires 0 <= m < 12
    ensures DayOrdinal(y, m + 1, 1) == DayOrdinal(y, m, 1) + MonthLength(y, m)
  {
    assert m / 12 == 0 && m % 12 == m;
    if m == 11 {
      assert (m + 1) / 12 == 1 && (m + 1) % 12 == 0;
      YearLength(y);
    } else {
      assert (m + 1) / 12 == 0 && (m + 1) % 12 == m + 1;
      MonthTableStep(y, m);
    }
  }

  /** The start of each named period, or None for 'All Time' and any name the
      switch does not list. */
  function PeriodStart(period: string, now: Clock): Option<int>
  {
    if period == "Last 7 Days" then Some(DayOrdinal(now.year, now.month, now.day - 6))
    else if period == "This Month" then Some(DayOrdinal(now.year, now.month, 1))
    else if period == "This Year" then Some(DayOrdinal(now.year, 0, 1))
    else None
  }

  /** The last seven days end today: their start is six days before today's date. */
  lemma LastSevenDaysStartsSixDaysBack(now: Clock)
    ensures PeriodStart("Last 7 Days", now) == Some(DayOrdinal(now.year, now.month, now.day) - 6)
  {
  }

  /** The month starts no earlier than the year and no later than today. */
  lemma MonthWithinYear(now: Clock)
    requires ValidClock(now)
    ensures DayOrdinal(now.year, 0, 1) <= DayOrdinal(now.year, now.month, 1) <= DayOrdinal(now.year, now.month, now.day)
  {
    assert now.month / 12 == 0 && now.month % 12 == now.month;
  }

  // ---------------------------------------------------------------------------
  // Period filter

  /** The filter callback: a date that parses, on or after the start when there is one. */
  predicate InPeriod(e: Expense, start: Option<int>)
  {
    e.date.OnDay? && (start.None? || e.date.day >= start.value)
  }

  /** `filterByPeriod(expenses)` with the selected period and the clock. */
  function FilterByPeriod(expenses: seq<Expense>, period: string, now: Clock): (r: seq<Expense>)
    ensures forall e :: e in r <==> e in expenses && InPeriod(e, PeriodStart(period, now))
  {
    var start := PeriodStart(period, now);
    FilterMembers(expenses, (e: Expense) => InPeriod(e, start));
    Filter(expenses, (e: Expense) => InPeriod(e, start))
  }

  /** The filter keeps records in their original order. */
  lemma FilterByPeriodKeepsOrder(expenses: seq<Expense>, period: string, now: Clock)
    ensures IsSubsequence(FilterByPeriod(expenses, period, now), expenses)
  {
    var start := PeriodStart(period, now);
    FilterIsSubsequence(expenses, (e: Expense) => InPeriod(e, start));
  }

  /** 'All Time' and any unlisted period keep exactly the validly dated records. */
  lemma UnlistedPeriodIsAllTime(expenses: seq<Expense>, period: string, now: Clock)
    requires period !in PeriodOptions[..3]
    ensures FilterByPeriod(expenses, period, now) == FilterByPeriod(expenses, "All Time", now)
    ensures forall i :: 0 <= i < |expenses| && expenses[i].date.OnDay? ==> expenses[i] in FilterByPeriod(expenses, period, now)
  {
    assert period != PeriodOptions[0] && period != PeriodOptions[1] && period != PeriodOptions[2];
  }

  /** The periods nest: this month within this year, and every period within all time. */
  lemma PeriodsNest(expenses: seq<Expense>, now: Clock)
    requires ValidClock(now)
    ensures IsSubsequence(FilterByPeriod(expenses, "This Month", now), FilterByPeriod(expenses, "This Year", now))
    ensures IsSubsequence(FilterByPeriod(expenses, "This Year", now), FilterByPeriod(expenses, "All Time", now))
    ensures IsSubsequence(FilterByPeriod(expenses, "Last 7 Days", now), FilterByPeriod(expenses, "All Time", now))
  {
    MonthWithinYear(now);
    var month, year, week := PeriodStart("This Month", now), PeriodStart("This Year", now), PeriodStart("Last 7 Days", now);
    FilterWeaker(expenses, (e: Expense) => InPeriod(e, month), (e: Expense) => InPeriod(e, year));
    FilterWeaker(expenses, (e: Expense) => InPeriod(e, year), (e: Expense) => InPeriod(e, None));
    FilterWeaker(expenses, (e: Expense) => InPeriod(e, week), (e: Expense) => InPeriod(e, None));
  }

  lemma ScenarioDays()
    ensures DayOrdinal(2024, 0, 1) == 739251
    ensures DayOrdinal(2024, 4, 20) == 739391
    ensures DayOrdinal(2023, 11, 31) == 739250
  {
    assert DaysBeforeYear(2024) == 739251;
    assert DaysBeforeYear(2023) == 738886;
    assert IsLeap(2024) && !IsLeap(2023);
  }

  /** On 1 June 2024 'This Year' keeps a May 2024 record and drops one from
      December 2023 and one without a date. */
  lemma ThisYearScenario(a: Expense, b: Expense, c: Expense)
    requires a.date == OnDay(DayOrdinal(2024, 4, 20))
    requires b.date == OnDay(DayOrdinal(2023, 11, 31))
    requires c.date == NoDate
    ensures FilterByPeriod([a, b, c], "This Year", Clock(2024, 5, 1)) == [a]
  {
    var start := PeriodStart("This Year", Clock(2024, 5, 1));
    ScenarioDays();
    var keep := (e: Expense) => InPeriod(e, start);
    assert Filter([c], keep) == [] by { assert [c][1..] == []; }
    assert Filter([b, c], keep) == Filter([c], keep) by { assert [b, c][1..] == [c]; }
    assert Filter([a, b, c], keep) == [a] + Filter([b, c], keep) by { assert [a, b, c][1..] == [b, c]; }
  }

  // ---------------------------------------------------------------------------
  // Summary

  /** `expense.amountUsd ?? expense.amount ?? 0`. */
  function AmountOf(e: Expense): real
  {
    if e.amountUsd.Some? then e.amountUsd.value else if e.amount.Some? then e.amount.value else 0.0
  }

  function Abs(x: real): real { if x < 0.0 then -x else x }

  /** The sum of the positive amounts (`totalIncome`). */
  function IncomeOf(s: seq<Expense>): real
  {
    if s == [] then 0.0
    else
      var a := AmountOf(s[|s| - 1]);
      IncomeOf(s[..|s| - 1]) + (if a > 0.0 then a else 0.0)
  }

  /** The sum of the magnitudes of all amounts (`totalExpenses`). */
  function SpentOf(s: seq<Expense>): real
  {
    if s == [] then 0.0 else SpentOf(s[..|s| - 1]) + Abs(AmountOf(s[|s| - 1]))
  }

  /** Reference definition: the sum of the magnitudes of the non-positive amounts. */
  function LossOf(s: seq<Expense>): real
  {
    if s == [] then 0.0
    else
      var a := AmountOf(s[|s| - 1]);
      LossOf(s[..|s| - 1]) + (if a > 0.0 then 0.0 else -a)
  }

  /** Every positive amount counts as income and as spending, so income never exceeds
      spending, and the balance is minus the non-positive amounts. */
  lemma {:induction false} SummaryLaws(s: seq<Expense>)
    ensures 0.0 <= IncomeOf(s) <= SpentOf(s)
    ensures 0.0 <= LossOf(s)
    ensures IncomeOf(s) - SpentOf(s) == -LossOf(s)
  {
    if s != [] {
      SummaryLaws(s[..|s| - 1]);
    }
  }

  /** The three figures the dashboard shows: income, spending and balance, each rounded. */
  datatype Summary = Summary(income: real, expenses: real, balance: real)

  function Summarise(s: seq<Expense>): Summary
  {
    Summary(Round2(IncomeOf(s)), Round2(SpentOf(s)), Round2(IncomeOf(s) - SpentOf(s)))
  }

  /** The same holds of the rounded figures the dashboard shows. */
  lemma RoundedSummaryLaws(s: seq<Expense>)
    ensures Summarise(s).income <= Summarise(s).expenses
    ensures Summarise(s).balance <= 0.0
    ensures Summarise(s).balance == Round2(-LossOf(s))
  {
    SummaryLaws(s);
    Round2Monotone(IncomeOf(s), SpentOf(s));
    Round2Sign(IncomeOf(s) - SpentOf(s));
  }

  // ---------------------------------------------------------------------------
  // Pagination

  /** The pagination fields: `page`, `displayedExpenses`, `hasMore`. */
  datatype Pager = Pager(page: int, displayed: seq<Expense>, hasMore: bool)

  /** `loadMoreExpenses()` over the filtered list. */
  function LoadMore(filtered: seq<Expense>, p: Pager): Pager
  {
    var start := 10 * (p.page - 1);
    var end := start + 10;
    var batch := Slice(filtered, start, end);
    if |batch| > 0 then Pager(p.page + 1, p.displayed + batch, end < |filtered|)
    else Pager(p.page, p.displayed, end < |filtered|)
  }

  /** k successive calls of `loadMoreExpenses`. */
  function LoadMoreTimes(filtered: seq<Expense>, p: Pager, k: nat): Pager
  {
    if k == 0 then p else LoadMore(filtered, LoadMoreTimes(filtered, p, k - 1))
  }

  /** Reference definition of the pager after j calls that followed the reset:
      the first min(10j, n) records, and one page step per non-empty batch. */
  function PagerAfter(filtered: seq<Expense>, j: nat, hasMore: bool): Pager
  {
    var n := |filtered|;
    if j == 0 then Pager(1, [], hasMore)
    else Pager(1 + Min(j, (n + 9) / 10), filtered[..Min(10 * j, n)], 10 * j < n)
  }

  lemma LoadMoreFirst(filtered: seq<Expense>, hasMore: bool)
    ensures LoadMore(filtered, PagerAfter(filtered, 0, hasMore)) == PagerAfter(filtered, 1, hasMore)
  {
    SliceWindow(filtered, 0, 10);
    if |filtered| > 0 {
      assert (|filtered| + 9) / 10 >= 1;
    }
  }

  lemma LoadMoreFull(filtered: seq<Expense>, j: nat, hasMore: bool)
    requires 1 < j && 10 * (j - 1) < |filtered|
    ensures LoadMore(filtered, PagerAfter(filtered, j - 1, hasMore)) == PagerAfter(filtered, j, hasMore)
  {
    var n := |filtered|;
    var i := j - 1;
    assert j <= (n + 9) / 10;
    SliceWindow(filtered, 10 * i, 10 * i + 10);
    assert filtered[..10 * i] + filtered[10 * i..Min(10 * i + 10, n)] == filtered[..Min(10 * j, n)];
  }

  lemma LoadMoreDrained(filtered: seq<Expense>, j: nat, hasMore: bool)
    requires 1 < j && |filtered| <= 10 * (j - 1)
    ensures LoadMore(filtered, PagerAfter(filtered, j - 1, hasMore)) == PagerAfter(filtered, j, hasMore)
  {
    var n := |filtered|;
    var c := (n + 9) / 10;
    assert 10 * c <= n + 9 < 10 * c + 10;
    assert c <= j - 1 && n <= 10 * c;
    SliceWindow(filtered, 10 * c, 10 * c + 10);
  }

  /** One more call moves the reference pager one step on. */
  lemma LoadMoreStep(filtered: seq<Expense>, j: nat, hasMore: bool)
    requires j > 0
    ensures LoadMore(filtered, PagerAfter(filtered, j - 1, hasMore)) == PagerAfter(filtered, j, hasMore)
  {
    if j == 1 {
      LoadMoreFirst(filtered, hasMore);
    } else if 10 * (j - 1) < |filtered| {
      LoadMoreFull(filtered, j, hasMore);
    } else {
      LoadMoreDrained(filtered, j, hasMore);
    }
  }

  /** After the reset (page 1, nothing displayed), k calls leave the reference pager:
      for k >= 1 the first min(10k, n) records in order, `hasMore` exactly when
      10k < n, and the page advanced once per non-empty batch. */
  lemma {:induction false} LoadMoreTimesAfterReset(filtered: seq<Expense>, hasMore: bool, k: nat)
    ensures LoadMoreTimes(filtered, Pager(1, [], hasMore), k) == PagerAfter(filtered, k, hasMore)
  {
    if k > 0 {
      LoadMoreTimesAfterReset(filtered, hasMore, k - 1);
      LoadMoreOnceMore(filtered, hasMore, k);
    }
  }

  lemma LoadMoreOnceMore(filtered: seq<Expense>, hasMore: bool, k: nat)
    requires k > 0
    requires LoadMoreTimes(filtered, Pager(1, [], hasMore), k - 1) == PagerAfter(filtered, k - 1, hasMore)
    ensures LoadMoreTimes(filtered, Pager(1, [], hasMore), k) == PagerAfter(filtered, k, hasMore)
  {
    LoadMoreTimesSucc(filtered, Pager(1, [], hasMore), k);
    LoadMoreStep(filtered, k, hasMore);
  }

  lemma LoadMoreTimesSucc(filtered: seq<Expense>, p: Pager, k: nat)
    requires k > 0
    ensures LoadMoreTimes(filtered, p, k) == LoadMore(filtered, LoadMoreTimes(filtered, p, k - 1))
  {
  }

  // ---------------------------------------------------------------------------
  // Category icons

  /** The keys and glyphs of the `icons` object literal (the glyphs are kept exactly
      as the characters the source text holds), and the fallback glyph. */
  const Icons: map<string, string> := map[
    "groceries" := "\U{11F}\U{178}\U{203A}\U{2019}",
    "entertainment" := "\U{11F}\U{178}\U{AC}",
    "gas" := "\U{E2}\U{203A}\U{BD}",
    "shopping" := "\U{11F}\U{178}\U{203A}\U{EF}\U{B8}",
    "news" := "\U{11F}\U{178}\U{201C}\U{B0}",
    "transport" := "\U{11F}\U{178}\U{161}\U{2014}",
    "rent" := "\U{11F}\U{178}\U{A0}",
    "food" := "\U{11F}\U{178}\U{201D}",
    "healthcare" := "\U{E2}\U{161}\U{2022}\U{EF}\U{B8}",
    "utilities" := "\U{11F}\U{178}\U{2019}\U{A1}",
    "education" := "\U{11F}\U{178}\U{201C}\U{161}",
    "travel" := "\U{E2}\U{153}\U{2C6}\U{EF}\U{B8}"]
  const DefaultIcon := "\U{11F}\U{178}\U{2019}\U{B0}"

  /** The members every object literal inherits from Object.prototype. */
  const PrototypeMembers: set<string> := {
    "constructor", "__proto__", "hasOwnProperty", "isPrototypeOf", "propertyIsEnumerable",
    "toLocaleString", "toString", "valueOf",
    "__defineGetter__", "__defineSetter__", "__lookupGetter__", "__lookupSetter__"}

  ghost predicate NoUpper(s: string)
  {
    forall i :: 0 <= i < |s| ==> !('A' <= s[i] <= 'Z')
  }

  /** What a property read `icons[key]` produces: an own glyph, an inherited member
      (a function or Object.prototype itself, truthy and not a string), or undefined. */
  datatype Property = Own(glyph: string) | Inherited(member: string) | Undefined

  function IconProperty(key: string): Property
  {
    if key in Icons then Own(Icons[key])
    else if key in PrototypeMembers then Inherited(key)
    else Undefined
  }

  /** `icons[category.toLowerCase()] || default`, as written: the property read sees
      the prototype chain. */
  function CategoryIconAsWritten(category: string): Property
  {
    match IconProperty(Lower(category))
    case Own(g) => if g != "" then Own(g) else Own(DefaultIcon)
    case Inherited(m) => Inherited(m)
    case Undefined => Own(DefaultIcon)
  }

  /** The read as written leaks Object.prototype for two category names. */
  lemma AsWrittenLeaksPrototype()
    ensures CategoryIconAsWritten("Constructor") == Inherited("constructor")
    ensures CategoryIconAsWritten("__proto__") == Inherited("__proto__")
  {
    assert Lower("Constructor") == "constructor";
    assert Lower("__proto__") == "__proto__";
  }

  /** Lower-casing makes every other inherited name unreachable: exactly "constructor"
      and "__proto__" leak. */
  lemma AsWrittenLeaksOnlyTwoNames(category: string)
    ensures CategoryIconAsWritten(category).Inherited? <==> Lower(category) in {"constructor", "__proto__"}
  {
    assert NoUpper(Lower(category));
    CapitalisedMembers();
  }

  /** The other inherited names all contain a capital letter. */
  lemma CapitalisedMembers()
    ensures !NoUpper("hasOwnProperty")
    ensures !NoUpper("isPrototypeOf")
    ensures !NoUpper("propertyIsEnumerable")
    ensures !NoUpper("toLocaleString")
    ensures !NoUpper("toString")
    ensures !NoUpper("valueOf")
    ensures !NoUpper("__defineGetter__")
    ensures !NoUpper("__defineSetter__")
    ensures !NoUpper("__lookupGetter__")
    ensures !NoUpper("__lookupSetter__")
  {
    assert "hasOwnProperty"[3] == 'O';
    assert "isPrototypeOf"[2] == 'P';
    assert "propertyIsEnumerable"[8] == 'I';
    assert "toLocaleString"[2] == 'L';
    assert "toString"[2] == 'S';
    assert "valueOf"[5] == 'O';
    assert "__defineGetter__"[8] == 'G';
    assert "__defineSetter__"[8] == 'S';
    assert "__lookupGetter__"[8] == 'G';
    assert "__lookupSetter__"[8] == 'S';
  }

  /** The intended lookup: own keys only, so every unknown key gets the fallback. */
  function CategoryIcon(category: string): (icon: string)
    ensures icon != ""
  {
    if Lower(category) in Icons then Icons[Lower(category)] else DefaultIcon
  }

  /** The fallback is shown exactly for categories the table does not list. */
  lemma IconDefaultExactlyForUnknown(category: string)
    ensures CategoryIcon(category) == DefaultIcon <==> Lower(category) !in Icons
  {
    if Lower(category) in Icons {
      assert Icons[Lower(category)] != DefaultIcon;
    }
  }

  /** The lookup ignores letter case. */
  lemma IconIgnoresCase(category: string)
    ensures CategoryIcon(category) == CategoryIcon(Lower(category))
  {
    assert Lower(Lower(category)) == Lower(category);
  }

  /** Where the written read yields no inherited member, it agrees with the intended lookup. */
  lemma IconAsWrittenAgreesElsewhere(category: string)
    ensures !CategoryIconAsWritten(category).Inherited? ==> CategoryIconAsWritten(category) == Own(CategoryIcon(category))
    ensures Lower(category) == "constructor" ==> CategoryIcon(category) == DefaultIcon
  {
  }

  // ---------------------------------------------------------------------------
  // The component

  // ---------------------------------------------------------------------------
  // The persisted filter

  /** What `loadPersistedFilter` restores from `getItem('dashboard:filter')`: the saved
      text when it is truthy, otherwise nothing. */
  function SavedPeriod(raw: Option<Doc>): (p: Option<string>)
    ensures p.Some? <==> raw.Some? && raw.value.Text? && TruthyString(raw.value.raw)
    ensures p.Some? ==> raw == Some(Text(p.value))
  {
    match raw
    case Some(Text(t)) => if TruthyString(t) then Some(t) else None
    case _ => None
  }

  /** The write of `onPeriodChange` is what a later `loadPersistedFilter` reads back:
      any non-empty period is restored, the empty one is not, and writes under other
      keys leave the saved period alone. */
  lemma PersistedPeriodReloads(entries: Entries, val: string, k: StorageKey, d: Doc)
    ensures SavedPeriod(Get(entries[DashboardFilter := Text(val)], DashboardFilter)) == if val == "" then None else Some(val)
    ensures k != DashboardFilter ==> SavedPeriod(Get(entries[k := d], DashboardFilter)) == SavedPeriod(Get(entries, DashboardFilter))
  {
  }

  /** The dashboard's load sees at most the first thousand records of the offline source. */
  lemma LoadAllWindow(source: seq<Expense>)
    ensures PageOf(source, 1, LoadAllLimit) == source[..Min(LoadAllLimit, |source|)]
  {
    PageWindow(source, 1, LoadAllLimit);
  }

  class DashboardComponent {
    const store: LocalStorage
    var allExpenses: seq<Expense>
    var filteredExpenses: seq<Expense>
    var displayedExpenses: seq<Expense>
    var page: int
    var hasMore: bool
    var selectedPeriod: string
    var income: real
    var expenses: real
    var totalBalance: real

    constructor (store: LocalStorage)
      ensures this.store == store
      ensures allExpenses == [] && filteredExpenses == [] && displayedExpenses == []
      ensures page == 1 && hasMore && selectedPeriod == DefaultPeriod
      ensures income == 0.0 && expenses == 0.0 && totalBalance == 0.0
    {
      this.store := store;
      allExpenses, filteredExpenses, displayedExpenses := [], [], [];
      page, hasMore, selectedPeriod := 1, true, DefaultPeriod;
      income, expenses, totalBalance := 0.0, 0.0, 0.0;
    }

    /** `calculateSummary(list)`: one pass accumulating both totals, then rounding. */
    method CalculateSummary(list: seq<Expense>)
      modifies this`income, this`expenses, this`totalBalance
      ensures Summary(income, expenses, totalBalance) == Summarise(list)
    {
      var totalIncome, totalExpenses := 0.0, 0.0;
      var i := 0;
      while i < |list|
        invariant 0 <= i <= |list|
        invariant totalIncome == IncomeOf(list[..i])
        invariant totalExpenses == SpentOf(list[..i])
      {
        var amount := AmountOf(list[i]);
        assert list[..i + 1][..i] == list[..i];
        if amount > 0.0 {
          totalIncome := totalIncome + amount;
          totalExpenses := totalExpenses + amount;
        } else {
          totalExpenses := totalExpenses + Abs(amount);
        }
        i := i + 1;
      }
      assert list[..i] == list;
      income := Round2(totalIncome);
      expenses := Round2(totalExpenses);
      totalBalance := Round2(totalIncome - totalExpenses);
    }

    /** `loadMoreExpenses()`. */
    method LoadMoreExpenses()
      modifies this`displayedExpenses, this`page, this`hasMore
      ensures Pager(page, displayedExpenses, hasMore) == LoadMore(filteredExpenses, Pager(old(page), old(displayedExpenses), old(hasMore)))
    {
      var startIdx := (page - 1) * PageSize;
      var endIdx := startIdx + PageSize;
      var newExpenses := Slice(filteredExpenses, startIdx, endIdx);
      if |newExpenses| > 0 {
        displayedExpenses := displayedExpenses + newExpenses;
        page := page + 1;
      }
      hasMore := endIdx < |filteredExpenses|;
    }

    /** `applyFilterAndPagination()`: filter, summarise, load the next batch. */
    method ApplyFilterAndPagination(now: Clock)
      modifies this`filteredExpenses, this`income, this`expenses, this`totalBalance
      modifies this`displayedExpenses, this`page, this`hasMore
      ensures filteredExpenses == FilterByPeriod(allExpenses, selectedPeriod, now)
      ensures Summary(income, expenses, totalBalance) == Summarise(filteredExpenses)
      ensures Pager(page, displayedExpenses, hasMore) == LoadMore(filteredExpenses, Pager(old(page), old(displayedExpenses), old(hasMore)))
    {
      ghost var before := Pager(page, displayedExpenses, hasMore);
      var filtered := FilterByPeriod(allExpenses, selectedPeriod, now);
      filteredExpenses := filtered;
      CalculateSummary(filtered);
      assert filteredExpenses == filtered && Pager(page, displayedExpenses, hasMore) == before;
      ghost var totals := Summary(income, expenses, totalBalance);
      LoadMoreExpenses();
      assert Summary(income, expenses, totalBalance) == totals;
    }

    /** `loadPersistedFilter()`: a truthy saved period replaces the selection. */
    method LoadPersistedFilter()
      modifies this`selectedPeriod
      ensures SavedPeriod(Get(store.entries, DashboardFilter)).Some? ==>
                selectedPeriod == SavedPeriod(Get(store.entries, DashboardFilter)).value
      ensures SavedPeriod(Get(store.entries, DashboardFilter)).None? ==> selectedPeriod == old(selectedPeriod)
    {
      var saved := store.GetItem(DashboardFilter);
      match saved
      case Some(Text(t)) =>
        if TruthyString(t) {
          selectedPeriod := t;
        }
      case _ =>
    }

    /** `loadAllExpenses()`: the first page of a thousand from the expenses service
        (which may rewrite `cache:expenses`), then the filtered view is rebuilt from
        the current page on. `get` is the outcome of the GET when one is made. */
    method LoadAllExpenses(svc: ExpensesService, nav: Navigator, get: Fetch<seq<Expense>>, now: Clock)
      requires svc.store == store
      modifies store`entries, this`allExpenses, this`filteredExpenses, this`income, this`expenses
      modifies this`totalBalance, this`displayedExpenses, this`page, this`hasMore
      ensures !IsOnline(nav) || get.Failed? ==>
                allExpenses == PageOf(DataSource(CachedListOf(old(store.entries)), svc.seed), 1, LoadAllLimit)
                && store.entries == old(store.entries)
      ensures IsOnline(nav) && get.Fetched? ==>
                allExpenses == get.value
                && store.entries == if store.writable then old(store.entries)[CacheExpenses := ExpensesJson(get.value)] else old(store.entries)
      ensures filteredExpenses == FilterByPeriod(allExpenses, selectedPeriod, now)
      ensures Summary(income, expenses, totalBalance) == Summarise(filteredExpenses)
      ensures Pager(page, displayedExpenses, hasMore) == LoadMore(filteredExpenses, Pager(old(page), old(displayedExpenses), old(hasMore)))
    {
      var all := svc.PaginatedList(1, LoadAllLimit, nav, get);
      allExpenses := all;
      ApplyFilterAndPagination(now);
    }

    /** `onPeriodChange`: select and persist the period (a failed write is ignored),
        reset pagination, and rebuild the view. */
    method OnPeriodChange(val: string, now: Clock)
      modifies this`selectedPeriod, store`entries, this`filteredExpenses, this`income, this`expenses
      modifies this`totalBalance, this`displayedExpenses, this`page, this`hasMore
      ensures selectedPeriod == val
      ensures store.entries == if store.writable then old(store.entries)[DashboardFilter := Text(val)] else old(store.entries)
      ensures filteredExpenses == FilterByPeriod(allExpenses, val, now)
      ensures Summary(income, expenses, totalBalance) == Summarise(filteredExpenses)
      ensures Pager(page, displayedExpenses, hasMore) == LoadMore(filteredExpenses, Pager(1, [], old(hasMore)))
    {
      selectedPeriod := val;
      var _ := store.SetItem(DashboardFilter, Text(val));
      page := 1;
      displayedExpenses := [];
      ApplyFilterAndPagination(now);
    }
  }
}
