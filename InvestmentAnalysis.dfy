/**
 * The periodic-investment simulator: from a fund's ascending price series, an initial lump sum,
 * a monthly contribution and a yearly escalation rule, it samples one price per calendar month,
 * buys units month by month and reports the running totals and a summary.
 *
 * The database reads (the fund record and its price series) and the clock are inputs.
 */
module InvestmentAnalysis {
  import opened Basics
  import opened Calendar

  // ----- Request and response -----

  datatype StartDate =
    | FiveYearsAgo | ThreeYearsAgo | OneYearAgo | YearStart
    | SixMonthsAgo | ThreeMonthsAgo | OneMonthAgo

  datatype IncreaseType = Percentage | Amount

  datatype YearlyIncrease = YearlyIncrease(kind: IncreaseType, value: real)

  datatype AnalysisRequest = AnalysisRequest(
    fundCode: string,
    startDate: StartDate,
    initialInvestment: real,
    monthlyInvestment: real,
    yearlyIncrease: YearlyIncrease,
    includeMonthlyDetails: bool)

  /** The fund's reference record. */
  datatype Fund = Fund(code: string, managementCompanyId: string, title: string)

  /** One row of the price series: the fund's unit price on a date. */
  datatype Observation = Observation(code: string, date: CalendarDate, value: real)

  /** One simulated month; `yieldPercentage` is None where JavaScript would produce NaN or Infinity. */
  datatype MonthlyDetail = MonthlyDetail(
    date: CalendarDate,
    investment: real,
    totalInvestment: real,
    unitPrice: real,
    units: real,
    totalUnits: real,
    value: real,
    yieldAmount: real,
    yieldPercentage: Option<real>)

  datatype Summary = Summary(
    totalInvestment: real,
    currentValue: real,
    totalYield: real,
    totalYieldPercentage: Option<real>)

  datatype AnalysisResponse = AnalysisResponse(
    code: string,
    managementCompanyId: string,
    title: string,
    summary: Summary,
    monthlyDetails: Option<seq<MonthlyDetail>>)

  /** The two errors `analyze` throws: no fund record, and an empty price series. */
  datatype AnalysisError = FundNotFound | NoHistoricalData

  // ----- Start date -----

  /** `r` is `now` moved `n` years back with month and day kept; 29 February becomes 1 March in a common year. */
  predicate YearsBack(now: CalendarDate, n: int, r: Date)
  {
    if now.day <= DaysInMonth(now.year - n, now.month) then r == Date(now.year - n, now.month, now.day)
    else now.month == 1 && now.day == 29 && r == Date(now.year - n, 2, 1)
  }

  /** `r` is `now` moved `k` calendar months back, keeping the day, or rolled into the following month when that day does not exist. */
  predicate MonthsBack(now: CalendarDate, k: int, r: Date)
  {
    var target := MonthIndex(now) - k;
    if now.day <= DaysInMonth(target / 12, target % 12) then MonthIndex(r) == target && r.day == now.day
    else MonthIndex(r) == target + 1 && r.day == now.day - DaysInMonth(target / 12, target % 12)
  }

  /** The first date of the analysis for a start-date tag, relative to today's date `now`. */
  function GetStartDate(tag: StartDate, now: CalendarDate): (r: CalendarDate)
    ensures tag == FiveYearsAgo ==> YearsBack(now, 5, r)
    ensures tag == ThreeYearsAgo ==> YearsBack(now, 3, r)
    ensures tag == OneYearAgo ==> YearsBack(now, 1, r)
    ensures tag == YearStart ==> r == Date(now.year, 0, 1)
    ensures tag == SixMonthsAgo ==> MonthsBack(now, 6, r)
    ensures tag == ThreeMonthsAgo ==> MonthsBack(now, 2, r)
    ensures tag == OneMonthAgo ==> MonthsBack(now, 1, r)
  {
    match tag
    case FiveYearsAgo => SetFullYear(now, now.year - 5)
    case ThreeYearsAgo => SetFullYear(now, now.year - 3)
    case OneYearAgo => SetFullYear(now, now.year - 1)
    case YearStart => Date(now.year, 0, 1)
    case SixMonthsAgo => SetMonth(now, now.month - 6)
    case ThreeMonthsAgo => SetMonth(now, now.month - 2)
    case OneMonthAgo => SetMonth(now, now.month - 1)
  }

  /** The month before that of `now`, as a pair of a year and a month 0..11. */
  function PreviousMonth(now: CalendarDate): (r: MonthKey)
    ensures 0 <= r.1 < 12 && r.0 * 12 + r.1 == MonthIndex(now) - 1
  {
    if now.month == 0 then (now.year - 1, 11) else (now.year, now.month - 1)
  }

  /**
   * Every start date lies in the current calendar month or an earlier one. As written, "one month
   * ago" stays in the current month when today's day does not exist in the previous month.
   */
  lemma StartBeforeToday(tag: StartDate, now: CalendarDate)
    ensures MonthIndex(GetStartDate(tag, now)) <= MonthIndex(now)
    ensures tag != YearStart && tag != OneMonthAgo ==> MonthIndex(GetStartDate(tag, now)) < MonthIndex(now)
    ensures tag == YearStart ==> (MonthIndex(GetStartDate(tag, now)) == MonthIndex(now) <==> now.month == 0)
    ensures tag == OneMonthAgo ==>
              (MonthIndex(GetStartDate(tag, now)) == MonthIndex(now)
               <==> now.day > DaysInMonth(PreviousMonth(now).0, PreviousMonth(now).1))
  {
    var r := GetStartDate(tag, now);
    match tag
    case FiveYearsAgo => assert YearsBack(now, 5, r);
    case ThreeYearsAgo => assert YearsBack(now, 3, r);
    case OneYearAgo => assert YearsBack(now, 1, r);
    case YearStart =>
    case SixMonthsAgo => assert MonthsBack(now, 6, r);
    case ThreeMonthsAgo => assert MonthsBack(now, 2, r);
    case OneMonthAgo =>
      assert MonthsBack(now, 1, r);
      var t := MonthIndex(now) - 1;
      assert t / 12 == PreviousMonth(now).0 && t % 12 == PreviousMonth(now).1;
  }

  /** On 31 March 2024, "one month ago" is 2 March 2024, in the current month. */
  lemma OneMonthAgoSlips()
    ensures GetStartDate(OneMonthAgo, Date(2024, 2, 31)) == Date(2024, 2, 2)
  {
    var t := 2024 * 12 + 1;
    assert t / 12 == 2024 && t % 12 == 1;
    assert (t + 1) / 12 == 2024 && (t + 1) % 12 == 2;
  }

  /**
   * The start date with a month step that cannot overflow: the day is clamped to the last day of
   * the target month, so "k months ago" is always exactly k calendar months back.
   */
  function ClampedStartDate(tag: StartDate, now: CalendarDate): (r: CalendarDate)
    ensures tag == FiveYearsAgo ==> MonthIndex(r) == MonthIndex(now) - 60
    ensures tag == ThreeYearsAgo ==> MonthIndex(r) == MonthIndex(now) - 36
    ensures tag == OneYearAgo ==> MonthIndex(r) == MonthIndex(now) - 12
    ensures tag == YearStart ==> r == Date(now.year, 0, 1)
    ensures tag == SixMonthsAgo ==> MonthIndex(r) == MonthIndex(now) - 6
    ensures tag == ThreeMonthsAgo ==> MonthIndex(r) == MonthIndex(now) - 2
    ensures tag == OneMonthAgo ==> MonthIndex(r) == MonthIndex(now) - 1
    ensures tag != YearStart ==> r.day <= now.day && (r.day < now.day ==> r.day == DaysInMonth(r.year, r.month))
  {
    var back :=
      match tag
      case FiveYearsAgo => 60
      case ThreeYearsAgo => 36
      case OneYearAgo => 12
      case YearStart => 0
      case SixMonthsAgo => 6
      case ThreeMonthsAgo => 2
      case OneMonthAgo => 1;
    if tag == YearStart then Date(now.year, 0, 1)
    else
      var t := MonthIndex(now) - back;
      var last := DaysInMonth(t / 12, t % 12);
      Date(t / 12, t % 12, if now.day <= last then now.day else last)
  }

  /** Clamping changes the as-written start date only where the as-written one overflows into the next month. */
  lemma ClampedAgreesWithoutOverflow(tag: StartDate, now: CalendarDate)
    requires MonthIndex(GetStartDate(tag, now)) == MonthIndex(ClampedStartDate(tag, now))
    ensures GetStartDate(tag, now) == ClampedStartDate(tag, now)
  {
    var r := GetStartDate(tag, now);
    match tag
    case FiveYearsAgo => assert YearsBack(now, 5, r);
    case ThreeYearsAgo => assert YearsBack(now, 3, r);
    case OneYearAgo => assert YearsBack(now, 1, r);
    case YearStart =>
    case SixMonthsAgo => assert MonthsBack(now, 6, r);
    case ThreeMonthsAgo => assert MonthsBack(now, 2, r);
    case OneMonthAgo => assert MonthsBack(now, 1, r);
  }

  // ----- Contribution schedule -----

  function Pow(x: real, n: nat): real
  {
    if n == 0 then 1.0 else x * Pow(x, n - 1)
  }

  lemma {:induction false} PowAtLeastOne(x: real, n: nat)
    requires x >= 1.0
    ensures Pow(x, n) >= 1.0
  {
    if n > 0 {
      PowAtLeastOne(x, n - 1);
    }
  }

  /**
   * The contribution owed in the month of `current` for a plan that started on `start`: nothing in
   * the start month itself; otherwise the base, escalated by the number of calendar years between
   * the two dates, except when there is no escalation, when no calendar year has passed, or in the
   * January right after a December start.
   */
  function MonthlyContribution(base: real, current: Date, start: Date, increase: YearlyIncrease): (r: real)
    ensures current.year == start.year && current.month == start.month ==> r == 0.0
    ensures !(current.year == start.year && current.month == start.month) ==>
              (increase.value == 0.0 || current.year - start.year <= 0
               || (current.year - start.year == 1 && current.month == 0 && start.month == 11)) ==> r == base
  {
    if current.year == start.year && current.month == start.month then 0.0
    else if increase.value == 0.0 then base
    else
      var yearsPassed := current.year - start.year;
      if yearsPassed == 1 && current.month == 0 && start.month == 11 then base
      else if yearsPassed <= 0 then base
      else if increase.kind == Percentage then base * Pow(1.0 + increase.value / 100.0, yearsPassed)
      else base + increase.value * yearsPassed as real
  }

  /**
   * Outside the start month and the unescalated cases, the contribution is the base compounded
   * (percentage) or stepped (amount) once per calendar year of difference, whatever the months.
   */
  lemma EscalatedContribution(base: real, current: Date, start: Date, increase: YearlyIncrease)
    requires increase.value != 0.0 && current.year - start.year >= 1
    requires !(current.year - start.year == 1 && current.month == 0 && start.month == 11)
    ensures increase.kind == Percentage ==>
              MonthlyContribution(base, current, start, increase)
              == base * Pow(1.0 + increase.value / 100.0, current.year - start.year)
    ensures increase.kind == Amount ==>
              MonthlyContribution(base, current, start, increase)
              == base + increase.value * (current.year - start.year) as real
  {
  }

  /**
   * Once escalation is under way, the same month one calendar year later owes the contribution
   * multiplied by (1 + value / 100) for percentage escalation, or increased by the value for amount
   * escalation.
   */
  lemma NextYearContribution(base: real, current: Date, start: Date, increase: YearlyIncrease)
    requires current.year - start.year >= 1
    requires !(current.year - start.year == 1 && current.month == 0 && start.month == 11)
    ensures var next := current.(year := current.year + 1);
            var now := MonthlyContribution(base, current, start, increase);
            && (increase.kind == Percentage ==>
                  MonthlyContribution(base, next, start, increase) == now * (1.0 + increase.value / 100.0))
            && (increase.kind == Amount ==>
                  MonthlyContribution(base, next, start, increase) == now + increase.value)
  {
    var n := current.year - start.year;
    var x := 1.0 + increase.value / 100.0;
    if increase.value != 0.0 && increase.kind == Percentage {
      assert Pow(x, n + 1) == x * Pow(x, n);
      assert base * (x * Pow(x, n)) == (base * Pow(x, n)) * x;
    } else if increase.value != 0.0 {
      assert base + increase.value * (n + 1) as real == (base + increase.value * n as real) + increase.value;
    }
  }

  /** With a non-negative base and escalation value, no month after the first owes less than the base. */
  lemma ContributionAtLeastBase(base: real, current: Date, start: Date, increase: YearlyIncrease)
    requires base >= 0.0 && increase.value >= 0.0
    requires !(current.year == start.year && current.month == start.month)
    ensures MonthlyContribution(base, current, start, increase) >= base
  {
    var yearsPassed := current.year - start.year;
    if increase.value != 0.0 && yearsPassed >= 1 && increase.kind == Percentage {
      PowAtLeastOne(1.0 + increase.value / 100.0, yearsPassed);
      assert base * Pow(1.0 + increase.value / 100.0, yearsPassed) >= base * 1.0;
    }
  }

  // ----- Monthly sampling -----

  /** The key `${year}-${month + 1}` of a date's calendar month, as a pair. */
  type MonthKey = (int, int)

  function KeyOf(d: Date): MonthKey
  {
    (d.year, d.month)
  }

  /** Whether a later observation of the same month takes the stored one's place for target day `targetDay`. */
  predicate Replaces(stored: Observation, candidate: Observation, targetDay: int)
  {
    candidate.date.day <= targetDay
    && (stored.date.day > targetDay || candidate.date.day > stored.date.day)
  }

  /** Every key maps to an observation of that very month. */
  predicate WellKeyed(samples: map<MonthKey, Observation>)
  {
    forall k :: k in samples ==> KeyOf(samples[k].date) == k
  }

  /** The month-to-observation table built by one pass over the price series. */
  function MonthlySamples(fundData: seq<Observation>, targetDay: int): (samples: map<MonthKey, Observation>)
    ensures WellKeyed(samples)
  {
    if fundData == [] then map[]
    else
      var earlier := MonthlySamples(fundData[..|fundData| - 1], targetDay);
      var data := fundData[|fundData| - 1];
      var key := KeyOf(data.date);
      if key !in earlier || Replaces(earlier[key], data, targetDay) then earlier[key := data]
      else earlier
  }

  /** The first observation of a calendar month in the series, if any. */
  function FirstInMonth(fundData: seq<Observation>, k: MonthKey): Option<Observation>
  {
    if fundData == [] then None
    else
      var earlier := FirstInMonth(fundData[..|fundData| - 1], k);
      if earlier.Some? then earlier
      else if KeyOf(fundData[|fundData| - 1].date) == k then Some(fundData[|fundData| - 1])
      else None
  }

  predicate InMonth(o: Observation, k: MonthKey)
  {
    KeyOf(o.date) == k
  }

  /** Some observation of the series falls in month `k`. */
  predicate Observed(fundData: seq<Observation>, k: MonthKey)
  {
    exists i :: 0 <= i < |fundData| && InMonth(fundData[i], k)
  }

  /** Some observation of month `k` has a day not after the target day. */
  predicate Eligible(fundData: seq<Observation>, k: MonthKey, targetDay: int)
  {
    exists i :: 0 <= i < |fundData| && InMonth(fundData[i], k) && fundData[i].date.day <= targetDay
  }

  /** Every entry of the table is an observation of the series. */
  lemma {:induction false} SampleFromSeries(fundData: seq<Observation>, targetDay: int, k: MonthKey)
    requires k in MonthlySamples(fundData, targetDay)
    ensures exists i :: 0 <= i < |fundData| && fundData[i] == MonthlySamples(fundData, targetDay)[k]
  {
    var n := |fundData| - 1;
    var init := fundData[..n];
    if k in MonthlySamples(init, targetDay) && MonthlySamples(fundData, targetDay)[k] == MonthlySamples(init, targetDay)[k] {
      SampleFromSeries(init, targetDay, k);
      var i :| 0 <= i < n && init[i] == MonthlySamples(init, targetDay)[k];
      assert fundData[i] == init[i];
    } else {
      assert fundData[n] == MonthlySamples(fundData, targetDay)[k];
    }
  }

  /** A month has an entry in the table exactly when some observation falls in it. */
  lemma {:induction false} SampleKeys(fundData: seq<Observation>, targetDay: int, k: MonthKey)
    ensures k in MonthlySamples(fundData, targetDay) <==> Observed(fundData, k)
  {
    if fundData != [] {
      var n := |fundData| - 1;
      var init := fundData[..n];
      SampleKeys(init, targetDay, k);
      if Observed(init, k) {
        var i :| 0 <= i < n && InMonth(init[i], k);
        assert InMonth(fundData[i], k);
      }
      if Observed(fundData, k) && !InMonth(fundData[n], k) {
        var i :| 0 <= i < |fundData| && InMonth(fundData[i], k);
        assert InMonth(init[i], k);
      }
    }
  }

  /**
   * When some observation of month `k` is on or before the target day, the entry is one of those,
   * with the latest such day.
   */
  lemma {:induction false} SampleBestEligible(fundData: seq<Observation>, targetDay: int, k: MonthKey)
    requires Eligible(fundData, k, targetDay)
    ensures k in MonthlySamples(fundData, targetDay)
    ensures var s := MonthlySamples(fundData, targetDay)[k];
            s.date.day <= targetDay
            && forall i :: 0 <= i < |fundData| && InMonth(fundData[i], k) && fundData[i].date.day <= targetDay
                           ==> fundData[i].date.day <= s.date.day
  {
    var n := |fundData| - 1;
    var init := fundData[..n];
    var last := fundData[n];
    var before := MonthlySamples(init, targetDay);
    var after := MonthlySamples(fundData, targetDay);
    assert forall i :: 0 <= i < n ==> fundData[i] == init[i];
    if Eligible(init, k, targetDay) {
      SampleBestEligible(init, targetDay, k);
      var s := before[k];
      var best := after[k];
      assert s.date.day <= best.date.day <= targetDay by {
        if InMonth(last, k) && Replaces(s, last, targetDay) {
          assert best == last;
        } else {
          assert best == s;
        }
      }
      forall i | 0 <= i < |fundData| && InMonth(fundData[i], k) && fundData[i].date.day <= targetDay
        ensures fundData[i].date.day <= best.date.day
      {
        if i < n {
          assert InMonth(init[i], k) && init[i].date.day <= targetDay;
          assert init[i].date.day <= s.date.day;
        } else {
          assert fundData[i] == last && KeyOf(last.date) == k;
          assert after == if Replaces(s, last, targetDay) then before[k := last] else before;
        }
      }
    } else {
      assert InMonth(last, k) && last.date.day <= targetDay;
      if k in before {
        SampleFromSeries(init, targetDay, k);
        var j :| 0 <= j < n && init[j] == before[k];
        assert before[k].date.day > targetDay;
      }
      assert after[k] == last;
    }
  }

  /** When every observation of month `k` is after the target day, the entry is the month's first observation. */
  lemma {:induction false} SampleFirstFallback(fundData: seq<Observation>, targetDay: int, k: MonthKey)
    requires Observed(fundData, k) && !Eligible(fundData, k, targetDay)
    ensures k in MonthlySamples(fundData, targetDay)
    ensures FirstInMonth(fundData, k) == Some(MonthlySamples(fundData, targetDay)[k])
  {
    var n := |fundData| - 1;
    var init := fundData[..n];
    var last := fundData[n];
    var before := MonthlySamples(init, targetDay);
    var after := MonthlySamples(fundData, targetDay);
    assert forall i :: 0 <= i < n ==> fundData[i] == init[i];
    if Observed(init, k) {
      SampleFirstFallback(init, targetDay, k);
      assert after[k] == before[k];
    } else {
      SampleKeys(init, targetDay, k);
      assert forall i :: 0 <= i < n ==> !InMonth(init[i], k);
      FirstInMonthNone(init, k);
      assert InMonth(last, k);
      assert after[k] == last;
    }
  }

  lemma {:induction false} FirstInMonthNone(fundData: seq<Observation>, k: MonthKey)
    requires forall i :: 0 <= i < |fundData| ==> !InMonth(fundData[i], k)
    ensures FirstInMonth(fundData, k) == None
  {
    if fundData != [] {
      FirstInMonthNone(fundData[..|fundData| - 1], k);
    }
  }

  /** Lines 107-128: one pass over the series fills the month table; the target day is read from a date that is never reassigned. */
  method SampleMonths(fundData: seq<Observation>, now: CalendarDate) returns (monthlyFundData: map<MonthKey, Observation>)
    ensures monthlyFundData == MonthlySamples(fundData, now.day)
  {
    monthlyFundData := map[];
    var lastUsedDate := now;
    for i := 0 to |fundData|
      invariant monthlyFundData == MonthlySamples(fundData[..i], now.day)
    {
      var data := fundData[i];
      var key := KeyOf(data.date);
      assert fundData[..i + 1][..i] == fundData[..i];
      if key !in monthlyFundData {
        monthlyFundData := monthlyFundData[key := data];
      } else {
        var existingDate := monthlyFundData[key].date;
        var targetDay := lastUsedDate.day;
        if data.date.day <= targetDay && (existingDate.day > targetDay || data.date.day > existingDate.day) {
          monthlyFundData := monthlyFundData[key := data];
        }
      }
    }
    assert fundData[..|fundData|] == fundData;
  }

  // ----- Simulation -----

  /** The loop's running values: invested money, units held, last month's value, and the rows emitted so far. */
  datatype SimState = SimState(totalInvestment: real, totalUnits: real, previousValue: real, details: seq<MonthlyDetail>)

  function InitialState(req: AnalysisRequest): SimState
  {
    SimState(req.initialInvestment, 0.0, 0.0, [])
  }

  /**
   * One sampled month. A first month buys `initialInvestment` worth of units at this price; a later
   * month adds its contribution and the units it buys when the contribution is positive.
   */
  function MonthStep(st: SimState, o: Observation, req: AnalysisRequest, contribution: real, isFirstMonth: bool): SimState
    requires o.value != 0.0
  {
    var totalUnits :=
      if isFirstMonth then req.initialInvestment / o.value
      else if contribution > 0.0 then st.totalUnits + contribution / o.value
      else st.totalUnits;
    var totalInvestment :=
      if !isFirstMonth && contribution > 0.0 then st.totalInvestment + contribution else st.totalInvestment;
    var currentValue := totalUnits * o.value;
    var row := MonthlyDetail(
      o.date,
      if isFirstMonth then 0.0 else contribution,
      totalInvestment,
      o.value,
      if isFirstMonth then totalUnits else contribution / o.value,
      totalUnits,
      currentValue,
      currentValue - totalInvestment,
      if isFirstMonth then Some(0.0)
      else PercentOf(currentValue - (st.previousValue + contribution), st.previousValue + contribution));
    SimState(totalInvestment, totalUnits, currentValue,
             if req.includeMonthlyDetails then st.details + [row] else st.details)
  }

  /** As written, a month is the "first month" whenever no detail row has been emitted yet. */
  function SampledMonth(st: SimState, o: Observation, req: AnalysisRequest, start: CalendarDate): SimState
    requires o.value != 0.0
  {
    MonthStep(st, o, req, MonthlyContribution(req.monthlyInvestment, o.date, start, req.yearlyIncrease), |st.details| == 0)
  }

  /** Whether the month `cur` is processed: it is in the sample table and its price is not zero. */
  predicate Sampled(samples: map<MonthKey, Observation>, cur: Date)
  {
    KeyOf(cur) in samples && samples[KeyOf(cur)].value != 0.0
  }

  /**
   * The loop from month `cur` up to and including the month of `end`: an unsampled month moves on
   * one month from `cur`; a sampled one is processed at its observation's date and moves on one
   * month from that date.
   */
  function Simulation(samples: map<MonthKey, Observation>, req: AnalysisRequest, start: CalendarDate,
                      end: CalendarDate, cur: CalendarDate, st: SimState): SimState
    requires WellKeyed(samples)
    decreases MonthIndex(end) - MonthIndex(cur)
  {
    if MonthIndex(cur) > MonthIndex(end) then st
    else if !Sampled(samples, cur) then
      Simulation(samples, req, start, end, SetMonth(cur, cur.month + 1), st)
    else
      var o := samples[KeyOf(cur)];
      Simulation(samples, req, start, end, SetMonth(o.date, o.date.month + 1), SampledMonth(st, o, req, start))
  }

  /** Moving on from a sampled month's observation lands in a later calendar month than `cur`. */
  lemma SampledAdvances(samples: map<MonthKey, Observation>, cur: CalendarDate)
    requires WellKeyed(samples) && KeyOf(cur) in samples
    ensures var o := samples[KeyOf(cur)];
            MonthIndex(o.date) == MonthIndex(cur) < MonthIndex(SetMonth(o.date, o.date.month + 1))
  {
    NextMonthAdvances(samples[KeyOf(cur)].date);
  }

  // ----- The ledger of monthly rows -----

  /** A row's own arithmetic: the holding valued at this month's price, and the yield against the money put in. */
  predicate RowConsistent(row: MonthlyDetail)
  {
    row.unitPrice != 0.0
    && row.value == row.totalUnits * row.unitPrice
    && row.yieldAmount == row.value - row.totalInvestment
  }

  /** The first row: the initial sum buys units at this price; nothing is counted as this month's contribution. */
  predicate OpeningRow(row: MonthlyDetail, req: AnalysisRequest)
  {
    row.unitPrice != 0.0
    && row.investment == 0.0
    && row.totalInvestment == req.initialInvestment
    && row.totalUnits == req.initialInvestment / row.unitPrice
    && row.units == row.totalUnits
    && row.yieldPercentage == Some(0.0)
  }

  /**
   * A later row: a later calendar month, this month's scheduled contribution, and totals that grow
   * by it (and the units it buys) only when it is positive; the month's yield is measured against
   * last month's value plus the contribution.
   */
  predicate NextRow(prev: MonthlyDetail, row: MonthlyDetail, req: AnalysisRequest, start: Date)
  {
    row.unitPrice != 0.0
    && MonthIndex(prev.date) < MonthIndex(row.date)
    && row.investment == MonthlyContribution(req.monthlyInvestment, row.date, start, req.yearlyIncrease)
    && row.units == row.investment / row.unitPrice
    && (if row.investment > 0.0
        then row.totalInvestment == prev.totalInvestment + row.investment
             && row.totalUnits == prev.totalUnits + row.units
        else row.totalInvestment == prev.totalInvestment && row.totalUnits == prev.totalUnits)
    && row.yieldPercentage == PercentOf(row.value - (prev.value + row.investment), prev.value + row.investment)
  }

  /** The rows of a detailed analysis, as a ledger. */
  predicate Ledger(rows: seq<MonthlyDetail>, req: AnalysisRequest, start: Date)
  {
    && (forall i :: 0 <= i < |rows| ==> RowConsistent(rows[i]))
    && (|rows| > 0 ==> OpeningRow(rows[0], req))
    && (forall i :: 0 < i < |rows| ==> NextRow(rows[i - 1], rows[i], req, start))
  }

  /** With details on, the running totals are those of the last row (or the initial sum before any row). */
  predicate StateMatches(st: SimState, req: AnalysisRequest)
  {
    if |st.details| == 0 then st.totalInvestment == req.initialInvestment
    else
      var last := st.details[|st.details| - 1];
      st.totalInvestment == last.totalInvestment && st.totalUnits == last.totalUnits && st.previousValue == last.value
  }

  /** The row one detailed month appends: consistent, and the opening row or a successor of the last one. */
  lemma NewRowFollows(st: SimState, o: Observation, req: AnalysisRequest, start: CalendarDate)
    requires req.includeMonthlyDetails && o.value != 0.0
    requires StateMatches(st, req)
    requires |st.details| > 0 ==> MonthIndex(st.details[|st.details| - 1].date) < MonthIndex(o.date)
    ensures var next := SampledMonth(st, o, req, start);
            var n := |st.details|;
            && next.details == st.details + [next.details[n]]
            && next.details[n].date == o.date
            && RowConsistent(next.details[n])
            && (n == 0 ==> OpeningRow(next.details[n], req))
            && (n > 0 ==> NextRow(st.details[n - 1], next.details[n], req, start))
            && StateMatches(next, req)
  {
  }

  /** One detailed month extends the ledger by a row that follows the previous one. */
  lemma LedgerStep(st: SimState, o: Observation, req: AnalysisRequest, start: CalendarDate)
    requires req.includeMonthlyDetails && o.value != 0.0
    requires Ledger(st.details, req, start) && StateMatches(st, req)
    requires |st.details| > 0 ==> MonthIndex(st.details[|st.details| - 1].date) < MonthIndex(o.date)
    ensures var next := SampledMonth(st, o, req, start);
            && next.details == st.details + [next.details[|st.details|]]
            && next.details[|st.details|].date == o.date
            && Ledger(next.details, req, start) && StateMatches(next, req)
  {
    var next := SampledMonth(st, o, req, start);
    var rows := next.details;
    var n := |st.details|;
    NewRowFollows(st, o, req, start);
    assert rows == st.details + [rows[n]];
    forall i | 0 < i < |rows|
      ensures NextRow(rows[i - 1], rows[i], req, start)
    {
      if i < n {
        assert rows[i - 1] == st.details[i - 1] && rows[i] == st.details[i];
      }
    }
  }

  lemma PrefixTransitive<T>(a: seq<T>, b: seq<T>, c: seq<T>)
    requires a <= b && b <= c
    ensures a <= c
  {
    assert forall i :: 0 <= i < |a| ==> a[i] == b[i] == c[i];
  }

  /**
   * With details on, the loop keeps the ledger: it only appends rows, every row follows the one
   * before it, and the final totals are those of the last row.
   */
  lemma {:induction false} LedgerKept(samples: map<MonthKey, Observation>, req: AnalysisRequest, start: CalendarDate,
                                      end: CalendarDate, cur: CalendarDate, st: SimState)
    requires WellKeyed(samples) && req.includeMonthlyDetails
    requires Ledger(st.details, req, start) && StateMatches(st, req)
    requires |st.details| > 0 ==> MonthIndex(st.details[|st.details| - 1].date) < MonthIndex(cur)
    ensures var f := Simulation(samples, req, start, end, cur, st);
            st.details <= f.details && Ledger(f.details, req, start) && StateMatches(f, req)
    decreases MonthIndex(end) - MonthIndex(cur)
  {
    if MonthIndex(cur) > MonthIndex(end) {
    } else if !Sampled(samples, cur) {
      NextMonthAdvances(cur);
      var after := SetMonth(cur, cur.month + 1);
      assert Simulation(samples, req, start, end, cur, st) == Simulation(samples, req, start, end, after, st);
      LedgerKept(samples, req, start, end, after, st);
    } else {
      var o := samples[KeyOf(cur)];
      SampledAdvances(samples, cur);
      LedgerStep(st, o, req, start);
      var next := SampledMonth(st, o, req, start);
      var after := SetMonth(o.date, o.date.month + 1);
      assert MonthIndex(next.details[|next.details| - 1].date) < MonthIndex(after);
      var f := Simulation(samples, req, start, end, after, next);
      assert Simulation(samples, req, start, end, cur, st) == f;
      LedgerKept(samples, req, start, end, after, next);
      PrefixTransitive(st.details, next.details, f.details);
    }
  }

  /** A row is the sample of its own month (same date and price), in a month numbered `lo` through `hi`. */
  predicate RowFromSample(samples: map<MonthKey, Observation>, row: MonthlyDetail, lo: int, hi: int)
  {
    && KeyOf(row.date) in samples
    && samples[KeyOf(row.date)].date == row.date
    && samples[KeyOf(row.date)].value == row.unitPrice
    && lo <= MonthIndex(row.date) <= hi
  }

  /** A sampled month appends at most one row, and that row is the month's sample. */
  lemma AppendedRowFromSample(samples: map<MonthKey, Observation>, req: AnalysisRequest, start: CalendarDate,
                              end: CalendarDate, cur: CalendarDate, st: SimState)
    requires WellKeyed(samples) && Sampled(samples, cur) && MonthIndex(cur) <= MonthIndex(end)
    ensures var next := SampledMonth(st, samples[KeyOf(cur)], req, start);
            && st.details <= next.details && |next.details| <= |st.details| + 1
            && (|next.details| > |st.details| ==>
                  RowFromSample(samples, next.details[|st.details|], MonthIndex(cur), MonthIndex(end)))
  {
    var o := samples[KeyOf(cur)];
    assert KeyOf(o.date) == KeyOf(cur);
  }

  /**
   * Every row the loop appends is a sampled month's observation (its date and price), in a month
   * from `cur` up to the month of `end`.
   */
  lemma {:induction false} RowsFromSamples(samples: map<MonthKey, Observation>, req: AnalysisRequest, start: CalendarDate,
                                           end: CalendarDate, cur: CalendarDate, st: SimState)
    requires WellKeyed(samples)
    ensures var f := Simulation(samples, req, start, end, cur, st);
            && st.details <= f.details
            && forall i :: |st.details| <= i < |f.details| ==>
                 RowFromSample(samples, f.details[i], MonthIndex(cur), MonthIndex(end))
    decreases MonthIndex(end) - MonthIndex(cur)
  {
    if MonthIndex(cur) > MonthIndex(end) {
    } else if !Sampled(samples, cur) {
      NextMonthAdvances(cur);
      var after := SetMonth(cur, cur.month + 1);
      var f := Simulation(samples, req, start, end, after, st);
      assert Simulation(samples, req, start, end, cur, st) == f;
      RowsFromSamples(samples, req, start, end, after, st);
      forall i | |st.details| <= i < |f.details|
        ensures RowFromSample(samples, f.details[i], MonthIndex(cur), MonthIndex(end))
      {
        assert RowFromSample(samples, f.details[i], MonthIndex(after), MonthIndex(end));
      }
    } else {
      var o := samples[KeyOf(cur)];
      SampledAdvances(samples, cur);
      var next := SampledMonth(st, o, req, start);
      var after := SetMonth(o.date, o.date.month + 1);
      AppendedRowFromSample(samples, req, start, end, cur, st);
      var f := Simulation(samples, req, start, end, after, next);
      assert Simulation(samples, req, start, end, cur, st) == f;
      RowsFromSamples(samples, req, start, end, after, next);
      forall i | |st.details| <= i < |f.details|
        ensures RowFromSample(samples, f.details[i], MonthIndex(cur), MonthIndex(end))
      {
        if i < |next.details| {
          assert f.details[i] == next.details[i];
        } else {
          assert RowFromSample(samples, f.details[i], MonthIndex(after), MonthIndex(end));
        }
      }
    }
  }

  /** With positive prices, the invested total and the units held never decrease from one row to a later one. */
  lemma {:induction false} LedgerGrows(rows: seq<MonthlyDetail>, req: AnalysisRequest, start: Date, i: int, j: int)
    requires Ledger(rows, req, start)
    requires forall k :: 0 <= k < |rows| ==> rows[k].unitPrice > 0.0
    requires 0 <= i <= j < |rows|
    ensures rows[i].totalInvestment <= rows[j].totalInvestment
    ensures rows[i].totalUnits <= rows[j].totalUnits
    decreases j - i
  {
    if i < j {
      LedgerGrows(rows, req, start, i, j - 1);
      assert NextRow(rows[j - 1], rows[j], req, start);
      if rows[j].investment > 0.0 {
        assert rows[j].units > 0.0 by {
          assert rows[j].units == rows[j].investment / rows[j].unitPrice;
        }
      }
    }
  }

  /**
   * As written, "first month" means "no row emitted yet": with details off no row is ever
   * emitted, so every sampled month re-buys the initial sum and no contribution is ever added.
   */
  lemma {:induction false} DetailsOffKeepsInvestment(samples: map<MonthKey, Observation>, req: AnalysisRequest,
                                                     start: CalendarDate, end: CalendarDate, cur: CalendarDate, st: SimState)
    requires WellKeyed(samples) && !req.includeMonthlyDetails && st.details == []
    ensures var f := Simulation(samples, req, start, end, cur, st);
            f.totalInvestment == st.totalInvestment && f.details == []
    decreases MonthIndex(end) - MonthIndex(cur)
  {
    if MonthIndex(cur) > MonthIndex(end) {
    } else if !Sampled(samples, cur) {
      NextMonthAdvances(cur);
      var after := SetMonth(cur, cur.month + 1);
      assert Simulation(samples, req, start, end, cur, st) == Simulation(samples, req, start, end, after, st);
      DetailsOffKeepsInvestment(samples, req, start, end, after, st);
    } else {
      var o := samples[KeyOf(cur)];
      SampledAdvances(samples, cur);
      var after := SetMonth(o.date, o.date.month + 1);
      var next := SampledMonth(st, o, req, start);
      assert Simulation(samples, req, start, end, cur, st) == Simulation(samples, req, start, end, after, next);
      DetailsOffKeepsInvestment(samples, req, start, end, after, next);
    }
  }

  /** A two-month plan: one sample per month, each at price 10. */
  function TwoMonthSamples(): (samples: map<MonthKey, Observation>)
    ensures WellKeyed(samples)
  {
    map[(2024, 0) := Observation("AAA", Date(2024, 0, 1), 10.0),
        (2024, 1) := Observation("AAA", Date(2024, 1, 1), 10.0)]
  }

  function TwoMonthRequest(details: bool): AnalysisRequest
  {
    AnalysisRequest("AAA", YearStart, 1000.0, 100.0, YearlyIncrease(Amount, 0.0), details)
  }

  /**
   * The same two months with 1000 up front and 100 a month: with details on the second month's 100
   * is invested, with details off it is not, and the second month re-buys the initial sum instead.
   */
  lemma DetailsFlagChangesTotals()
    ensures Simulation(TwoMonthSamples(), TwoMonthRequest(true), Date(2024, 0, 1), Date(2024, 1, 1),
                       Date(2024, 0, 1), InitialState(TwoMonthRequest(true))).totalInvestment == 1100.0
    ensures Simulation(TwoMonthSamples(), TwoMonthRequest(false), Date(2024, 0, 1), Date(2024, 1, 1),
                       Date(2024, 0, 1), InitialState(TwoMonthRequest(false))).totalInvestment == 1000.0
  {
    var samples := TwoMonthSamples();
    var jan: CalendarDate := Date(2024, 0, 1);
    var feb: CalendarDate := Date(2024, 1, 1);
    var mar: CalendarDate := Date(2024, 2, 1);
    assert SetMonth(jan, 1) == feb;
    assert SetMonth(feb, 2) == mar;
    assert KeyOf(jan) == (2024, 0) && KeyOf(feb) == (2024, 1);
    var on := TwoMonthRequest(true);
    var s1 := SampledMonth(InitialState(on), samples[(2024, 0)], on, jan);
    assert s1.totalInvestment == 1000.0 && |s1.details| == 1;
    var s2 := SampledMonth(s1, samples[(2024, 1)], on, jan);
    assert s2.totalInvestment == 1100.0;
    assert Simulation(samples, on, jan, feb, mar, s2) == s2;
    assert Simulation(samples, on, jan, feb, feb, s1) == s2;
    DetailsOffKeepsInvestment(samples, TwoMonthRequest(false), jan, feb, jan, InitialState(TwoMonthRequest(false)));
  }

  // ----- The evidently intended first-month test -----

  /** One sampled month where "first month" means that no month has been processed yet, whatever the details flag. */
  function IntendedMonth(st: SimState, o: Observation, req: AnalysisRequest, start: CalendarDate, started: bool): SimState
    requires o.value != 0.0
  {
    MonthStep(st, o, req, MonthlyContribution(req.monthlyInvestment, o.date, start, req.yearlyIncrease), !started)
  }

  /** The loop with the first month tracked by its own flag `started` instead of by the emitted rows. */
  function IntendedSimulation(samples: map<MonthKey, Observation>, req: AnalysisRequest, start: CalendarDate,
                              end: CalendarDate, cur: CalendarDate, st: SimState, started: bool): SimState
    requires WellKeyed(samples)
    decreases MonthIndex(end) - MonthIndex(cur)
  {
    if MonthIndex(cur) > MonthIndex(end) then st
    else if !Sampled(samples, cur) then
      IntendedSimulation(samples, req, start, end, SetMonth(cur, cur.month + 1), st, started)
    else
      var o := samples[KeyOf(cur)];
      IntendedSimulation(samples, req, start, end, SetMonth(o.date, o.date.month + 1),
                         IntendedMonth(st, o, req, start, started), true)
  }

  /** A month's new totals depend only on the running totals, the price, the contribution and the first-month test. */
  lemma StepTotals(st1: SimState, st2: SimState, o: Observation, req1: AnalysisRequest, req2: AnalysisRequest,
                   contribution: real, isFirstMonth: bool)
    requires o.value != 0.0 && req1.initialInvestment == req2.initialInvestment
    requires st1.totalInvestment == st2.totalInvestment && st1.totalUnits == st2.totalUnits
    ensures var a := MonthStep(st1, o, req1, contribution, isFirstMonth);
            var b := MonthStep(st2, o, req2, contribution, isFirstMonth);
            a.totalInvestment == b.totalInvestment && a.totalUnits == b.totalUnits && a.previousValue == b.previousValue
  {
  }

  /** One sampled month keeps the intended and the detailed states in step. */
  lemma IntendedStepMatches(st: SimState, detailed: SimState, o: Observation, req: AnalysisRequest,
                            start: CalendarDate, started: bool)
    requires o.value != 0.0
    requires started <==> |detailed.details| > 0
    requires st.totalInvestment == detailed.totalInvestment && st.totalUnits == detailed.totalUnits
    ensures var a := IntendedMonth(st, o, req, start, started);
            var b := SampledMonth(detailed, o, req.(includeMonthlyDetails := true), start);
            && a.totalInvestment == b.totalInvestment && a.totalUnits == b.totalUnits
            && a.previousValue == b.previousValue && |b.details| > 0
  {
    StepTotals(st, detailed, o, req, req.(includeMonthlyDetails := true),
               MonthlyContribution(req.monthlyInvestment, o.date, start, req.yearlyIncrease), !started);
  }

  /**
   * The intended totals do not depend on the details flag: they are the totals the code as written
   * computes with details on, whether details are requested or not.
   */
  lemma {:induction false} IntendedTotalsIgnoreDetails(samples: map<MonthKey, Observation>, req: AnalysisRequest,
                                                       start: CalendarDate, end: CalendarDate, cur: CalendarDate,
                                                       st: SimState, started: bool, detailed: SimState)
    requires WellKeyed(samples)
    requires started <==> |detailed.details| > 0
    requires st.totalInvestment == detailed.totalInvestment && st.totalUnits == detailed.totalUnits
    requires st.previousValue == detailed.previousValue
    ensures var f := IntendedSimulation(samples, req, start, end, cur, st, started);
            var g := Simulation(samples, req.(includeMonthlyDetails := true), start, end, cur, detailed);
            f.totalInvestment == g.totalInvestment && f.totalUnits == g.totalUnits
    decreases MonthIndex(end) - MonthIndex(cur)
  {
    var on := req.(includeMonthlyDetails := true);
    if MonthIndex(cur) > MonthIndex(end) {
    } else if !Sampled(samples, cur) {
      NextMonthAdvances(cur);
      var after := SetMonth(cur, cur.month + 1);
      assert IntendedSimulation(samples, req, start, end, cur, st, started)
             == IntendedSimulation(samples, req, start, end, after, st, started);
      assert Simulation(samples, on, start, end, cur, detailed) == Simulation(samples, on, start, end, after, detailed);
      IntendedTotalsIgnoreDetails(samples, req, start, end, after, st, started, detailed);
    } else {
      var o := samples[KeyOf(cur)];
      SampledAdvances(samples, cur);
      var a := IntendedMonth(st, o, req, start, started);
      var b := SampledMonth(detailed, o, on, start);
      IntendedStepMatches(st, detailed, o, req, start, started);
      var after := SetMonth(o.date, o.date.month + 1);
      assert IntendedSimulation(samples, req, start, end, cur, st, started)
             == IntendedSimulation(samples, req, start, end, after, a, true);
      assert Simulation(samples, on, start, end, cur, detailed) == Simulation(samples, on, start, end, after, b);
      IntendedTotalsIgnoreDetails(samples, req, start, end, after, a, true, b);
    }
  }

  /** With details on, the intended loop and the loop as written are the same computation. */
  lemma {:induction false} IntendedAgreesWhenDetailed(samples: map<MonthKey, Observation>, req: AnalysisRequest,
                                                      start: CalendarDate, end: CalendarDate, cur: CalendarDate, st: SimState)
    requires WellKeyed(samples) && req.includeMonthlyDetails
    ensures IntendedSimulation(samples, req, start, end, cur, st, |st.details| > 0)
            == Simulation(samples, req, start, end, cur, st)
    decreases MonthIndex(end) - MonthIndex(cur)
  {
    if MonthIndex(cur) > MonthIndex(end) {
    } else if !Sampled(samples, cur) {
      NextMonthAdvances(cur);
      var after := SetMonth(cur, cur.month + 1);
      assert Simulation(samples, req, start, end, cur, st) == Simulation(samples, req, start, end, after, st);
      IntendedAgreesWhenDetailed(samples, req, start, end, after, st);
    } else {
      var o := samples[KeyOf(cur)];
      SampledAdvances(samples, cur);
      var next := SampledMonth(st, o, req, start);
      assert |next.details| > 0;
      var after := SetMonth(o.date, o.date.month + 1);
      assert Simulation(samples, req, start, end, cur, st) == Simulation(samples, req, start, end, after, next);
      IntendedAgreesWhenDetailed(samples, req, start, end, after, next);
    }
  }

  // ----- Moving on from a month-end sample -----

  /** Whether month number `i` (as counted by `MonthIndex`) has a usable sample. */
  predicate SampledAt(samples: map<MonthKey, Observation>, i: int)
  {
    var k := (i / 12, i % 12);
    k in samples && samples[k].value != 0.0
  }

  /** How many of the months numbered `lo` through `hi` have a usable sample. */
  function SampledMonthsBetween(samples: map<MonthKey, Observation>, lo: int, hi: int): nat
    decreases hi - lo
  {
    if lo > hi then 0
    else (if SampledAt(samples, lo) then 1 else 0) + SampledMonthsBetween(samples, lo + 1, hi)
  }

  /** A date's month key is its month number split into year and month. */
  lemma KeyOfIndex(d: CalendarDate)
    ensures KeyOf(d) == (MonthIndex(d) / 12, MonthIndex(d) % 12)
  {
    assert d.year * 12 + d.month == 12 * d.year + d.month;
  }

  /**
   * Sample data for a plan started "3 months" back on 31 March 2024: samples on 31 January,
   * 29 February and 29 March, each at price 10.
   */
  function MonthEndSamples(): (samples: map<MonthKey, Observation>)
    ensures WellKeyed(samples)
  {
    map[(2024, 0) := Observation("AAA", Date(2024, 0, 31), 10.0),
        (2024, 1) := Observation("AAA", Date(2024, 1, 29), 10.0),
        (2024, 2) := Observation("AAA", Date(2024, 2, 29), 10.0)]
  }

  function MonthEndRequest(): AnalysisRequest
  {
    AnalysisRequest("AAA", ThreeMonthsAgo, 1000.0, 100.0, YearlyIncrease(Amount, 0.0), true)
  }

  /**
   * As written, moving on from the January sample's own date (31 January) with `setMonth` lands on
   * 2 March: February is never visited although it has a sample, so three sampled months give two rows.
   */
  lemma MonthEndSampleSkipsFebruary()
    ensures GetStartDate(ThreeMonthsAgo, Date(2024, 2, 31)) == Date(2024, 0, 31)
    ensures SampledMonthsBetween(MonthEndSamples(), MonthIndex(Date(2024, 0, 31)), MonthIndex(Date(2024, 2, 31))) == 3
    ensures |Simulation(MonthEndSamples(), MonthEndRequest(), Date(2024, 0, 31), Date(2024, 2, 31),
                        Date(2024, 0, 31), InitialState(MonthEndRequest())).details| == 2
  {
    var samples := MonthEndSamples();
    var req := MonthEndRequest();
    var start: CalendarDate := Date(2024, 0, 31);
    var end: CalendarDate := Date(2024, 2, 31);
    var mar2: CalendarDate := Date(2024, 2, 2);
    var apr29: CalendarDate := Date(2024, 3, 29);
    assert SetMonth(end, 0) == start;
    assert SetMonth(samples[(2024, 0)].date, 1) == mar2;
    assert SetMonth(samples[(2024, 2)].date, 3) == apr29;
    assert KeyOf(start) == (2024, 0) && KeyOf(mar2) == (2024, 2);
    assert SampledAt(samples, 24288) && SampledAt(samples, 24289) && SampledAt(samples, 24290);
    var s1 := SampledMonth(InitialState(req), samples[(2024, 0)], req, start);
    var s2 := SampledMonth(s1, samples[(2024, 2)], req, start);
    assert |s2.details| == 2;
    assert Simulation(samples, req, start, end, apr29, s2) == s2;
    assert Simulation(samples, req, start, end, mar2, s1) == s2;
  }

  /** The first day of the calendar month after `d`'s. */
  function MonthAfter(d: Date): (r: CalendarDate)
    ensures MonthIndex(r) == MonthIndex(d) + 1 && r.day == 1
  {
    Compose(MonthIndex(d) + 1, 1)
  }

  /** The loop stepping by calendar month, whatever day the month was sampled on. */
  function MonthByMonthSimulation(samples: map<MonthKey, Observation>, req: AnalysisRequest, start: CalendarDate,
                                  end: CalendarDate, cur: CalendarDate, st: SimState): SimState
    decreases MonthIndex(end) - MonthIndex(cur)
  {
    if MonthIndex(cur) > MonthIndex(end) then st
    else
      var next := if Sampled(samples, cur) then SampledMonth(st, samples[KeyOf(cur)], req, start) else st;
      MonthByMonthSimulation(samples, req, start, end, MonthAfter(cur), next)
  }

  /** Stepping by calendar month, every sampled month from `cur` through `end` adds exactly one row. */
  lemma {:induction false} MonthByMonthVisitsEverySample(samples: map<MonthKey, Observation>, req: AnalysisRequest,
                                                         start: CalendarDate, end: CalendarDate, cur: CalendarDate,
                                                         st: SimState)
    requires req.includeMonthlyDetails
    ensures |MonthByMonthSimulation(samples, req, start, end, cur, st).details|
            == |st.details| + SampledMonthsBetween(samples, MonthIndex(cur), MonthIndex(end))
    decreases MonthIndex(end) - MonthIndex(cur)
  {
    if MonthIndex(cur) <= MonthIndex(end) {
      KeyOfIndex(cur);
      var next := if Sampled(samples, cur) then SampledMonth(st, samples[KeyOf(cur)], req, start) else st;
      assert |next.details| == |st.details| + (if SampledAt(samples, MonthIndex(cur)) then 1 else 0);
      MonthByMonthVisitsEverySample(samples, req, start, end, MonthAfter(cur), next);
    }
  }

  /**
   * The body of the loop for a month with a usable sample (lines 152-197): buy units at the
   * sample's price and, when details are requested, append the month's row.
   */
  method ProcessMonth(monthData: Observation, req: AnalysisRequest, startDate: CalendarDate,
                      totalInvestment0: real, totalUnits0: real, previousValue: real, monthlyDetails0: seq<MonthlyDetail>)
    returns (totalInvestment: real, totalUnits: real, currentValue: real, monthlyDetails: seq<MonthlyDetail>)
    requires monthData.value != 0.0
    ensures SimState(totalInvestment, totalUnits, currentValue, monthlyDetails)
            == SampledMonth(SimState(totalInvestment0, totalUnits0, previousValue, monthlyDetails0), monthData, req, startDate)
  {
    totalInvestment, totalUnits, monthlyDetails := totalInvestment0, totalUnits0, monthlyDetails0;
    var currentDate := monthData.date;
    var isFirstMonth := |monthlyDetails| == 0;
    var monthlyInvestment := MonthlyContribution(req.monthlyInvestment, currentDate, startDate, req.yearlyIncrease);

    if isFirstMonth {
      totalUnits := req.initialInvestment / monthData.value;
    } else if monthlyInvestment > 0.0 {
      totalInvestment := totalInvestment + monthlyInvestment;
      var newUnits := monthlyInvestment / monthData.value;
      totalUnits := totalUnits + newUnits;
    }

    currentValue := totalUnits * monthData.value;
    var investment := if isFirstMonth then 0.0 else monthlyInvestment;
    var yieldAmount := currentValue - totalInvestment;
    var yieldPercentage :=
      if isFirstMonth then Some(0.0)
      else PercentOf(currentValue - (previousValue + monthlyInvestment), previousValue + monthlyInvestment);

    if req.includeMonthlyDetails {
      monthlyDetails := monthlyDetails + [MonthlyDetail(
        currentDate, investment, totalInvestment, monthData.value,
        if isFirstMonth then totalUnits else monthlyInvestment / monthData.value,
        totalUnits, currentValue, yieldAmount, yieldPercentage)];
    }
  }

  /** Lines 131-201: the month-by-month loop. */
  method Simulate(monthlyFundData: map<MonthKey, Observation>, req: AnalysisRequest, startDate: CalendarDate, endDate: CalendarDate)
    returns (totalInvestment: real, totalUnits: real, monthlyDetails: seq<MonthlyDetail>)
    requires WellKeyed(monthlyFundData)
    ensures var final := Simulation(monthlyFundData, req, startDate, endDate, startDate, InitialState(req));
            totalInvestment == final.totalInvestment && totalUnits == final.totalUnits
            && monthlyDetails == final.details
  {
    totalInvestment := req.initialInvestment;
    totalUnits := 0.0;
    var previousValue := 0.0;
    monthlyDetails := [];
    var currentDate := startDate;
    var endYear, endMonth := endDate.year, endDate.month;
    ghost var goal := Simulation(monthlyFundData, req, startDate, endDate, startDate, InitialState(req));

    while currentDate.year < endYear || (currentDate.year == endYear && currentDate.month <= endMonth)
      invariant Simulation(monthlyFundData, req, startDate, endDate, currentDate,
                           SimState(totalInvestment, totalUnits, previousValue, monthlyDetails)) == goal
      decreases MonthIndex(endDate) - MonthIndex(currentDate)
    {
      var monthKey := KeyOf(currentDate);
      if monthKey !in monthlyFundData || monthlyFundData[monthKey].value == 0.0 {
        currentDate := SetMonth(currentDate, currentDate.month + 1);
        continue;
      }
      var monthData := monthlyFundData[monthKey];
      currentDate := monthData.date;
      totalInvestment, totalUnits, previousValue, monthlyDetails :=
        ProcessMonth(monthData, req, startDate, totalInvestment, totalUnits, previousValue, monthlyDetails);
      currentDate := SetMonth(currentDate, currentDate.month + 1);
    }
  }

  // ----- Summary and the whole analysis -----

  /** The summary from the final totals and the price of the last fetched observation. */
  function Summarize(totalInvestment: real, totalUnits: real, lastPrice: real): (s: Summary)
    ensures s.totalInvestment == totalInvestment
    ensures s.currentValue == totalUnits * lastPrice
    ensures s.currentValue - s.totalYield == totalInvestment
    ensures s.totalYieldPercentage.None? <==> totalInvestment == 0.0
    ensures s.totalYieldPercentage.Some? ==> s.totalYieldPercentage.value * totalInvestment == s.totalYield * 100.0
  {
    var lastValue := totalUnits * lastPrice;
    var totalYield := lastValue - totalInvestment;
    Summary(totalInvestment, lastValue, totalYield, PercentOf(totalYield, totalInvestment))
  }

  /** What a successful analysis returns, for today's date `now`, the fund record and its non-empty price series. */
  function AnalysisOf(req: AnalysisRequest, now: CalendarDate, fund: Fund, fundData: seq<Observation>): AnalysisResponse
    requires fundData != []
  {
    var start := GetStartDate(req.startDate, now);
    var final := Simulation(MonthlySamples(fundData, now.day), req, start, now, start, InitialState(req));
    AnalysisResponse(
      fund.code, fund.managementCompanyId, fund.title,
      Summarize(final.totalInvestment, final.totalUnits, fundData[|fundData| - 1].value),
      if req.includeMonthlyDetails then Some(final.details) else None)
  }

  /**
   * A detailed analysis reports a ledger: rows that follow one another as the ledger says, each the
   * sampled observation of a month between the start month and the current month, and a summary
   * whose invested total is that of the last row.
   */
  lemma DetailedAnalysis(req: AnalysisRequest, now: CalendarDate, fund: Fund, fundData: seq<Observation>)
    requires req.includeMonthlyDetails && fundData != []
    ensures var a := AnalysisOf(req, now, fund, fundData);
            var start := GetStartDate(req.startDate, now);
            && a.monthlyDetails.Some?
            && Ledger(a.monthlyDetails.value, req, start)
            && (a.monthlyDetails.value == [] ==> a.summary.totalInvestment == req.initialInvestment)
            && (a.monthlyDetails.value != [] ==>
                  a.summary.totalInvestment == a.monthlyDetails.value[|a.monthlyDetails.value| - 1].totalInvestment)
            && forall i :: 0 <= i < |a.monthlyDetails.value| ==>
                 && (exists j :: 0 <= j < |fundData| && fundData[j].date == a.monthlyDetails.value[i].date
                                                     && fundData[j].value == a.monthlyDetails.value[i].unitPrice)
                 && MonthIndex(start) <= MonthIndex(a.monthlyDetails.value[i].date) <= MonthIndex(now)
  {
    var start := GetStartDate(req.startDate, now);
    var samples := MonthlySamples(fundData, now.day);
    LedgerKept(samples, req, start, now, start, InitialState(req));
    RowsFromSamples(samples, req, start, now, start, InitialState(req));
    var rows := AnalysisOf(req, now, fund, fundData).monthlyDetails.value;
    forall i | 0 <= i < |rows|
      ensures exists j :: 0 <= j < |fundData| && fundData[j].date == rows[i].date && fundData[j].value == rows[i].unitPrice
      ensures MonthIndex(start) <= MonthIndex(rows[i].date) <= MonthIndex(now)
    {
      assert RowFromSample(samples, rows[i], MonthIndex(start), MonthIndex(now));
      SampleFromSeries(fundData, now.day, KeyOf(rows[i].date));
    }
  }

  /** Without details, no rows are reported and the invested total is the initial sum alone, whatever the contributions. */
  lemma UndetailedAnalysis(req: AnalysisRequest, now: CalendarDate, fund: Fund, fundData: seq<Observation>)
    requires !req.includeMonthlyDetails && fundData != []
    ensures AnalysisOf(req, now, fund, fundData).monthlyDetails == None
    ensures AnalysisOf(req, now, fund, fundData).summary.totalInvestment == req.initialInvestment
  {
    var start := GetStartDate(req.startDate, now);
    DetailsOffKeepsInvestment(MonthlySamples(fundData, now.day), req, start, now, start, InitialState(req));
  }

  /**
   * Lines 80-218. `fund` and `fundData` are the results of the two database reads; `now` is the
   * clock. A missing fund and an empty series are errors raised before any simulation.
   */
  method Analyze(req: AnalysisRequest, now: CalendarDate, fund: Option<Fund>, fundData: seq<Observation>)
    returns (result: Result<AnalysisResponse, AnalysisError>)
    ensures fund.None? ==> result == Failure(FundNotFound)
    ensures fund.Some? && fundData == [] ==> result == Failure(NoHistoricalData)
    ensures fund.Some? && fundData != [] ==> result == Success(AnalysisOf(req, now, fund.value, fundData))
  {
    var startDate := GetStartDate(req.startDate, now);
    var endDate := now;
    if fund.None? {
      return Failure(FundNotFound);
    }
    if |fundData| == 0 {
      return Failure(NoHistoricalData);
    }
    var monthlyFundData := SampleMonths(fundData, now);
    var totalInvestment, totalUnits, monthlyDetails := Simulate(monthlyFundData, req, startDate, endDate);
    var summary := Summarize(totalInvestment, totalUnits, fundData[|fundData| - 1].value);
    var f := fund.value;
    result := Success(AnalysisResponse(f.code, f.managementCompanyId, f.title, summary,
                                       if req.includeMonthlyDetails then Some(monthlyDetails) else None));
  }
}
