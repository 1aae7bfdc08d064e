/**
 * The per-route daily request counter. A table keyed by route type and client address holds a
 * count and the time the count expires; each request resets, rejects or increments its own entry.
 * The clock (`now`, the start of today `dayStart`, both in milliseconds) and the whitelist test are
 * inputs.
 */
module RateLimiter {
  import opened Basics

  /** The limits of one route family: short-term maximum, short-term window, daily maximum. */
  datatype Limits = Limits(max: int, windowMinutes: int, dailyMax: int)

  const STANDARD_LIMITS := Limits(25, 15, 100)

  /** Lines 11-18: the table, keyed by the upper-case family names. */
  function RateLimits(): (table: map<string, Limits>)
    ensures forall t :: t in table ==> table[t] == STANDARD_LIMITS
  {
    map["FUNDS_LIST" := STANDARD_LIMITS,
        "FUND_DETAIL" := STANDARD_LIMITS,
        "FUND_HISTORY" := STANDARD_LIMITS,
        "FUND_COMPARE" := STANDARD_LIMITS,
        "COMPANIES_LIST" := STANDARD_LIMITS,
        "COMPANY_DETAIL" := STANDARD_LIMITS]
  }

  /** The type names the routes register their limiters under. */
  const ROUTE_TYPES: seq<string> :=
    ["funds-list", "comparison", "fund-detail", "historical", "companies-list", "company-detail"]

  /** One day in milliseconds. */
  const DAY_MS: int := 24 * 60 * 60 * 1000

  /** One entry of the table: requests counted so far and when the count expires. */
  datatype DailyRecord = DailyRecord(count: int, resetTime: int)

  /**
   * What the daily limiter does with a request: hand it on, answer 429, or fail because the daily
   * maximum could not be read (reading a field of `undefined` throws).
   */
  datatype DailyOutcome = PassOn | TooManyRequests | LimitLookupFailed

  /** The table entry a request is counted under. */
  function DailyKey(routeType: string, ip: string): string
  {
    routeType + "-" + ip + "-daily"
  }

  /**
   * One request against the table, given the daily maximum as looked up (None when the lookup
   * fails). Only the entry under `key` is read or written.
   */
  function DailyStepWith(records: map<string, DailyRecord>, key: string, dailyMax: Option<int>,
                         whitelisted: bool, now: int, dayStart: int): (r: (DailyOutcome, map<string, DailyRecord>))
    ensures forall k :: k != key ==> (k in r.1 <==> k in records) && (k in records ==> r.1[k] == records[k])
    ensures r.0 != PassOn ==> r.1 == records
  {
    if whitelisted then (PassOn, records)
    else if key !in records || records[key].resetTime < now then
      (PassOn, records[key := DailyRecord(1, dayStart + DAY_MS)])
    else if dailyMax.None? then (LimitLookupFailed, records)
    else if records[key].count >= dailyMax.value then (TooManyRequests, records)
    else (PassOn, records[key := records[key].(count := records[key].count + 1)])
  }

  /** The daily maximum as the code reads it: the table looked up with the raw route type. */
  function DailyMaxOf(routeType: string): (m: Option<int>)
    ensures m.Some? <==> routeType in RateLimits()
    ensures m.Some? ==> m.value == 100
  {
    if routeType in RateLimits() then Some(RateLimits()[routeType].dailyMax) else None
  }

  /** Lines 36-64: the daily limiter as written. */
  function DailyStep(records: map<string, DailyRecord>, routeType: string, ip: string,
                     whitelisted: bool, now: int, dayStart: int): (r: (DailyOutcome, map<string, DailyRecord>))
  {
    DailyStepWith(records, DailyKey(routeType, ip), DailyMaxOf(routeType), whitelisted, now, dayStart)
  }

  /**
   * What one request does to its entry: a whitelisted request changes nothing; a missing or
   * expired entry restarts at 1 until the end of today; a live entry at the maximum is refused and
   * kept; otherwise the count goes up by exactly one.
   */
  lemma DailyStepCases(records: map<string, DailyRecord>, key: string, dailyMax: Option<int>,
                       whitelisted: bool, now: int, dayStart: int)
    ensures var (outcome, after) := DailyStepWith(records, key, dailyMax, whitelisted, now, dayStart);
            && (whitelisted ==> outcome == PassOn && after == records)
            && (!whitelisted && (key !in records || records[key].resetTime < now) ==>
                  outcome == PassOn && key in after && after[key] == DailyRecord(1, dayStart + DAY_MS))
            && (!whitelisted && key in records && records[key].resetTime >= now ==>
                  && key in after
                  && after[key].resetTime == records[key].resetTime
                  && (outcome == PassOn <==> dailyMax.Some? && records[key].count < dailyMax.value)
                  && (outcome == TooManyRequests <==> dailyMax.Some? && records[key].count >= dailyMax.value)
                  && (outcome == PassOn ==> after[key].count == records[key].count + 1)
                  && (outcome != PassOn ==> after[key] == records[key]))
  {
  }

  /** A live entry never counts past the daily maximum. */
  lemma CountStaysWithinMax(records: map<string, DailyRecord>, key: string, dailyMax: int,
                            whitelisted: bool, now: int, dayStart: int)
    requires dailyMax >= 1
    requires key in records ==> records[key].count <= dailyMax
    ensures var after := DailyStepWith(records, key, Some(dailyMax), whitelisted, now, dayStart).1;
            key in after ==> after[key].count <= dailyMax
  {
  }

  /** A run of requests at the given times against one entry: how many were handed on, and the final table. */
  function Run(records: map<string, DailyRecord>, key: string, dailyMax: Option<int>, times: seq<int>, dayStart: int)
    : (r: (nat, map<string, DailyRecord>))
    ensures r.0 <= |times|
    decreases |times|
  {
    if times == [] then (0, records)
    else
      var (outcome, after) := DailyStepWith(records, key, dailyMax, false, times[0], dayStart);
      var (passed, final) := Run(after, key, dailyMax, times[1..], dayStart);
      (if outcome == PassOn then passed + 1 else passed, final)
  }

  function Min(a: int, b: int): int
  {
    if a <= b then a else b
  }

  /**
   * Within one window (every request no later than the entry's expiry), an entry that has counted
   * `c` requests lets through exactly as many more as are left of the maximum, and no more than asked.
   */
  lemma {:induction false} WindowAdmits(records: map<string, DailyRecord>, key: string, dailyMax: int,
                                        times: seq<int>, dayStart: int)
    requires key in records && 0 <= records[key].count
    requires forall i :: 0 <= i < |times| ==> times[i] <= records[key].resetTime
    ensures var c := records[key].count;
            Run(records, key, Some(dailyMax), times, dayStart).0 == Min(|times|, if c < dailyMax then dailyMax - c else 0)
    decreases |times|
  {
    if times != [] {
      var after := DailyStepWith(records, key, Some(dailyMax), false, times[0], dayStart).1;
      assert after[key].resetTime == records[key].resetTime;
      WindowAdmits(after, key, dailyMax, times[1..], dayStart);
    }
  }

  /** Once the lookup fails, a live entry refuses every request of its window and stays as it is. */
  lemma {:induction false} FailedLookupBlocksWindow(records: map<string, DailyRecord>, key: string,
                                                    times: seq<int>, dayStart: int)
    requires key in records
    requires forall i :: 0 <= i < |times| ==> times[i] <= records[key].resetTime
    ensures Run(records, key, None, times, dayStart) == (0, records)
    decreases |times|
  {
    if times != [] {
      FailedLookupBlocksWindow(records, key, times[1..], dayStart);
    }
  }

  /** None of the names the routes use is a key of the table, so every route's lookup fails. */
  lemma RouteTypesMissLimits()
    ensures forall i :: 0 <= i < |ROUTE_TYPES| ==> DailyMaxOf(ROUTE_TYPES[i]).None?
  {
    forall i | 0 <= i < |ROUTE_TYPES|
      ensures ROUTE_TYPES[i] !in RateLimits()
    {
      assert ROUTE_TYPES[i][0] in "fch";
    }
  }

  /**
   * As written, a client of the "funds-list" route gets one request a day: the first creates the
   * entry, and every later request before its expiry fails the lookup.
   */
  lemma OneRequestPerDay(records: map<string, DailyRecord>, ip: string, first: int, later: seq<int>, dayStart: int)
    requires DailyKey("funds-list", ip) !in records
    requires forall i :: 0 <= i < |later| ==> later[i] <= dayStart + DAY_MS
    ensures var key := DailyKey("funds-list", ip);
            Run(records, key, DailyMaxOf("funds-list"), [first] + later, dayStart).0 == 1
  {
    var key := DailyKey("funds-list", ip);
    RouteTypesMissLimits();
    assert DailyMaxOf(ROUTE_TYPES[0]).None?;
    var after := DailyStepWith(records, key, None, false, first, dayStart).1;
    assert ([first] + later)[1..] == later;
    FailedLookupBlocksWindow(after, key, later, dayStart);
  }

  /** The table key each route's limiter was evidently meant to read. */
  function LimitsKeyOf(routeType: string): (k: string)
    ensures routeType in ROUTE_TYPES ==> k in RateLimits()
  {
    match routeType
    case "funds-list" => "FUNDS_LIST"
    case "comparison" => "FUND_COMPARE"
    case "fund-detail" => "FUND_DETAIL"
    case "historical" => "FUND_HISTORY"
    case "companies-list" => "COMPANIES_LIST"
    case "company-detail" => "COMPANY_DETAIL"
    case _ => routeType
  }

  /** The daily limiter with each route's daily maximum read from its own table entry. */
  function IntendedDailyStep(records: map<string, DailyRecord>, routeType: string, ip: string,
                             whitelisted: bool, now: int, dayStart: int): (r: (DailyOutcome, map<string, DailyRecord>))
    requires routeType in ROUTE_TYPES
    ensures r.0 != LimitLookupFailed
  {
    DailyStepWith(records, DailyKey(routeType, ip), Some(RateLimits()[LimitsKeyOf(routeType)].dailyMax),
                  whitelisted, now, dayStart)
  }

  /** With the intended lookup, a fresh entry lets through 100 requests of a day and refuses the rest. */
  lemma IntendedAdmitsDailyMax(records: map<string, DailyRecord>, routeType: string, ip: string,
                               first: int, later: seq<int>, dayStart: int)
    requires routeType in ROUTE_TYPES && DailyKey(routeType, ip) !in records
    requires forall i :: 0 <= i < |later| ==> later[i] <= dayStart + DAY_MS
    ensures var key := DailyKey(routeType, ip);
            var dailyMax := RateLimits()[LimitsKeyOf(routeType)].dailyMax;
            Run(records, key, Some(dailyMax), [first] + later, dayStart).0 == Min(|later| + 1, 100)
  {
    var key := DailyKey(routeType, ip);
    var dailyMax := RateLimits()[LimitsKeyOf(routeType)].dailyMax;
    assert dailyMax == 100;
    var after := DailyStepWith(records, key, Some(dailyMax), false, first, dayStart).1;
    assert ([first] + later)[1..] == later;
    WindowAdmits(after, key, dailyMax, later, dayStart);
  }

  /** The table the daily limiter keeps for the lifetime of the process. */
  class DailyStore {
    var records: map<string, DailyRecord>

    constructor()
      ensures records == map[]
    {
      records := map[];
    }

    /** Lines 36-64: one request through the daily limiter, updating the entry in place. */
    method DailyLimiter(routeType: string, ip: string, whitelisted: bool, now: int, dayStart: int)
      returns (outcome: DailyOutcome)
      modifies this
      ensures (outcome, records) == DailyStep(old(records), routeType, ip, whitelisted, now, dayStart)
    {
      if whitelisted {
        return PassOn;
      }
      var key := DailyKey(routeType, ip);
      if key !in records || records[key].resetTime < now {
        records := records[key := DailyRecord(1, dayStart + DAY_MS)];
        return PassOn;
      }
      var record := records[key];
      if routeType !in RateLimits() {
        return LimitLookupFailed;
      }
      if record.count >= RateLimits()[routeType].dailyMax {
        return TooManyRequests;
      }
      record := record.(count := record.count + 1);
      records := records[key := record];
      outcome := PassOn;
    }
  }

  /** What the chain answers: handed to the route, or stopped by one of the two limiters. */
  datatype ChainOutcome = Handled | DailyLimitReached | DailyLookupFailed | ShortTermLimitReached

  /**
   * Line 66: the daily limiter runs first and the short-term limiter only sees requests the daily
   * one handed on; `shortTermAdmits` is the library limiter's verdict.
   */
  method Chain(store: DailyStore, routeType: string, ip: string, whitelisted: bool, now: int, dayStart: int,
               shortTermAdmits: bool)
    returns (result: ChainOutcome)
    modifies store
    ensures var (daily, after) := DailyStep(old(store.records), routeType, ip, whitelisted, now, dayStart);
            && store.records == after
            && (daily == TooManyRequests ==> result == DailyLimitReached)
            && (daily == LimitLookupFailed ==> result == DailyLookupFailed)
            && (daily == PassOn ==> result == (if whitelisted || shortTermAdmits then Handled else ShortTermLimitReached))
  {
    var daily := store.DailyLimiter(routeType, ip, whitelisted, now, dayStart);
    if daily == TooManyRequests {
      return DailyLimitReached;
    }
    if daily == LimitLookupFailed {
      return DailyLookupFailed;
    }
    result := if whitelisted || shortTermAdmits then Handled else ShortTermLimitReached;
  }
}
