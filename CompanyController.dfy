/**
 * The computations of the company endpoints: the null-aware average of a yield column, the
 * paging, filter and ordering decisions of the company listing, and the statistics of a company's
 * detail page, including its five best funds by one-year yield. Database reads are inputs.
 */
module CompanyController {
  import opened Basics
  import opened Text
  import opened QueryBuilder

  // ----- The null-aware average -----

  /** The values that are not null, in order. */
  function Present(values: seq<Option<real>>): (r: seq<real>)
    ensures |r| <= |values|
    ensures |r| == 0 <==> forall i :: 0 <= i < |values| ==> values[i].None?
  {
    if values == [] then []
    else
      var rest := Present(values[1..]);
      assert forall i :: 1 <= i < |values| ==> values[i] == values[1..][i - 1];
      if values[0].Some? then [values[0].value] + rest else rest
  }

  /** Every non-null value is kept, and nothing else. */
  lemma {:induction false} PresentMembers(values: seq<Option<real>>)
    ensures forall x :: x in Present(values) <==> Some(x) in values
  {
    if values != [] {
      PresentMembers(values[1..]);
      assert values == [values[0]] + values[1..];
    }
  }

  function Sum(xs: seq<real>): real
  {
    if xs == [] then 0.0 else xs[0] + Sum(xs[1..])
  }

  /** Lines 7-12: the mean of the non-null values, or null when there is none. */
  function Average(values: seq<Option<real>>): (r: Option<real>)
    ensures r.None? <==> forall i :: 0 <= i < |values| ==> values[i].None?
  {
    var present := Present(values);
    if |present| > 0 then Some(Sum(present) / |present| as real) else None
  }

  /** A sum of values between `lo` and `hi` lies between `n * lo` and `n * hi`. */
  lemma {:induction false} SumBetween(xs: seq<real>, lo: real, hi: real)
    requires forall x :: x in xs ==> lo <= x <= hi
    ensures |xs| as real * lo <= Sum(xs) <= |xs| as real * hi
  {
    if xs != [] {
      assert xs[0] in xs;
      assert Sum(xs) == xs[0] + Sum(xs[1..]);
      assert forall x :: x in xs[1..] ==> x in xs;
      SumBetween(xs[1..], lo, hi);
      var n := |xs[1..]| as real;
      assert |xs| as real == n + 1.0;
      assert (n + 1.0) * lo == n * lo + lo;
      assert (n + 1.0) * hi == n * hi + hi;
    }
  }

  /** A quotient by a positive count keeps the bounds the count scales. */
  lemma QuotientBetween(sum: real, n: real, lo: real, hi: real)
    requires n > 0.0 && n * lo <= sum <= n * hi
    ensures lo <= sum / n <= hi
  {
    var q := sum / n;
    assert q * n == sum;
  }

  /** The average lies within any bounds of the values it averages, so between their minimum and maximum. */
  lemma AverageBetween(values: seq<Option<real>>, lo: real, hi: real)
    requires forall i :: 0 <= i < |values| && values[i].Some? ==> lo <= values[i].value <= hi
    ensures Average(values).Some? ==> lo <= Average(values).value <= hi
  {
    var present := Present(values);
    if |present| > 0 {
      PresentMembers(values);
      forall x | x in present
        ensures lo <= x <= hi
      {
        var i :| 0 <= i < |values| && values[i] == Some(x);
      }
      SumBetween(present, lo, hi);
      QuotientBetween(Sum(present), |present| as real, lo, hi);
    }
  }

  // ----- Funds and their yields -----

  /** The yield columns of a fund. */
  datatype YieldField = Yield1m | Yield3m | Yield6m | YieldYtd | Yield1y | Yield3y | Yield5y

  /** A fund row as the detail page reads it; a yield may be null. */
  datatype FundRow = FundRow(
    code: string, title: string, fundType: string,
    yield1m: Option<real>, yield3m: Option<real>, yield6m: Option<real>, yieldYtd: Option<real>,
    yield1y: Option<real>, yield3y: Option<real>, yield5y: Option<real>)

  function YieldOf(f: FundRow, field: YieldField): Option<real>
  {
    match field
    case Yield1m => f.yield1m
    case Yield3m => f.yield3m
    case Yield6m => f.yield6m
    case YieldYtd => f.yieldYtd
    case Yield1y => f.yield1y
    case Yield3y => f.yield3y
    case Yield5y => f.yield5y
  }

  /** One yield column of a list of funds. */
  function YieldsOf(funds: seq<FundRow>, field: YieldField): (r: seq<Option<real>>)
    ensures |r| == |funds|
    ensures forall i :: 0 <= i < |funds| ==> r[i] == YieldOf(funds[i], field)
  {
    seq(|funds|, i requires 0 <= i < |funds| => YieldOf(funds[i], field))
  }

  // ----- listCompanies -----

  /** The column a company listing is ordered by. */
  datatype OrderColumn = TotalFunds | CompanyCode | CompanyTitle | AverageYield(column: string)

  /** What the listing asks of the database: paging, the optional search and fund-count filters, and the ordering. */
  datatype ListingPlan = ListingPlan(
    page: int, limit: int, offset: int,
    search: Option<Condition>,
    fundCount: Option<(int, int)>,
    orderBy: OrderColumn, direction: string)

  /** Lines 52-64: the ordering for a sort name and an upper-cased direction. */
  function OrderFor(sort: string, direction: string): (r: (OrderColumn, string))
    ensures sort == "total_funds" ==> r == (TotalFunds, direction)
    ensures sort == "code" ==> r == (CompanyCode, direction)
    ensures sort == "title" ==> r == (CompanyTitle, direction)
    ensures sort !in {"total_funds", "code", "title"} && StartsWith(sort, "avg_yield") ==> r == (AverageYield(sort), direction)
    ensures sort !in {"total_funds", "code", "title"} && !StartsWith(sort, "avg_yield") ==> r == (CompanyCode, "ASC")
  {
    if sort == "total_funds" then (TotalFunds, direction)
    else if sort == "code" then (CompanyCode, direction)
    else if sort == "title" then (CompanyTitle, direction)
    else if StartsWith(sort, "avg_yield") then (AverageYield(sort), direction)
    else (CompanyCode, "ASC")
  }

  /**
   * Lines 15-64. `page`, `limit`, `minTotalFunds` and `maxTotalFunds` are the parsed values of those
   * parameters when they are given.
   */
  function ListCompaniesPlan(q: Query, page: Option<int>, limit: Option<int>,
                             minTotalFunds: Option<int>, maxTotalFunds: Option<int>): (plan: ListingPlan)
    ensures plan.page == IntOr(page, 1) && plan.limit == IntOr(limit, 20)
    ensures plan.offset == (plan.page - 1) * plan.limit
    ensures plan.search.Some? <==> Given(q, "search")
    ensures plan.search.Some? ==> plan.search.value == SearchCondition(q["search"])
    ensures plan.fundCount.Some? <==> IntOr(minTotalFunds, 0) > 0 || IntOr(maxTotalFunds, 999999) < 999999
    ensures plan.fundCount.Some? ==> plan.fundCount.value == (IntOr(minTotalFunds, 0), IntOr(maxTotalFunds, 999999))
  {
    var p := IntOr(page, 1);
    var l := IntOr(limit, 20);
    var sort := ValueOr(q, "sort", "code");
    var direction := ToUpper(ValueOr(q, "order", "ASC"));
    var minFunds := IntOr(minTotalFunds, 0);
    var maxFunds := IntOr(maxTotalFunds, 999999);
    var (orderBy, dir) := OrderFor(sort, direction);
    ListingPlan(p, l, (p - 1) * l,
                if Given(q, "search") then Some(SearchCondition(q["search"])) else None,
                if minFunds > 0 || maxFunds < 999999 then Some((minFunds, maxFunds)) else None,
                orderBy, dir)
  }

  /**
   * The listing is ordered by code ascending when no sort is given; a sort it does not know also
   * gives code ascending, whatever order was asked for; a known sort keeps the asked order, upper-cased.
   */
  lemma ListingOrder(q: Query, page: Option<int>, limit: Option<int>, minTotalFunds: Option<int>, maxTotalFunds: Option<int>)
    ensures var plan := ListCompaniesPlan(q, page, limit, minTotalFunds, maxTotalFunds);
            var sort := ValueOr(q, "sort", "code");
            && (!Given(q, "sort") ==> plan.orderBy == CompanyCode && plan.direction == ToUpper(ValueOr(q, "order", "ASC")))
            && (sort !in {"total_funds", "code", "title"} && !StartsWith(sort, "avg_yield") ==>
                  plan.orderBy == CompanyCode && plan.direction == "ASC")
            && (sort in {"total_funds", "code", "title"} || StartsWith(sort, "avg_yield") ==>
                  plan.direction == ToUpper(ValueOr(q, "order", "ASC")))
  {
  }

  /** No fund has a value for `field`. */
  predicate NoneHave(funds: seq<FundRow>, field: YieldField)
  {
    forall i :: 0 <= i < |funds| ==> YieldOf(funds[i], field).None?
  }

  /** The averages the listing reports for each company. */
  datatype YieldAverages = YieldAverages(
    avg1m: Option<real>, avg6m: Option<real>, avgYtd: Option<real>,
    avg1y: Option<real>, avg3y: Option<real>, avg5y: Option<real>)

  /** Lines 101-109: each average over the company's funds, null when no fund has that yield. */
  function AveragesOf(funds: seq<FundRow>): (a: YieldAverages)
    ensures a.avg1m.None? <==> NoneHave(funds, Yield1m)
    ensures a.avg6m.None? <==> NoneHave(funds, Yield6m)
    ensures a.avgYtd.None? <==> NoneHave(funds, YieldYtd)
    ensures a.avg1y.None? <==> NoneHave(funds, Yield1y)
    ensures a.avg3y.None? <==> NoneHave(funds, Yield3y)
    ensures a.avg5y.None? <==> NoneHave(funds, Yield5y)
  {
    YieldAverages(
      Average(YieldsOf(funds, Yield1m)), Average(YieldsOf(funds, Yield6m)), Average(YieldsOf(funds, YieldYtd)),
      Average(YieldsOf(funds, Yield1y)), Average(YieldsOf(funds, Yield3y)), Average(YieldsOf(funds, Yield5y)))
  }

  // ----- getCompanyDetails -----

  /** A best-performing fund as reported: the fund without its three-month yield. */
  datatype FundSummary = FundSummary(
    code: string, title: string, fundType: string,
    yield1m: Option<real>, yield6m: Option<real>, yieldYtd: Option<real>,
    yield1y: Option<real>, yield3y: Option<real>, yield5y: Option<real>)

  function Summarize(f: FundRow): FundSummary
  {
    FundSummary(f.code, f.title, f.fundType, f.yield1m, f.yield6m, f.yieldYtd, f.yield1y, f.yield3y, f.yield5y)
  }

  /** The one-year yield as the sort compares it. */
  function Key(f: FundRow): real
  {
    if f.yield1y.Some? then f.yield1y.value else 0.0
  }

  predicate SortedDescending(s: seq<FundRow>)
  {
    forall i, j :: 0 <= i < j < |s| ==> Key(s[j]) <= Key(s[i])
  }

  /** The funds with a one-year yield, in their original order. */
  function WithYield1y(funds: seq<FundRow>): (r: seq<FundRow>)
    ensures |r| <= |funds|
    ensures forall i :: 0 <= i < |r| ==> r[i].yield1y.Some?
    ensures multiset(r) <= multiset(funds)
    ensures forall f :: f in funds && f.yield1y.Some? ==> f in r
  {
    if funds == [] then []
    else
      var rest := WithYield1y(funds[1..]);
      assert funds == [funds[0]] + funds[1..];
      if funds[0].yield1y.Some? then [funds[0]] + rest else rest
  }

  /** Places `x` before the first element whose key is not above its own. */
  function InsertDescending(x: FundRow, sorted: seq<FundRow>): (r: seq<FundRow>)
    ensures |r| == |sorted| + 1
    ensures multiset(r) == multiset(sorted) + multiset{x}
  {
    if sorted == [] then [x]
    else if Key(sorted[0]) <= Key(x) then [x] + sorted
    else
      assert sorted == [sorted[0]] + sorted[1..];
      [sorted[0]] + InsertDescending(x, sorted[1..])
  }

  /** Inserting into a sorted sequence keeps it sorted. */
  lemma {:induction false} InsertKeepsSorted(x: FundRow, sorted: seq<FundRow>)
    requires SortedDescending(sorted)
    ensures SortedDescending(InsertDescending(x, sorted))
  {
    if sorted != [] && Key(x) < Key(sorted[0]) {
      var tail := sorted[1..];
      var rest := InsertDescending(x, tail);
      InsertKeepsSorted(x, tail);
      forall j | 0 <= j < |rest|
        ensures Key(rest[j]) <= Key(sorted[0])
      {
        assert rest[j] in multiset(rest);
        if rest[j] != x {
          assert rest[j] in multiset(tail);
          var m :| 0 <= m < |tail| && tail[m] == rest[j];
          assert sorted[m + 1] == rest[j];
        }
      }
    }
  }

  /**
   * Line 181: a stable sort by one-year yield, highest first; an earlier element goes before a
   * later one with the same yield.
   */
  function SortDescending(s: seq<FundRow>): (r: seq<FundRow>)
    ensures multiset(r) == multiset(s)
    ensures SortedDescending(r)
  {
    if s == [] then []
    else
      assert s == [s[0]] + s[1..];
      InsertKeepsSorted(s[0], SortDescending(s[1..]));
      InsertDescending(s[0], SortDescending(s[1..]))
  }

  function Min(a: int, b: int): int
  {
    if a <= b then a else b
  }

  /** Lines 180-193: the first five of the funds with a one-year yield, sorted by it, without their three-month yield. */
  function BestPerforming(funds: seq<FundRow>): (best: seq<FundSummary>)
    ensures |best| == Min(5, |WithYield1y(funds)|)
  {
    var ranked := SortDescending(WithYield1y(funds));
    assert |ranked| == |multiset(ranked)| == |WithYield1y(funds)|;
    var k := Min(5, |ranked|);
    seq(k, i requires 0 <= i < k => Summarize(ranked[i]))
  }

  /** The ranked funds all have a one-year yield. */
  lemma RankedHaveYield(funds: seq<FundRow>)
    ensures var ranked := SortDescending(WithYield1y(funds));
            forall i :: 0 <= i < |ranked| ==> ranked[i].yield1y.Some?
  {
    var valid := WithYield1y(funds);
    var ranked := SortDescending(valid);
    forall i | 0 <= i < |ranked|
      ensures ranked[i].yield1y.Some?
    {
      assert ranked[i] in multiset(valid);
      var j :| 0 <= j < |valid| && valid[j] == ranked[i];
    }
  }

  /** The ranked funds are funds of the company. */
  lemma RankedFromFunds(funds: seq<FundRow>)
    ensures var ranked := SortDescending(WithYield1y(funds));
            forall i :: 0 <= i < |ranked| ==> ranked[i] in funds
  {
    var valid := WithYield1y(funds);
    var ranked := SortDescending(valid);
    forall i | 0 <= i < |ranked|
      ensures ranked[i] in funds
    {
      assert ranked[i] in multiset(valid);
      assert ranked[i] in multiset(funds);
    }
  }

  /** In a sorted sequence, nothing after the first `k` has a higher key than any of them. */
  lemma PrefixDominates(ranked: seq<FundRow>, k: nat)
    requires SortedDescending(ranked) && k <= |ranked|
    ensures forall f :: f in multiset(ranked) - multiset(ranked[..k]) ==>
              forall i :: 0 <= i < k ==> Key(f) <= Key(ranked[i])
  {
    assert ranked == ranked[..k] + ranked[k..];
    forall f | f in multiset(ranked) - multiset(ranked[..k])
      ensures forall i :: 0 <= i < k ==> Key(f) <= Key(ranked[i])
    {
      assert f in multiset(ranked[k..]);
      var j :| 0 <= j < |ranked[k..]| && ranked[k..][j] == f;
      assert ranked[k + j] == f;
    }
  }

  /**
   * The best performers are the first of the company's funds with a one-year yield ranked highest
   * first, each reported without its three-month yield.
   */
  lemma BestPerformingRanked(funds: seq<FundRow>)
    ensures var best := BestPerforming(funds);
            var ranked := SortDescending(WithYield1y(funds));
            && multiset(ranked) == multiset(WithYield1y(funds))
            && (forall i :: 0 <= i < |best| ==> best[i] == Summarize(ranked[i]) && ranked[i] in funds)
            && (forall i :: 0 <= i < |best| ==> best[i].yield1y.Some?)
            && (forall i, j :: 0 <= i < j < |best| ==> best[j].yield1y.value <= best[i].yield1y.value)
  {
    RankedHaveYield(funds);
    RankedFromFunds(funds);
  }

  /** No fund with a one-year yield that was left out of the best performers has a higher one than any chosen. */
  lemma BestPerformingAreTop(funds: seq<FundRow>)
    ensures var best := BestPerforming(funds);
            var ranked := SortDescending(WithYield1y(funds));
            forall f :: f in multiset(WithYield1y(funds)) - multiset(ranked[..|best|]) ==>
              f.yield1y.Some? &&
              forall i :: 0 <= i < |best| ==> best[i].yield1y.Some? && f.yield1y.value <= best[i].yield1y.value
  {
    var valid := WithYield1y(funds);
    var ranked := SortDescending(valid);
    var best := BestPerforming(funds);
    var k := |best|;
    BestPerformingRanked(funds);
    PrefixDominates(ranked, k);
    forall f | f in multiset(valid) - multiset(ranked[..k])
      ensures f.yield1y.Some? && forall i :: 0 <= i < k ==> best[i].yield1y.Some? && f.yield1y.value <= best[i].yield1y.value
    {
      assert f in multiset(valid);
      var m :| 0 <= m < |valid| && valid[m] == f;
      forall i | 0 <= i < k
        ensures best[i].yield1y.Some? && f.yield1y.value <= best[i].yield1y.value
      {
        assert Key(f) <= Key(ranked[i]);
        assert best[i].yield1y == ranked[i].yield1y;
      }
    }
  }

  /** The statistics block of a company's detail page. */
  datatype CompanyStats = CompanyStats(totalFunds: int, averages: YieldAverages, best: seq<FundSummary>)

  /** Lines 152-194: the fund count, each yield's average over the funds that have it, and the best performers. */
  function StatsOf(funds: seq<FundRow>): (s: CompanyStats)
    ensures s.totalFunds == |funds|
    ensures s.averages.avg1y.None? <==> NoneHave(funds, Yield1y)
    ensures |s.best| <= 5 && |s.best| <= |funds|
  {
    CompanyStats(|funds|, AveragesOf(funds), BestPerforming(funds))
  }

  /** Line 135: the funds are included unless `include_funds` is exactly "false". */
  predicate IncludeFunds(q: Query)
  {
    !("include_funds" in q && q["include_funds"] == "false")
  }

  datatype CompanyDetails<Company> = CompanyDetails(company: Company, stats: CompanyStats, funds: Option<seq<FundRow>>)

  datatype DetailsResponse<Company> = CompanyNotFound | Details(body: CompanyDetails<Company>)

  /** Lines 133-200: 404 without a company; otherwise its statistics and, unless turned off, its funds. */
  function GetCompanyDetails<Company>(q: Query, company: Option<Company>, funds: seq<FundRow>): (r: DetailsResponse<Company>)
    ensures company.None? <==> r.CompanyNotFound?
    ensures r.Details? ==> r.body.stats == StatsOf(funds)
    ensures r.Details? ==> (r.body.funds.Some? <==> IncludeFunds(q))
    ensures r.Details? && r.body.funds.Some? ==> r.body.funds.value == funds
  {
    if company.None? then CompanyNotFound
    else Details(CompanyDetails(company.value, StatsOf(funds), if IncludeFunds(q) then Some(funds) else None))
  }

  /** Any `include_funds` other than "false" keeps the funds, "0" and "no" included. */
  lemma OnlyFalseExcludes(q: Query)
    requires "include_funds" in q
    ensures IncludeFunds(q) <==> q["include_funds"] != "false"
  {
  }
}
