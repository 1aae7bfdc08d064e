/**
 * The query builders: from the request's query-string parameters to the filter, ordering and
 * paging options handed to the ORM, and the HAVING clause of the company listing. SQL fragments
 * are kept as opaque tokens; page and limit arrive already parsed as integers.
 */
module QueryBuilder {
  import opened Basics
  import opened Text

  /** A key of a `where` object: a column name, or one of the two operator keys. */
  datatype WhereKey = Column(name: string) | OrKey | AndKey

  /** How a historical subquery groups a fund's prices before keeping each group's last date. */
  datatype Grouping = ByWeek | ByMonth

  /** The condition stored under a key. */
  datatype Condition =
    | Equals(value: string)
    | IsTrue(flag: bool)
    | Like(pattern: string)
    | Range(gte: Option<string>, lte: Option<string>)
    | AnyOf(alternatives: seq<(string, Condition)>)
    | LatestDateIn(grouping: Grouping)

  type Where = map<WhereKey, Condition>

  /** `%text%`: a substring match. */
  function Contains(text: string): string
  {
    "%" + text + "%"
  }

  /** A match of `search` in either the code or the title. */
  function SearchCondition(search: string): Condition
  {
    AnyOf([("code", Like(Contains(search))), ("title", Like(Contains(search)))])
  }

  /** The bound taken from a parameter when it is given. */
  function BoundOf(q: Query, name: string): (b: Option<string>)
    ensures b.Some? <==> Given(q, name)
    ensures b.Some? ==> b.value == q[name]
  {
    if Given(q, name) then Some(q[name]) else None
  }

  /** The seven yield columns, each filterable by `min_<column>` and `max_<column>`. */
  const YIELD_FIELDS: seq<string> :=
    ["yield_1m", "yield_3m", "yield_6m", "yield_ytd", "yield_1y", "yield_3y", "yield_5y"]

  /** The keys of the yield columns. */
  function YieldColumns(): set<WhereKey>
  {
    set i | 0 <= i < |YIELD_FIELDS| :: Column(YIELD_FIELDS[i])
  }

  /** The keys a fund filter may set besides the yield columns. */
  function FundFilterKeys(): (keys: set<WhereKey>)
    ensures keys !! YieldColumns()
  {
    {Column("type"), Column("management_company_id"), Column("tefas"), Column("code"), OrKey}
  }

  /** A yield column's filter, when it has one: the lower bound from `min_`, the upper from `max_`. */
  predicate YieldFilterAt(where: Where, q: Query, field: string)
  {
    && (Column(field) in where <==> Given(q, "min_" + field) || Given(q, "max_" + field))
    && (Column(field) in where ==> where[Column(field)] == Range(BoundOf(q, "min_" + field), BoundOf(q, "max_" + field)))
  }

  /** `limit` defaults to 20 and `page` to 1; the offset skips the earlier pages. */
  function Paging(page: Option<int>, limit: Option<int>): (r: (int, int))
    ensures limit.None? ==> r.0 == 20
    ensures limit.Some? ==> r.0 == limit.value
    ensures page.None? ==> r.1 == 0
    ensures r.1 == (IntOr(page, 1) - 1) * r.0
  {
    var l := IntOr(limit, 20);
    (l, (IntOr(page, 1) - 1) * l)
  }

  /** With a page of at least 1 and a positive limit, the offset is a non-negative multiple of the limit and page p starts where p - 1 ends. */
  lemma PagingTiles(page: int, limit: int)
    requires page >= 1 && limit >= 1
    ensures Paging(Some(page), Some(limit)).1 >= 0
    ensures Paging(Some(page + 1), Some(limit)).1 == Paging(Some(page), Some(limit)).1 + limit
  {
  }

  /** Lines 48-57: a range filter for each yield column that has a bound; every other key is kept. */
  method AddYieldFilters(q: Query, base: Where) returns (where: Where)
    requires base.Keys !! YieldColumns()
    ensures forall i :: 0 <= i < |YIELD_FIELDS| ==> YieldFilterAt(where, q, YIELD_FIELDS[i])
    ensures forall k :: k in base ==> k in where && where[k] == base[k]
    ensures where.Keys <= base.Keys + YieldColumns()
  {
    where := base;
    for i := 0 to |YIELD_FIELDS|
      invariant forall j :: 0 <= j < i ==> YieldFilterAt(where, q, YIELD_FIELDS[j])
      invariant forall j :: i <= j < |YIELD_FIELDS| ==> Column(YIELD_FIELDS[j]) !in where
      invariant forall k :: k in base ==> k in where && where[k] == base[k]
      invariant where.Keys <= base.Keys + YieldColumns()
    {
      var field := YIELD_FIELDS[i];
      var min := BoundOf(q, "min_" + field);
      var max := BoundOf(q, "max_" + field);
      if min.Some? || max.Some? {
        var range := Range(None, None);
        if min.Some? {
          range := range.(gte := min);
        }
        if max.Some? {
          range := range.(lte := max);
        }
        where := where[Column(field) := range];
      }
    }
  }

  /**
   * Lines 23-72. `page` and `limit` are the parsed values of those parameters when they are given.
   */
  method BuildFundFilters(q: Query, page: Option<int>, limit: Option<int>)
    returns (where: Where, lim: int, offset: int)
    ensures (lim, offset) == Paging(page, limit)
    ensures Column("type") in where <==> Given(q, "type")
    ensures Column("type") in where ==> where[Column("type")] == Equals(q["type"])
    ensures Column("management_company_id") in where <==> Given(q, "management_company")
    ensures Column("management_company_id") in where ==>
              where[Column("management_company_id")] == Equals(q["management_company"])
    ensures Column("tefas") in where <==> "tefas" in q
    ensures Column("tefas") in where ==> where[Column("tefas")] == IsTrue(q["tefas"] == "true")
    ensures Column("code") in where <==> Given(q, "code")
    ensures Column("code") in where ==> where[Column("code")] == Like(Contains(q["code"]))
    ensures forall i :: 0 <= i < |YIELD_FIELDS| ==> YieldFilterAt(where, q, YIELD_FIELDS[i])
    ensures OrKey in where <==> Given(q, "search")
    ensures OrKey in where ==> where[OrKey] == SearchCondition(q["search"])
    ensures where.Keys <= FundFilterKeys() + YieldColumns()
  {
    where := map[];
    lim := IntOr(limit, 20);
    offset := (IntOr(page, 1) - 1) * lim;

    if Given(q, "type") {
      where := where[Column("type") := Equals(q["type"])];
    }
    if Given(q, "management_company") {
      where := where[Column("management_company_id") := Equals(q["management_company"])];
    }
    if "tefas" in q {
      where := where[Column("tefas") := IsTrue(q["tefas"] == "true")];
    }
    if Given(q, "code") {
      where := where[Column("code") := Like(Contains(q["code"]))];
    }
    assert where.Keys <= FundFilterKeys();
    where := AddYieldFilters(q, where);

    if Given(q, "search") {
      ghost var before := where;
      where := where[OrKey := SearchCondition(q["search"])];
      forall i | 0 <= i < |YIELD_FIELDS|
        ensures YieldFilterAt(where, q, YIELD_FIELDS[i])
      {
        assert YieldFilterAt(before, q, YIELD_FIELDS[i]);
      }
    }
  }

  /** Lines 74-108: the date range from its two bounds and, for a non-daily interval, the latest-date subquery. */
  method BuildHistoricalValueFilters(q: Query) returns (where: Where)
    ensures Column("date") in where <==> Given(q, "start_date") || Given(q, "end_date")
    ensures Column("date") in where ==> where[Column("date")] == Range(BoundOf(q, "start_date"), BoundOf(q, "end_date"))
    ensures AndKey in where <==> Given(q, "interval") && q["interval"] != "daily"
    ensures AndKey in where ==> where[AndKey] == LatestDateIn(if q["interval"] == "weekly" then ByWeek else ByMonth)
    ensures forall k :: k in where ==> k == Column("date") || k == AndKey
  {
    where := map[];
    if Given(q, "start_date") || Given(q, "end_date") {
      var range := Range(None, None);
      if Given(q, "start_date") {
        range := range.(gte := Some(q["start_date"]));
      }
      if Given(q, "end_date") {
        range := range.(lte := Some(q["end_date"]));
      }
      where := where[Column("date") := range];
    }
    if Given(q, "interval") && q["interval"] != "daily" {
      var grouping := if q["interval"] == "weekly" then ByWeek else ByMonth;
      where := where[AndKey := LatestDateIn(grouping)];
    }
  }

  // ----- Companies -----

  /** The six HAVING filters in the order they are emitted: parameter name and condition prefix. */
  const HAVING_FILTERS: seq<(string, string)> := [
    ("min_total_funds", "COUNT(FundYield.code) >= "),
    ("max_total_funds", "COUNT(FundYield.code) <= "),
    ("min_avg_yield_1m", "AVG(FundYield.yield_1m) >= "),
    ("max_avg_yield_1m", "AVG(FundYield.yield_1m) <= "),
    ("min_avg_yield_1y", "AVG(FundYield.yield_1y) >= "),
    ("max_avg_yield_1y", "AVG(FundYield.yield_1y) <= ")]

  /** The conditions of the given filters among `filters`, in order, each the prefix followed by the parameter's text. */
  function HavingConditions(q: Query, filters: seq<(string, string)>): (conds: seq<string>)
    ensures |conds| <= |filters|
    ensures conds == [] <==> forall i :: 0 <= i < |filters| ==> !Given(q, filters[i].0)
  {
    if filters == [] then []
    else
      var n := |filters| - 1;
      var earlier := HavingConditions(q, filters[..n]);
      assert forall i :: 0 <= i < n ==> filters[i] == filters[..n][i];
      if Given(q, filters[n].0) then earlier + [filters[n].1 + q[filters[n].0]] else earlier
  }

  /** Every condition is a filter's prefix followed by the text of its parameter, and every given filter has one. */
  lemma {:induction false} HavingConditionsOfGiven(q: Query, filters: seq<(string, string)>)
    ensures forall c :: c in HavingConditions(q, filters) ==>
              exists i :: 0 <= i < |filters| && Given(q, filters[i].0) && c == filters[i].1 + q[filters[i].0]
    ensures forall i :: 0 <= i < |filters| && Given(q, filters[i].0) ==>
              filters[i].1 + q[filters[i].0] in HavingConditions(q, filters)
  {
    if filters != [] {
      var n := |filters| - 1;
      HavingConditionsOfGiven(q, filters[..n]);
      forall i | 0 <= i < n
        ensures filters[i] == filters[..n][i]
      {
      }
    }
  }

  /** The conditions of the first `k + 1` filters: those of the first `k`, then filter `k`'s own if given. */
  lemma HavingStep(q: Query, filters: seq<(string, string)>, k: int)
    requires 0 <= k < |filters|
    ensures HavingConditions(q, filters[..k + 1])
            == HavingConditions(q, filters[..k]) + (if Given(q, filters[k].0) then [filters[k].1 + q[filters[k].0]] else [])
  {
    assert filters[..k + 1][..k] == filters[..k];
  }

  /** Lines 145-168: the conditions joined with " AND ", or "1=1" when there are none. */
  method BuildCompanyHavingClause(q: Query) returns (clause: string)
    ensures var conds := HavingConditions(q, HAVING_FILTERS);
            clause == if conds == [] then "1=1" else Join(conds, " AND ")
  {
    var conditions: seq<string> := [];
    assert HAVING_FILTERS[..0] == [];
    HavingStep(q, HAVING_FILTERS, 0);
    if Given(q, "min_total_funds") {
      conditions := conditions + ["COUNT(FundYield.code) >= " + q["min_total_funds"]];
    }
    assert conditions == HavingConditions(q, HAVING_FILTERS[..1]);
    HavingStep(q, HAVING_FILTERS, 1);
    if Given(q, "max_total_funds") {
      conditions := conditions + ["COUNT(FundYield.code) <= " + q["max_total_funds"]];
    }
    assert conditions == HavingConditions(q, HAVING_FILTERS[..2]);
    HavingStep(q, HAVING_FILTERS, 2);
    if Given(q, "min_avg_yield_1m") {
      conditions := conditions + ["AVG(FundYield.yield_1m) >= " + q["min_avg_yield_1m"]];
    }
    assert conditions == HavingConditions(q, HAVING_FILTERS[..3]);
    HavingStep(q, HAVING_FILTERS, 3);
    if Given(q, "max_avg_yield_1m") {
      conditions := conditions + ["AVG(FundYield.yield_1m) <= " + q["max_avg_yield_1m"]];
    }
    assert conditions == HavingConditions(q, HAVING_FILTERS[..4]);
    HavingStep(q, HAVING_FILTERS, 4);
    if Given(q, "min_avg_yield_1y") {
      conditions := conditions + ["AVG(FundYield.yield_1y) >= " + q["min_avg_yield_1y"]];
    }
    assert conditions == HavingConditions(q, HAVING_FILTERS[..5]);
    HavingStep(q, HAVING_FILTERS, 5);
    if Given(q, "max_avg_yield_1y") {
      conditions := conditions + ["AVG(FundYield.yield_1y) <= " + q["max_avg_yield_1y"]];
    }
    assert HAVING_FILTERS[..6] == HAVING_FILTERS;
    clause := if |conditions| > 0 then Join(conditions, " AND ") else "1=1";
  }

  /** A non-empty join of conditions never reads "1=1": every condition starts with an aggregate. */
  lemma HavingTrivialOnlyWithoutFilters(q: Query)
    ensures var conds := HavingConditions(q, HAVING_FILTERS);
            (if conds == [] then "1=1" else Join(conds, " AND ")) == "1=1"
            <==> forall i :: 0 <= i < |HAVING_FILTERS| ==> !Given(q, HAVING_FILTERS[i].0)
  {
    var conds := HavingConditions(q, HAVING_FILTERS);
    if conds != [] {
      HavingConditionsOfGiven(q, HAVING_FILTERS);
      assert conds[0] in conds;
      var i :| 0 <= i < |HAVING_FILTERS| && Given(q, HAVING_FILTERS[i].0) && conds[0] == HAVING_FILTERS[i].1 + q[HAVING_FILTERS[i].0];
      JoinStartsWithFirst(conds, " AND ");
      assert Join(conds, " AND ")[0] == conds[0][0];
      assert conds[0][0] in "CA";
    }
  }

  /** A join starts with its first piece. */
  lemma JoinStartsWithFirst(parts: seq<string>, sep: string)
    requires |parts| >= 1
    ensures |Join(parts, sep)| >= |parts[0]| && Join(parts, sep)[..|parts[0]|] == parts[0]
  {
    if |parts| > 1 {
      assert Join(parts, sep) == parts[0] + (sep + Join(parts[1..], sep));
    }
  }

  /** The ordering of the company listing: by title ascending, or by the requested column and direction (ascending by default). */
  function CompanyOrder(q: Query): (order: seq<(string, string)>)
    ensures |order| == 1
    ensures !Given(q, "sort") ==> order == [("title", "ASC")]
    ensures Given(q, "sort") ==> order[0].0 == q["sort"] && order[0].1 == ValueOr(q, "order", "ASC")
  {
    if Given(q, "sort") then [(q["sort"], ValueOr(q, "order", "ASC"))] else [("title", "ASC")]
  }

  /** Lines 110-143: paging, the search filter and the ordering of the company listing; the HAVING clause is built separately. */
  method BuildCompanyFilters(q: Query, page: Option<int>, limit: Option<int>)
    returns (where: Where, order: seq<(string, string)>, lim: int, offset: int, having: string)
    ensures (lim, offset) == Paging(page, limit)
    ensures OrKey in where <==> Given(q, "search")
    ensures OrKey in where ==> where[OrKey] == SearchCondition(q["search"])
    ensures forall k :: k in where ==> k == OrKey
    ensures order == CompanyOrder(q)
    ensures var conds := HavingConditions(q, HAVING_FILTERS);
            having == if conds == [] then "1=1" else Join(conds, " AND ")
  {
    where := map[];
    var p := IntOr(page, 1);
    lim := IntOr(limit, 20);
    offset := (p - 1) * lim;
    if Given(q, "search") {
      where := where[OrKey := SearchCondition(q["search"])];
    }
    order := [("title", "ASC")];
    if Given(q, "sort") {
      order := [(q["sort"], ValueOr(q, "order", "ASC"))];
    }
    having := BuildCompanyHavingClause(q);
  }
}
