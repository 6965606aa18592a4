/** The dashboard's analytics chart: the metric and the period it plots
    come from the page's query string, and its buttons rewrite that query
    string keeping every other parameter. Query parameters are kept as
    the ordered list of name/value pairs a `URLSearchParams` holds. */
module AnalyticsChart {
  import opened Optional
  import opened Text

  type Param = (string, string)

  // ---------------------------------------------------------------------
  // The query parameters.

  /** `params.get(name)`: the value of the first pair named `name`. */
  function Lookup(params: seq<Param>, name: string): (r: Option<string>)
    ensures r.None? <==> forall i :: 0 <= i < |params| ==> params[i].0 != name
    ensures r.Some? ==> exists i :: 0 <= i < |params| && params[i] == (name, r.value) &&
                          forall j :: 0 <= j < i ==> params[j].0 != name
  {
    if params == [] then None
    else if params[0].0 == name then Some(params[0].1)
    else
      var r := Lookup(params[1..], name);
      assert r.Some? ==> exists i :: 0 <= i < |params| && params[i] == (name, r.value) &&
                                     forall j :: 0 <= j < i ==> params[j].0 != name by {
        if r.Some? {
          var i :| 0 <= i < |params[1..]| && params[1..][i] == (name, r.value) &&
                   forall j :: 0 <= j < i ==> params[1..][j].0 != name;
          assert params[i + 1] == (name, r.value);
          forall j | 0 <= j < i + 1 ensures params[j].0 != name {
            if j > 0 { assert params[j] == params[1..][j - 1]; }
          }
        }
      }
      r
  }

  /** The pairs not named `name`, in order. */
  function Without(params: seq<Param>, name: string): (r: seq<Param>)
    ensures forall i :: 0 <= i < |r| ==> r[i].0 != name
  {
    if params == [] then []
    else (if params[0].0 == name then [] else [params[0]]) + Without(params[1..], name)
  }

  /** The pairs after the first one named `name` is set to `value` and
      the later ones named `name` are dropped (`seen` says whether the
      first one has been passed). */
  function ReplaceFirst(params: seq<Param>, name: string, value: string, seen: bool): (r: seq<Param>)
  {
    if params == [] then []
    else if params[0].0 == name then
      (if seen then [] else [(name, value)]) + ReplaceFirst(params[1..], name, value, true)
    else [params[0]] + ReplaceFirst(params[1..], name, value, seen)
  }

  /** `params.set(name, value)`, as URLSearchParams defines it: the first
      pair named `name` takes the value and the others go; with no such
      pair, one is appended. */
  function SetParam(params: seq<Param>, name: string, value: string): (r: seq<Param>)
  {
    if Lookup(params, name).Some? then ReplaceFirst(params, name, value, false) else params + [(name, value)]
  }

  lemma {:induction false} ReplaceFirstKeepsOthers(params: seq<Param>, name: string, value: string, seen: bool)
    ensures Without(ReplaceFirst(params, name, value, seen), name) == Without(params, name)
    decreases |params|
  {
    if params != [] {
      ReplaceFirstKeepsOthers(params[1..], name, value, params[0].0 == name || seen);
      var rest := ReplaceFirst(params[1..], name, value, params[0].0 == name || seen);
      if params[0].0 == name && !seen {
        assert ReplaceFirst(params, name, value, seen) == [(name, value)] + rest;
        assert ([(name, value)] + rest)[1..] == rest;
      } else {
        var head := if params[0].0 == name then [] else [params[0]];
        assert ReplaceFirst(params, name, value, seen) == head + rest;
        WithoutAppend(head, rest, name);
      }
    }
  }

  lemma {:induction false} WithoutAppend(a: seq<Param>, b: seq<Param>, name: string)
    ensures Without(a + b, name) == Without(a, name) + Without(b, name)
    decreases |a|
  {
    if a == [] {
      assert a + b == b;
    } else {
      assert (a + b)[0] == a[0] && (a + b)[1..] == a[1..] + b;
      WithoutAppend(a[1..], b, name);
      var head := if a[0].0 == name then [] else [a[0]];
      assert Without(a + b, name) == head + Without(a[1..] + b, name);
      assert Without(a, name) == head + Without(a[1..], name);
    }
  }

  lemma {:induction false} ReplaceFirstFinds(params: seq<Param>, name: string, value: string)
    requires Lookup(params, name).Some?
    ensures Lookup(ReplaceFirst(params, name, value, false), name) == Some(value)
    decreases |params|
  {
    if params[0].0 != name {
      ReplaceFirstFinds(params[1..], name, value);
    }
  }

  /** Lookups of other names see the pairs without `name` only. */
  lemma {:induction false} LookupOther(params: seq<Param>, name: string, other: string)
    requires other != name
    ensures Lookup(Without(params, name), other) == Lookup(params, other)
    decreases |params|
  {
    if params != [] {
      LookupOther(params[1..], name, other);
      var rest := Without(params[1..], name);
      if params[0].0 != name {
        assert Without(params, name) == [params[0]] + rest;
        assert ([params[0]] + rest)[0] == params[0] && ([params[0]] + rest)[1..] == rest;
      } else {
        assert Without(params, name) == [] + rest == rest;
      }
    }
  }

  /** After a set, the name reads back the value, every other name reads
      what it read before, and the pairs with other names are kept in
      order. */
  lemma SetParamSpec(params: seq<Param>, name: string, value: string, other: string)
    requires other != name
    ensures Lookup(SetParam(params, name, value), name) == Some(value)
    ensures Without(SetParam(params, name, value), name) == Without(params, name)
    ensures Lookup(SetParam(params, name, value), other) == Lookup(params, other)
  {
    var r := SetParam(params, name, value);
    if Lookup(params, name).Some? {
      ReplaceFirstFinds(params, name, value);
      ReplaceFirstKeepsOthers(params, name, value, false);
    } else {
      WithoutAppend(params, [(name, value)], name);
      assert Without([(name, value)], name) == [];
      assert Without(params, name) == Without(params, name) + [];
      LookupAppendMissing(params, name, value);
    }
    LookupOther(r, name, other);
    LookupOther(params, name, other);
  }

  lemma {:induction false} LookupAppendMissing(params: seq<Param>, name: string, value: string)
    requires Lookup(params, name).None?
    ensures Lookup(params + [(name, value)], name) == Some(value)
    decreases |params|
  {
    if params != [] {
      assert (params + [(name, value)])[1..] == params[1..] + [(name, value)];
      LookupAppendMissing(params[1..], name, value);
    }
  }

  /** A mutable `URLSearchParams`. */
  class SearchParams {
    var pairs: seq<Param>

    /** `new URLSearchParams(searchParams.toString())`: a copy. */
    constructor(from: seq<Param>)
      ensures pairs == from
    {
      pairs := from;
    }

    method Set(name: string, value: string)
      modifies this
      ensures pairs == SetParam(old(pairs), name, value)
    {
      pairs := SetParam(pairs, name, value);
    }
  }

  /** `updateRoute(newMetric, newPeriod)`: the query the page moves to. An
      empty or absent new value leaves its parameter as it was. */
  method UpdateRoute(current: seq<Param>, newMetric: Option<string>, newPeriod: Option<string>)
      returns (query: seq<Param>)
    ensures newMetric.Some? && newMetric.value != [] ==> Lookup(query, "metric") == newMetric
    ensures !(newMetric.Some? && newMetric.value != []) ==> Lookup(query, "metric") == Lookup(current, "metric")
    ensures newPeriod.Some? && newPeriod.value != [] ==> Lookup(query, "period") == newPeriod
    ensures !(newPeriod.Some? && newPeriod.value != []) ==> Lookup(query, "period") == Lookup(current, "period")
    ensures forall k :: k != "metric" && k != "period" ==> Lookup(query, k) == Lookup(current, k)
    ensures Without(Without(query, "metric"), "period") == Without(Without(current, "metric"), "period")
  {
    var params := new SearchParams(current);
    if newMetric.Some? && newMetric.value != [] {
      forall k | k != "metric"
        ensures Lookup(SetParam(params.pairs, "metric", newMetric.value), k) == Lookup(params.pairs, k)
      {
        SetParamSpec(params.pairs, "metric", newMetric.value, k);
      }
      SetParamSpec(params.pairs, "metric", newMetric.value, "period");
      params.Set("metric", newMetric.value);
    }
    ghost var mid := params.pairs;
    if newPeriod.Some? && newPeriod.value != [] {
      forall k | k != "period"
        ensures Lookup(SetParam(params.pairs, "period", newPeriod.value), k) == Lookup(params.pairs, k)
      {
        SetParamSpec(params.pairs, "period", newPeriod.value, k);
      }
      SetParamSpec(params.pairs, "period", newPeriod.value, "metric");
      WithoutCommutes(SetParam(params.pairs, "period", newPeriod.value), "metric", "period");
      WithoutCommutes(params.pairs, "metric", "period");
      params.Set("period", newPeriod.value);
    }
    query := params.pairs;
  }

  lemma {:induction false} WithoutCommutes(params: seq<Param>, a: string, b: string)
    ensures Without(Without(params, a), b) == Without(Without(params, b), a)
    decreases |params|
  {
    if params != [] {
      WithoutCommutes(params[1..], a, b);
      var head := if params[0].0 == a || params[0].0 == b then [] else [params[0]];
      var ha := if params[0].0 == a then [] else [params[0]];
      var hb := if params[0].0 == b then [] else [params[0]];
      WithoutAppend(ha, Without(params[1..], a), b);
      WithoutAppend(hb, Without(params[1..], b), a);
    }
  }

  // ---------------------------------------------------------------------
  // What the chart plots.

  /** `searchParams.get("metric") || "revenue"` */
  function Metric(params: seq<Param>): (m: string)
    ensures Lookup(params, "metric").None? ==> m == "revenue"
    ensures Lookup(params, "metric") == Some("") ==> m == "revenue"
    ensures Lookup(params, "metric").Some? && Lookup(params, "metric").value != [] ==> m == Lookup(params, "metric").value
  {
    match Lookup(params, "metric")
    case Some(v) => if v != [] then v else "revenue"
    case None => "revenue"
  }

  /** `searchParams.get("period") || "monthly"` */
  function Period(params: seq<Param>): (p: string)
    ensures Lookup(params, "period").None? ==> p == "monthly"
    ensures Lookup(params, "period") == Some("") ==> p == "monthly"
    ensures Lookup(params, "period").Some? && Lookup(params, "period").value != [] ==> p == Lookup(params, "period").value
  {
    match Lookup(params, "period")
    case Some(v) => if v != [] then v else "monthly"
    case None => "monthly"
  }

  datatype Point = Point(axisLabel: string, revenue: int, tickets: int)

  const MonthlyData: seq<Point> := [
    Point("Jan", 10, 150), Point("Feb", 15, 220), Point("Mar", 40, 450), Point("Apr", 45, 500),
    Point("May", 35, 380), Point("Jun", 30, 320), Point("Jul", 60, 650), Point("Aug", 55, 590),
    Point("Sep", 50, 540), Point("Oct", 65, 700), Point("Nov", 70, 750), Point("Dec", 80, 850)
  ]

  const WeeklyData: seq<Point> := [
    Point("Mon", 5, 50), Point("Tue", 8, 80), Point("Wed", 12, 120), Point("Thu", 10, 100),
    Point("Fri", 20, 200), Point("Sat", 35, 350), Point("Sun", 30, 300)
  ]

  const YearlyData: seq<Point> := [
    Point("2021", 150, 1500), Point("2022", 200, 2200), Point("2023", 350, 3800),
    Point("2024", 450, 4900), Point("2025", 500, 5500)
  ]

  /** `getChartData()`: weekly and yearly by name, monthly for anything
      else. */
  function ChartData(period: string): (data: seq<Point>)
    ensures period == "weekly" ==> data == WeeklyData
    ensures period == "yearly" ==> data == YearlyData
    ensures period != "weekly" && period != "yearly" ==> data == MonthlyData
  {
    if period == "weekly" then WeeklyData
    else if period == "yearly" then YearlyData
    else MonthlyData
  }

  datatype DataKey = Revenue | Tickets

  /** The plotted series: tickets only for the metric "tickets". */
  function DataKeyOf(metric: string): (k: DataKey)
    ensures k == Tickets <==> metric == "tickets"
  {
    if metric == "tickets" then Tickets else Revenue
  }

  function Plotted(p: Point, k: DataKey): int {
    match k
    case Revenue => p.revenue
    case Tickets => p.tickets
  }

  /** The tooltip's text for a plotted value: rupees in thousands for the
      metric "revenue", the bare number for any other metric. */
  function TooltipText(metric: string, val: int): (s: string)
    ensures metric == "revenue" ==> s == "₹" + IntToString(val * 1000)
    ensures metric != "revenue" ==> s == IntToString(val)
  {
    if metric == "revenue" then "₹" + IntToString(val * 1000) else IntToString(val)
  }

  /** An unknown metric plots revenue, but its tooltip shows the bare
      number without the rupee sign. */
  lemma UnknownMetricPlainRevenue(metric: string, p: Point)
    requires metric != "revenue" && metric != "tickets"
    ensures DataKeyOf(metric) == Revenue
    ensures TooltipText(metric, Plotted(p, DataKeyOf(metric))) == IntToString(p.revenue)
  {
  }

  /** The chart's minimum width. */
  function MinWidth(period: string): (w: string)
    ensures period == "yearly" <==> w == "300px"
    ensures period != "yearly" ==> w == "600px"
  {
    if period == "yearly" then "300px" else "600px"
  }

  /** Choosing a period from the menu plots that period's series, whatever
      else the query holds, and keeps the metric. */
  lemma ChoosingPeriodPlotsIt(current: seq<Param>, p: string, other: string)
    requires p != [] && other != "period"
    ensures var q := SetParam(current, "period", p);
      Period(q) == p && ChartData(Period(q)) == ChartData(p) && Metric(q) == Metric(current)
      && Lookup(q, other) == Lookup(current, other)
  {
    SetParamSpec(current, "period", p, other);
    SetParamSpec(current, "period", p, "metric");
  }
}
