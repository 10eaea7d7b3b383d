/** The demo-data generators and the per-kind update rule of the simulated
    live feed. Every `Math.random()` result is passed in as a draw in [0, 1),
    and `toLocaleDateString` of "today minus i days" as `dateLabel(i)`. */
module DemoData {
  import opened WidgetTypes
  import opened Numbers

  /** `generateRandomData(points)`: exactly `points` integers (none for a negative count), each in [0, 100). */
  function RandomData(points: int, draws: seq<real>): (r: seq<real>)
    requires points <= |draws|
    requires forall k | 0 <= k < |draws| :: IsDraw(draws[k])
    ensures |r| == if points < 0 then 0 else points
    ensures forall k | 0 <= k < |r| :: IsInteger(r[k]) && 0.0 <= r[k] < 100.0
  {
    var n := if points < 0 then 0 else points;
    seq(n, k requires 0 <= k < n => ScaledFloor(draws[k], 100) as real)
  }

  /** The labels `generateTimeSeries(days)` produces: `days + 1` dates, oldest first, today last. */
  function TimeSeries(days: int, dateLabel: int -> string): (r: seq<string>)
    decreases days
    ensures |r| == if days < 0 then 0 else days + 1
    ensures forall j | 0 <= j < |r| :: r[j] == dateLabel(days - j)
    ensures days >= 0 ==> r[|r| - 1] == dateLabel(0)
  {
    if days < 0 then [] else [dateLabel(days)] + TimeSeries(days - 1, dateLabel)
  }

  /** The loop of `generateTimeSeries`: counts `i` down from `days` to 0, pushing one label per step. */
  method GenerateTimeSeries(days: int, dateLabel: int -> string) returns (labels: seq<string>)
    ensures labels == TimeSeries(days, dateLabel)
  {
    labels := [];
    var i := days;
    while i >= 0
      invariant i <= days
      invariant labels + TimeSeries(i, dateLabel) == TimeSeries(days, dateLabel)
      decreases i
    {
      labels := labels + [dateLabel(i)];
      i := i - 1;
    }
  }

  /** `generateDemoData()`: the six fixed demo widgets. */
  function DemoWidgets(dateLabel: int -> string): (ws: seq<Widget>)
    ensures |ws| == 6
    ensures forall k | 0 <= k < |ws| :: WellTyped(ws[k])
  {
    [
      Widget("widget-1", LineChart, "Revenue Trend", Size(6, 3),
        Some(ChartPayload(ChartData(Some("revenue"), [42.0, 55.0, 49.0, 60.0, 72.0, 68.0, 82.0],
          TimeSeries(6, dateLabel), Some("#2563eb")))), None),
      Widget("widget-2", BarChart, "Weekly Users", Size(4, 3),
        Some(ChartPayload(ChartData(Some("users"), [350.0, 420.0, 380.0, 490.0, 520.0, 620.0, 590.0],
          ["Mon", "Tue", "Wed", "Thu", "Fri", "Sat", "Sun"], Some("#9333ea")))), None),
      Widget("widget-3", PieChart, "Traffic Sources", Size(3, 3),
        Some(ChartPayload(ChartData(Some("traffic"), [35.0, 25.0, 20.0, 15.0, 5.0],
          ["Direct", "Organic", "Social", "Referral", "Other"], Some("#0d9488")))), None),
      Widget("widget-4", Kpi, "Users", Size(2, 2),
        Some(KpiPayload(KpiData(1823.0, 1700.0, "Total Users", Some("")))), None),
      Widget("widget-5", Kpi, "Retention", Size(2, 2),
        Some(KpiPayload(KpiData(84.5, 82.1, "Retention", Some("%")))), None),
      Widget("widget-6", Table, "Top Products", Size(5, 3),
        Some(TablePayload(DemoTable())), None)
    ]
  }

  /** The demo table: three headers and four rows, each row holding the keys the lower-cased headers name. */
  function DemoTable(): (t: TableData)
    ensures |t.headers| == 3 && |t.rows| == 4
    ensures forall k | 0 <= k < |t.rows| :: "product" in t.rows[k] && "sales" in t.rows[k] && "status" in t.rows[k]
  {
    TableData(["Product", "Sales", "Status"], [
      map["id" := Number(1.0), "product" := Text("Widget Pro"), "sales" := Number(452.0), "status" := Text("Active")],
      map["id" := Number(2.0), "product" := Text("SuperApp"), "sales" := Number(312.0), "status" := Text("Active")],
      map["id" := Number(3.0), "product" := Text("MegaTool"), "sales" := Number(287.0), "status" := Text("Pending")],
      map["id" := Number(4.0), "product" := Text("PowerSuite"), "sales" := Number(189.0), "status" := Text("Active")]
    ])
  }

  /** Six widgets, ids widget-1 to widget-6, kinds line, bar, pie, KPI, KPI, table, every payload fitting its kind,
      and every chart with as many labels as values (7, 7 and 5). */
  lemma DemoWidgetsShape(dateLabel: int -> string)
    ensures var ws := DemoWidgets(dateLabel);
      && |ws| == 6
      && [ws[0].id, ws[1].id, ws[2].id, ws[3].id, ws[4].id, ws[5].id]
         == ["widget-1", "widget-2", "widget-3", "widget-4", "widget-5", "widget-6"]
      && [ws[0].kind, ws[1].kind, ws[2].kind, ws[3].kind, ws[4].kind, ws[5].kind]
         == [LineChart, BarChart, PieChart, Kpi, Kpi, Table]
      && AllWellTyped(ws)
      && (forall k | 0 <= k < 6 && ws[k].data.value.ChartPayload? ::
            |ws[k].data.value.chart.values| == |ws[k].data.value.chart.labels|)
      && |ws[0].data.value.chart.values| == 7
      && |ws[1].data.value.chart.values| == 7
      && |ws[2].data.value.chart.values| == 5
  {
  }

  /** The `Math.random()` results one call of `updateWidgetData` consumes, in call order. */
  datatype Draws = Draws(first: real, second: real)

  predicate ValidDraws(d: Draws)
  {
    IsDraw(d.first) && IsDraw(d.second)
  }

  /** `Math.random() * 10 * change`, where the first draw picks `change` (above 0.5 is +1). */
  function KpiStep(d: Draws): (step: real)
    requires ValidDraws(d)
    ensures -10.0 < step < 10.0
    ensures (step > 0.0 ==> d.first > 0.5) && (step < 0.0 ==> d.first <= 0.5)
  {
    if d.first > 0.5 then d.second * 10.0 else -(d.second * 10.0)
  }

  /** What one update of a widget is: identity fields kept; a line or bar series gets a new integer in [0, 100)
      as its last value and keeps everything else; a KPI moves `value` into `previousValue` and takes a rounded
      step; every other widget, and every widget without data, stays as it is. */
  predicate UpdateRule(w: Widget, r: Widget, d: Draws)
    requires ValidDraws(d)
  {
    && r.id == w.id && r.kind == w.kind && r.title == w.title && r.size == w.size && r.settings == w.settings
    && match w.data {
      case None => r.data == None
      case Some(p) =>
        if (w.kind == LineChart || w.kind == BarChart) && p.ChartPayload? then
          && r.data.Some? && r.data.value.ChartPayload?
          && var c, c' := p.chart, r.data.value.chart;
          && c'.id == c.id && c'.labels == c.labels && c'.color == c.color
          && |c'.values| == |c.values|
          && (forall k | 0 <= k < |c.values| - 1 :: c'.values[k] == c.values[k])
          && (|c.values| > 0 ==> c'.values[|c.values| - 1] == ScaledFloor(d.first, 100) as real)
        else if w.kind == Kpi && p.KpiPayload? then
          r.data == Some(KpiPayload(p.kpi.(previousValue := p.kpi.value, value := Round1(p.kpi.value + KpiStep(d)))))
        else
          r.data == w.data
    }
  }

  /** `updateWidgetData`: copies the widget, and for a line or bar chart copies the series and overwrites
      its last slot (an empty series has no last slot and stays empty). */
  method UpdateWidgetData(widget: Widget, d: Draws) returns (r: Widget)
    requires WellTyped(widget)
    requires ValidDraws(d)
    ensures UpdateRule(widget, r, d)
    ensures WellTyped(r)
  {
    r := widget;
    match widget.kind {
      case LineChart | BarChart =>
        if widget.data.Some? {
          var chart := widget.data.value.chart;
          var newValues := chart.values;
          if |newValues| > 0 {
            newValues := newValues[|newValues| - 1 := ScaledFloor(d.first, 100) as real];
          }
          r := r.(data := Some(ChartPayload(chart.(values := newValues))));
        }
      case Kpi =>
        if widget.data.Some? {
          var kpi := widget.data.value.kpi;
          var currentValue := kpi.value;
          var newValue := currentValue + KpiStep(d);
          r := r.(data := Some(KpiPayload(kpi.(previousValue := currentValue, value := Round1(newValue)))));
        }
      case PieChart =>
      case Table =>
    }
  }

  /** The rule leaves no choice: it determines the updated widget completely. */
  lemma {:induction false} UpdateRuleDeterministic(w: Widget, r1: Widget, r2: Widget, d: Draws)
    requires ValidDraws(d)
    requires UpdateRule(w, r1, d) && UpdateRule(w, r2, d)
    ensures r1 == r2
  {
    if w.data.Some? && (w.kind == LineChart || w.kind == BarChart) && w.data.value.ChartPayload? {
      var c1, c2 := r1.data.value.chart, r2.data.value.chart;
      var n := |w.data.value.chart.values|;
      assert |c1.values| == n == |c2.values|;
      forall k | 0 <= k < n ensures c1.values[k] == c2.values[k] {
        if k < n - 1 {
          assert c1.values[k] == w.data.value.chart.values[k];
        }
      }
      assert c1.values == c2.values;
      assert c1 == c2;
    }
  }

  /** A KPI update takes the old value as the new previous value and moves by less than 10.05. */
  lemma KpiUpdateBound(w: Widget, r: Widget, d: Draws)
    requires ValidDraws(d)
    requires w.kind == Kpi && w.data.Some? && w.data.value.KpiPayload?
    requires UpdateRule(w, r, d)
    ensures r.data.Some? && r.data.value.KpiPayload?
    ensures r.data.value.kpi.previousValue == w.data.value.kpi.value
    ensures -10.05 < r.data.value.kpi.value - w.data.value.kpi.value < 10.05
    ensures IsInteger(r.data.value.kpi.value * 10.0)
    ensures r.data.value.kpi.caption == w.data.value.kpi.caption && r.data.value.kpi.unit == w.data.value.kpi.unit
  {
  }
}
