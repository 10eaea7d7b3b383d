/** The KPI card's logic: the no-data guard, the percent change against the
    previous value, its direction, the displayed magnitude and whether the
    unit is shown. Arithmetic is over the reals. */
module KpiWidget {
  import opened WidgetTypes
  import opened Numbers
  import opened DemoData
  import opened DashboardStore

  /** The percent change as the card computes it: zero when there is no previous value (no division),
      otherwise the difference relative to the previous value, times 100. */
  function PercentChange(value: real, previousValue: real): (pc: real)
    ensures previousValue == 0.0 ==> pc == 0.0
    ensures previousValue != 0.0 ==> pc * previousValue == (value - previousValue) * 100.0
    ensures previousValue > 0.0 ==> (pc >= 0.0 <==> value >= previousValue)
  {
    if previousValue == 0.0 then 0.0 else (value - previousValue) / previousValue * 100.0
  }

  /** The up arrow and green colour: a change of exactly zero counts as positive. */
  predicate IsPositive(pc: real)
    ensures pc == 0.0 ==> IsPositive(pc)
  {
    pc >= 0.0
  }

  /** 1823 against 1700 is a rise of about 7.2 percent, and no previous value means no change. */
  lemma PercentChangeExamples(value: real)
    ensures Round1(PercentChange(1823.0, 1700.0)) == 7.2
    ensures IsPositive(PercentChange(1823.0, 1700.0))
    ensures PercentChange(value, 0.0) == 0.0 && IsPositive(PercentChange(value, 0.0))
  {
    var pc := PercentChange(1823.0, 1700.0);
    assert pc == 12300.0 / 1700.0;
    assert 72.0 <= pc * 10.0 + 0.5 < 73.0;
    assert (pc * 10.0 + 0.5).Floor == 72;
  }

  /** As written, a negative previous value turns a rise into a negative percentage (a down arrow). */
  lemma NegativeBaseShowsRiseAsFall()
    ensures -3.0 > -5.0 && !IsPositive(PercentChange(-3.0, -5.0))
  {
  }

  /** A freshly added KPI card reaches that case in two ticks: down 5, then up 2. */
  lemma NegativeBaseReachable()
    ensures var w0 := NewWidget(Kpi, "Sales", "widget-1700000000000");
      var w1 := w0.(data := Some(KpiPayload(KpiData(-5.0, 0.0, "Sales", Some("")))));
      var w2 := w0.(data := Some(KpiPayload(KpiData(-3.0, -5.0, "Sales", Some("")))));
      && UpdateRule(w0, w1, Draws(0.0, 0.5))
      && UpdateRule(w1, w2, Draws(0.9, 0.2))
      && w2.data.value.kpi.value > w2.data.value.kpi.previousValue
      && !IsPositive(PercentChange(w2.data.value.kpi.value, w2.data.value.kpi.previousValue))
  {
    assert KpiStep(Draws(0.0, 0.5)) == -5.0;
    assert (5.0 * 10.0 + 0.5).Floor == 50;
    assert Round1(-5.0) == -5.0;
    assert KpiStep(Draws(0.9, 0.2)) == 2.0;
    assert Round1(-3.0) == -3.0 by {
      assert (3.0 * 10.0 + 0.5).Floor == 30;
    }
  }

  /** The change measured against the size of the previous value, so that its sign is the direction of the move. */
  function PercentChangeFromBase(value: real, previousValue: real): (pc: real)
    ensures previousValue == 0.0 ==> pc == 0.0
    ensures previousValue != 0.0 ==> pc * Abs(previousValue) == (value - previousValue) * 100.0
    ensures previousValue != 0.0 ==> (pc >= 0.0 <==> value >= previousValue)
    ensures previousValue >= 0.0 ==> pc == PercentChange(value, previousValue)
  {
    if previousValue == 0.0 then 0.0 else (value - previousValue) / Abs(previousValue) * 100.0
  }

  /** The displayed figure `Math.abs(percentChange).toFixed(1)`: never negative, within 0.05 of the magnitude. */
  function AbsChange(pc: real): (r: real)
    ensures r >= 0.0
    ensures Abs(pc) - 0.05 <= r <= Abs(pc) + 0.05
    ensures IsInteger(r * 10.0)
  {
    Round1(Abs(pc))
  }

  /** `data.unit && ...`: the unit is shown only when present and non-empty. */
  predicate ShowUnit(unit: Option<string>)
    ensures ShowUnit(unit) ==> unit.Some?
    ensures unit == Some("") ==> !ShowUnit(unit)
  {
    unit.Some? && unit.value != ""
  }

  datatype KpiView =
    | NoData(title: string)
    | Card(title: string, value: real, unit: Option<string>, positive: bool, change: real)

  /** The card for a KPI payload, given the percent change it shows. */
  function KpiCard(title: string, k: KpiData, pc: real): KpiView
  {
    Card(title, k.value, if ShowUnit(k.unit) then k.unit else None, IsPositive(pc), AbsChange(pc))
  }

  /** The card as written: the placeholder when there is no KPI payload (no data, or data without a `value`);
      otherwise the value, the unit when it is non-empty, the arrow from the sign of `PercentChange` and the
      rounded magnitude. Over a non-negative base the arrow points up exactly when the value did not fall. */
  function RenderKpi(title: string, data: Option<WidgetData>): (v: KpiView)
    ensures v.title == title
    ensures v.NoData? <==> !(data.Some? && data.value.KpiPayload?)
    ensures v.Card? ==>
      var k := data.value.kpi;
      var pc := PercentChange(k.value, k.previousValue);
      && v.value == k.value
      && (v.unit.Some? <==> ShowUnit(k.unit))
      && (v.unit.Some? ==> v.unit == k.unit)
      && (v.positive <==> IsPositive(pc))
      && (k.previousValue >= 0.0 ==> (v.positive <==> k.previousValue == 0.0 || k.value >= k.previousValue))
      && v.change == AbsChange(pc) && v.change >= 0.0
  {
    if data.Some? && data.value.KpiPayload? then
      var k := data.value.kpi;
      KpiCard(title, k, PercentChange(k.value, k.previousValue))
    else
      NoData(title)
  }

  /** The card with the corrected direction: the same placeholder, value, unit and magnitude, but the arrow
      points up exactly when the value did not fall, whatever the sign of the base. */
  function RenderKpiIntended(title: string, data: Option<WidgetData>): (v: KpiView)
    ensures v.title == title
    ensures v.NoData? <==> !(data.Some? && data.value.KpiPayload?)
    ensures v.Card? ==>
      var k := data.value.kpi;
      && v.value == k.value
      && (v.unit.Some? <==> ShowUnit(k.unit))
      && (v.unit.Some? ==> v.unit == k.unit)
      && (v.positive <==> k.previousValue == 0.0 || k.value >= k.previousValue)
      && v.change == AbsChange(PercentChange(k.value, k.previousValue))
    ensures v.Card? && data.value.kpi.previousValue >= 0.0 ==> v == RenderKpi(title, data)
  {
    if data.Some? && data.value.KpiPayload? then
      var k := data.value.kpi;
      var pc := PercentChangeFromBase(k.value, k.previousValue);
      assert Abs(pc) == Abs(PercentChange(k.value, k.previousValue));
      KpiCard(title, k, pc)
    else
      NoData(title)
  }

  /** As written, the card for a rise from -5 to -3 points down. */
  lemma RenderedRiseShowsAsFall()
    ensures RenderKpi("Sales", Some(KpiPayload(KpiData(-3.0, -5.0, "Sales", None)))).positive == false
    ensures RenderKpiIntended("Sales", Some(KpiPayload(KpiData(-3.0, -5.0, "Sales", None)))).positive == true
  {
  }
}
