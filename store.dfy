/** The dashboard store: the widgets, their grid layouts and the theme, with
    the actions that overwrite them. The id a new widget gets (a timestamp)
    and the random column draws of the initial layout are passed in. */
module DashboardStore {
  import opened WidgetTypes
  import opened Seqs
  import opened Numbers
  import opened DemoData

  /** One layout per widget: widget ids are unique, layout ids are unique, and both name the same widgets. */
  predicate Paired(ws: seq<Widget>, ls: seq<Layout>)
  {
    UniqueKeys(ws, WidgetKey) && UniqueKeys(ls, LayoutKey) && KeySet(ws, WidgetKey) == KeySet(ls, LayoutKey)
  }

  /** Under `Paired` every widget has exactly one layout, and every layout names a widget. */
  lemma OneLayoutPerWidget(ws: seq<Widget>, ls: seq<Layout>, k: int)
    requires Paired(ws, ls)
    requires 0 <= k < |ws|
    ensures Count(ls, LayoutKey, ws[k].id) == 1
  {
    assert WidgetKey(ws[k]) in KeySet(ws, WidgetKey);
    CountUnique(ls, LayoutKey, ws[k].id);
  }

  lemma LayoutNamesWidget(ws: seq<Widget>, ls: seq<Layout>, k: int)
    requires Paired(ws, ls)
    requires 0 <= k < |ls|
    ensures Count(ws, WidgetKey, ls[k].i) == 1
  {
    assert LayoutKey(ls[k]) in KeySet(ls, LayoutKey);
    CountUnique(ws, WidgetKey, ls[k].i);
  }

  /** The size `addWidget` gives a new widget: never below the 2x2 floor of its layout. */
  function DefaultSize(t: WidgetType): (s: Size)
    ensures s.w >= 2 && s.h >= 2
  {
    match t
    case Kpi => Size(2, 2)
    case PieChart => Size(3, 3)
    case _ => Size(4, 3)
  }

  /** The data `addWidget` gives a new widget: a payload of its kind, charts with one label per value. */
  function DefaultData(t: WidgetType, title: string): (d: WidgetData)
    ensures PayloadFits(t, d)
    ensures d.ChartPayload? ==> |d.chart.values| == |d.chart.labels|
    ensures d.KpiPayload? ==> d.kpi.caption == title && d.kpi.value == 0.0 && d.kpi.previousValue == 0.0
  {
    match t
    case Kpi => KpiPayload(KpiData(0.0, 0.0, title, Some("")))
    case PieChart =>
      ChartPayload(ChartData(None, [30.0, 20.0, 10.0], ["Category 1", "Category 2", "Category 3"], Some("#2563eb")))
    case Table =>
      TablePayload(TableData(["Column 1", "Column 2", "Column 3"],
        [map["column 1" := Text("Data 1"), "column 2" := Text("Data 2"), "column 3" := Text("Data 3")]]))
    case LineChart | BarChart =>
      ChartPayload(ChartData(None, [10.0, 20.0, 15.0, 25.0, 30.0], ["Jan", "Feb", "Mar", "Apr", "May"],
        Some(if t == LineChart then "#2563eb" else "#9333ea")))
  }

  /** The widget `addWidget` appends: the given id, kind and title, the default size and data, no settings. */
  function NewWidget(t: WidgetType, title: string, id: string): (w: Widget)
    ensures w.id == id && w.kind == t && w.title == title && w.settings == None
    ensures WellTyped(w)
  {
    Widget(id, t, title, DefaultSize(t), Some(DefaultData(t, title)), None)
  }

  /** The layout of a freshly added widget: left column, below everything, the widget's size, floors of 2. */
  function NewLayout(id: string, size: Size): (l: Layout)
    ensures l.i == id && l.x == 0 && l.y == Bottom && l.w == size.w && l.h == size.h
    ensures l.minW == Some(2) && l.minH == Some(2)
  {
    Layout(id, 0, Bottom, size.w, size.h, Some(2), Some(2))
  }

  /** The defaults fit their kind: 2x2 KPI, 3x3 pie, 4x3 otherwise, never below the 2x2 floor; KPI data
      starts at zero with the title as label; pie has 3 points, line and bar 5, each with one label per value,
      line in blue and bar in purple. */
  lemma DefaultsFit(t: WidgetType, title: string, id: string)
    ensures WellTyped(NewWidget(t, title, id))
    ensures DefaultSize(t) == (if t == Kpi then Size(2, 2) else if t == PieChart then Size(3, 3) else Size(4, 3))
    ensures DefaultSize(t).w >= 2 && DefaultSize(t).h >= 2
    ensures t == Kpi ==> DefaultData(t, title) == KpiPayload(KpiData(0.0, 0.0, title, Some("")))
    ensures DefaultData(t, title).ChartPayload? ==>
      var c := DefaultData(t, title).chart;
      |c.values| == |c.labels| == (if t == PieChart then 3 else 5)
    ensures t == LineChart ==> DefaultData(t, title).chart.color == Some("#2563eb")
    ensures t == BarChart ==> DefaultData(t, title).chart.color == Some("#9333ea")
  {
  }

  /** The layout the initial state gives one demo widget; `draw` picks the column. */
  function InitialLayout(w: Widget, draw: real): (l: Layout)
    requires IsDraw(draw)
    ensures l.i == w.id && l.y == Bottom && l.w == w.size.w && l.h == w.size.h
    ensures l.minW == Some(2) && l.minH == Some(2)
    ensures 0 <= l.x <= 10 && l.x % 2 == 0
  {
    var column := ScaledFloor(draw, 6);
    assert 0 <= column < 6;
    assert (column * 2) % 2 == 0 by {
      assert column * 2 == column + column;
    }
    Layout(w.id, column * 2, Bottom, w.size.w, w.size.h, Some(2), Some(2))
  }

  /** `generateDemoData().map(...)`: one layout per widget, in order, each in an even column of [0, 10],
      below everything, with the widget's size and floors of 2. */
  function InitialLayouts(ws: seq<Widget>, xDraws: seq<real>): (ls: seq<Layout>)
    requires |ws| <= |xDraws|
    requires forall k | 0 <= k < |xDraws| :: IsDraw(xDraws[k])
    ensures |ls| == |ws|
    ensures forall k | 0 <= k < |ws| ::
      && ls[k].i == ws[k].id && ls[k].y == Bottom
      && ls[k].w == ws[k].size.w && ls[k].h == ws[k].size.h
      && ls[k].minW == Some(2) && ls[k].minH == Some(2)
      && 0 <= ls[k].x <= 10 && ls[k].x % 2 == 0
    ensures KeySet(ls, LayoutKey) == KeySet(ws, WidgetKey)
    ensures UniqueKeys(ls, LayoutKey) == UniqueKeys(ws, WidgetKey)
  {
    var ls := seq(|ws|, k requires 0 <= k < |ws| => InitialLayout(ws[k], xDraws[k]));
    SameKeys(ls, LayoutKey, ws, WidgetKey);
    ls
  }

  /** `updateWidgetSettings`: every widget with that id gets `settings` (replaced, not merged). */
  function WithSettings(s: Option<Settings>): Widget -> Widget
  {
    (w: Widget) => w.(settings := s)
  }

  function SettingsUpdated(ws: seq<Widget>, id: string, s: Option<Settings>): (r: seq<Widget>)
    ensures |r| == |ws|
    ensures forall k | 0 <= k < |ws| ::
      && r[k].id == ws[k].id && r[k].kind == ws[k].kind && r[k].title == ws[k].title
      && r[k].size == ws[k].size && r[k].data == ws[k].data
      && (ws[k].id == id ==> r[k].settings == s)
      && (ws[k].id != id ==> r[k] == ws[k])
    ensures id !in KeySet(ws, WidgetKey) ==> r == ws
  {
    UpdateWhere(ws, WidgetKey, id, WithSettings(s))
  }

  /** A widget that takes the place of the one with its id, as the tick writes it back. */
  function ReplaceWith(u: Widget): Widget -> Widget
  {
    (w: Widget) => u
  }

  /** `widgets.map(w => w.id === u.id ? u : w)`: same length and order; exactly the entries with `u`'s id become `u`. */
  function WriteBack(ws: seq<Widget>, u: Widget): (r: seq<Widget>)
    ensures |r| == |ws|
    ensures forall k | 0 <= k < |ws| :: (ws[k].id == u.id ==> r[k] == u) && (ws[k].id != u.id ==> r[k] == ws[k])
    ensures KeySet(r, WidgetKey) == KeySet(ws, WidgetKey)
    ensures UniqueKeys(r, WidgetKey) == UniqueKeys(ws, WidgetKey)
  {
    UpdateWhereKeys(ws, WidgetKey, u.id, ReplaceWith(u));
    UpdateWhere(ws, WidgetKey, u.id, ReplaceWith(u))
  }

  /** With unique ids, writing back an update of position `k` changes position `k` and nothing else. */
  lemma WriteBackAt(ws: seq<Widget>, k: int, u: Widget)
    requires UniqueKeys(ws, WidgetKey)
    requires 0 <= k < |ws| && u.id == ws[k].id
    ensures WriteBack(ws, u) == ws[k := u]
  {
    UpdateWhereUnique(ws, WidgetKey, k, ReplaceWith(u));
  }

  /** The store invariant: one layout per widget, and every payload fits its widget's kind. */
  predicate ValidState(ws: seq<Widget>, ls: seq<Layout>)
  {
    Paired(ws, ls) && AllWellTyped(ws)
  }

  /** Adding a widget under a fresh id, with its layout, keeps the invariant. */
  lemma AddKeepsValid(ws: seq<Widget>, ls: seq<Layout>, t: WidgetType, title: string, id: string)
    requires ValidState(ws, ls)
    requires id !in KeySet(ws, WidgetKey)
    ensures ValidState(ws + [NewWidget(t, title, id)], ls + [NewLayout(id, DefaultSize(t))])
  {
    AppendKeys(ws, WidgetKey, NewWidget(t, title, id));
    AppendKeys(ls, LayoutKey, NewLayout(id, DefaultSize(t)));
    DefaultsFit(t, title, id);
  }

  /** Removing an id from both lists keeps the invariant. */
  lemma RemoveKeepsValid(ws: seq<Widget>, ls: seq<Layout>, id: string)
    requires ValidState(ws, ls)
    ensures ValidState(Without(ws, WidgetKey, id), Without(ls, LayoutKey, id))
  {
    WithoutKeys(ws, WidgetKey, id);
    WithoutKeys(ls, LayoutKey, id);
  }

  /** Setting a widget's settings keeps the invariant. */
  lemma SettingsKeepValid(ws: seq<Widget>, ls: seq<Layout>, id: string, s: Option<Settings>)
    requires ValidState(ws, ls)
    ensures ValidState(SettingsUpdated(ws, id, s), ls)
  {
    UpdateWhereKeys(ws, WidgetKey, id, WithSettings(s));
    var r := SettingsUpdated(ws, id, s);
    forall w | w in r ensures WellTyped(w) {
      var k :| 0 <= k < |r| && r[k] == w;
      assert ws[k] in ws;
    }
  }

  /** Writing back a well-typed widget keeps the invariant. */
  lemma WriteBackKeepsValid(ws: seq<Widget>, ls: seq<Layout>, u: Widget)
    requires ValidState(ws, ls)
    requires WellTyped(u)
    ensures ValidState(WriteBack(ws, u), ls)
  {
    var r := WriteBack(ws, u);
    forall w | w in r ensures WellTyped(w) {
      var k :| 0 <= k < |r| && r[k] == w;
      assert ws[k] in ws;
    }
  }

  /** The initial state satisfies the invariant. */
  lemma InitialStateValid(xDraws: seq<real>, dateLabel: int -> string)
    requires 6 <= |xDraws|
    requires forall k | 0 <= k < |xDraws| :: IsDraw(xDraws[k])
    ensures ValidState(DemoWidgets(dateLabel), InitialLayouts(DemoWidgets(dateLabel), xDraws))
  {
    var ws := DemoWidgets(dateLabel);
    DemoWidgetsShape(dateLabel);
    assert forall i, j | 0 <= i < j < |ws| :: ws[i].id != ws[j].id;
    UniqueKeysFromDistinct(ws, WidgetKey);
  }

  class Store {
    var widgets: seq<Widget>
    var layouts: seq<Layout>
    var theme: ThemeType

    predicate Valid()
      reads this
    {
      ValidState(widgets, layouts)
    }

    /** The initial state: the demo widgets, one layout each, theme `system`. */
    constructor (xDraws: seq<real>, dateLabel: int -> string)
      requires 6 <= |xDraws|
      requires forall k | 0 <= k < |xDraws| :: IsDraw(xDraws[k])
      ensures widgets == DemoWidgets(dateLabel)
      ensures layouts == InitialLayouts(DemoWidgets(dateLabel), xDraws)
      ensures theme == System
      ensures Valid()
    {
      var ws := DemoWidgets(dateLabel);
      InitialStateValid(xDraws, dateLabel);
      widgets := ws;
      layouts := InitialLayouts(ws, xDraws);
      theme := System;
    }

    method AddWidget(t: WidgetType, title: string, id: string)
      modifies this
      ensures widgets == old(widgets) + [NewWidget(t, title, id)]
      ensures layouts == old(layouts) + [NewLayout(id, DefaultSize(t))]
      ensures theme == old(theme)
      ensures old(Valid()) && id !in KeySet(old(widgets), WidgetKey) ==> Valid()
    {
      if Valid() && id !in KeySet(widgets, WidgetKey) {
        AddKeepsValid(widgets, layouts, t, title, id);
      }
      var w := NewWidget(t, title, id);
      widgets := widgets + [w];
      layouts := layouts + [NewLayout(id, w.size)];
    }

    method RemoveWidget(id: string)
      modifies this
      ensures widgets == Without(old(widgets), WidgetKey, id)
      ensures layouts == Without(old(layouts), LayoutKey, id)
      ensures theme == old(theme)
      ensures old(Valid()) ==> Valid()
    {
      if Valid() {
        RemoveKeepsValid(widgets, layouts, id);
      }
      widgets := Without(widgets, WidgetKey, id);
      layouts := Without(layouts, LayoutKey, id);
    }

    /** Replaces the layout list wholesale; one layout per widget holds afterwards exactly when the new list pairs up. */
    method UpdateLayouts(ls: seq<Layout>)
      modifies this
      ensures layouts == ls
      ensures widgets == old(widgets) && theme == old(theme)
      ensures Valid() <==> ValidState(old(widgets), ls)
    {
      layouts := ls;
    }

    method UpdateWidgetSettings(id: string, s: Option<Settings>)
      modifies this
      ensures widgets == SettingsUpdated(old(widgets), id, s)
      ensures layouts == old(layouts) && theme == old(theme)
      ensures old(Valid()) ==> Valid()
    {
      if Valid() {
        SettingsKeepValid(widgets, layouts, id, s);
      }
      widgets := SettingsUpdated(widgets, id, s);
    }

    method SetTheme(t: ThemeType)
      modifies this
      ensures theme == t
      ensures widgets == old(widgets) && layouts == old(layouts)
    {
      theme := t;
    }

    /** `useStore.setState({ widgets })`: replaces the widget list only. */
    method SetWidgets(ws: seq<Widget>)
      modifies this
      ensures widgets == ws
      ensures layouts == old(layouts) && theme == old(theme)
    {
      widgets := ws;
    }
  }
}
