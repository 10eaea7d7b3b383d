/** The dashboard's data shapes. A widget's untyped `data` payload is a tagged
    union here, one variant per payload shape, and `WellTyped` says when the
    variant is the one its widget kind expects. */
module WidgetTypes {

  datatype Option<+T> = None | Some(value: T)

  /** The five widget kinds. */
  datatype WidgetType = LineChart | BarChart | PieChart | Kpi | Table

  const AllWidgetTypes: seq<WidgetType> := [LineChart, BarChart, PieChart, Kpi, Table]

  /** The string each enum member stands for. */
  function Tag(t: WidgetType): string
  {
    match t
    case LineChart => "line-chart"
    case BarChart => "bar-chart"
    case PieChart => "pie-chart"
    case Kpi => "kpi"
    case Table => "table"
  }

  /** Reads a kind back from its string. */
  function ParseWidgetType(s: string): (r: Option<WidgetType>)
    ensures r.Some? ==> Tag(r.value) == s
    ensures forall t :: Tag(t) == s ==> r == Some(t)
  {
    if s == "line-chart" then Some(LineChart)
    else if s == "bar-chart" then Some(BarChart)
    else if s == "pie-chart" then Some(PieChart)
    else if s == "kpi" then Some(Kpi)
    else if s == "table" then Some(Table)
    else None
  }

  /** There are exactly five kinds, pairwise distinct, with distinct strings. */
  lemma WidgetTypesExact()
    ensures |AllWidgetTypes| == 5
    ensures forall t :: t in AllWidgetTypes
    ensures forall i, j | 0 <= i < j < |AllWidgetTypes| ::
      AllWidgetTypes[i] != AllWidgetTypes[j] && Tag(AllWidgetTypes[i]) != Tag(AllWidgetTypes[j])
  {
    forall t ensures t in AllWidgetTypes {
      match t
      case LineChart => assert AllWidgetTypes[0] == t;
      case BarChart => assert AllWidgetTypes[1] == t;
      case PieChart => assert AllWidgetTypes[2] == t;
      case Kpi => assert AllWidgetTypes[3] == t;
      case Table => assert AllWidgetTypes[4] == t;
    }
  }

  /** The theme preference: exactly one of three values. */
  datatype ThemeType = Light | Dark | System

  function ThemeName(t: ThemeType): string
  {
    match t
    case Light => "light"
    case Dark => "dark"
    case System => "system"
  }

  function ParseTheme(s: string): (r: Option<ThemeType>)
    ensures r.Some? ==> ThemeName(r.value) == s
    ensures forall t :: ThemeName(t) == s ==> r == Some(t)
  {
    if s == "light" then Some(Light)
    else if s == "dark" then Some(Dark)
    else if s == "system" then Some(System)
    else None
  }

  datatype Size = Size(w: int, h: int)

  /** Series data of the three chart kinds; `values` and `labels` run in parallel. */
  datatype ChartData = ChartData(id: Option<string>, values: seq<real>, labels: seq<string>, color: Option<string>)

  /** `caption` is the source's `label` field (`label` is a Dafny keyword). */
  datatype KpiData = KpiData(value: real, previousValue: real, caption: string, unit: Option<string>)

  /** A table cell as stored in a row: a string or a number. */
  datatype CellValue = Text(text: string) | Number(number: real)

  /** A table row maps lower-cased header names to cell values. */
  type Row = map<string, CellValue>

  datatype TableData = TableData(headers: seq<string>, rows: seq<Row>)

  datatype WidgetData =
    | ChartPayload(chart: ChartData)
    | KpiPayload(kpi: KpiData)
    | TablePayload(table: TableData)

  /** The opaque per-widget settings object. */
  type Settings = map<string, string>

  /** A widget always has an id, a kind, a title and a size; data and settings are optional. */
  datatype Widget = Widget(
    id: string,
    kind: WidgetType,
    title: string,
    size: Size,
    data: Option<WidgetData>,
    settings: Option<Settings>)

  /** A layout row coordinate, or the `Infinity` sentinel: "place below everything". */
  datatype GridY = AtRow(row: int) | Bottom

  /** A grid cell; `i` names the widget it places. */
  datatype Layout = Layout(i: string, x: int, y: GridY, w: int, h: int, minW: Option<int>, minH: Option<int>)

  predicate PayloadFits(kind: WidgetType, d: WidgetData)
  {
    match kind
    case LineChart | BarChart | PieChart => d.ChartPayload?
    case Kpi => d.KpiPayload?
    case Table => d.TablePayload?
  }

  predicate WellTyped(w: Widget)
  {
    w.data.Some? ==> PayloadFits(w.kind, w.data.value)
  }

  predicate AllWellTyped(ws: seq<Widget>)
  {
    forall w | w in ws :: WellTyped(w)
  }

  function WidgetKey(w: Widget): string { w.id }

  function LayoutKey(l: Layout): string { l.i }
}
