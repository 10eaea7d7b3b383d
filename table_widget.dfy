/** The table card's logic: the guard for a missing table, and for each row and header the cell it shows.
    A cell is looked up under the lower-cased header, falls back to the empty string when the value is
    missing or falsy, and in a "status" column becomes a coloured badge chosen from the lower-cased text. */
module TableWidget {
  import opened WidgetTypes
  import opened Strings
  import opened DemoData

  /** JavaScript truthiness of a cell value: the empty string and zero are falsy. */
  predicate Truthy(v: CellValue)
    ensures v == Text("") || v == Number(0.0) ==> !Truthy(v)
  {
    match v
    case Text(s) => s != ""
    case Number(n) => n != 0.0
  }

  /** `row[header.toLowerCase()] || ''`. */
  function CellFor(row: Row, header: string): (v: CellValue)
    ensures Truthy(v) || v == Text("")
    ensures Truthy(v) <==> Lower(header) in row && Truthy(row[Lower(header)])
    ensures Truthy(v) ==> v == row[Lower(header)]
  {
    var key := Lower(header);
    if key in row && Truthy(row[key]) then row[key] else Text("")
  }

  datatype Style = Green | Yellow | Red | Gray

  /** The badge colour for a status value; `None` where `value.toLowerCase()` throws, which it does on a number. */
  function StatusStyle(v: CellValue): (r: Option<Style>)
    ensures r.None? <==> v.Number?
    ensures r == Some(Green) <==> v.Text? && Lower(v.text) == "active"
    ensures r == Some(Yellow) <==> v.Text? && Lower(v.text) == "pending"
    ensures r == Some(Red) <==> v.Text? && Lower(v.text) == "inactive"
  {
    match v
    case Number(_) => None
    case Text(s) =>
      var k := Lower(s);
      if k == "active" then Some(Green)
      else if k == "pending" then Some(Yellow)
      else if k == "inactive" then Some(Red)
      else Some(Gray)
  }

  /** The status colour ignores letter case. */
  lemma StatusStyleIgnoresCase(s: string)
    ensures StatusStyle(Text(s)) == StatusStyle(Text(Lower(s)))
  {
    LowerIdempotent(s);
  }

  datatype Cell = Plain(content: CellValue) | Badge(content: CellValue, style: Style)

  /** One `<td>`; `None` when rendering it throws. */
  function RenderCell(row: Row, header: string): (c: Option<Cell>)
    ensures c.None? <==> Lower(header) == "status" && CellFor(row, header).Number?
    ensures c.Some? ==> c.value.content == CellFor(row, header)
    ensures c.Some? ==> (c.value.Badge? <==> Lower(header) == "status")
    ensures c.Some? && c.value.Badge? ==> StatusStyle(c.value.content) == Some(c.value.style)
  {
    var v := CellFor(row, header);
    if Lower(header) == "status" then
      match StatusStyle(v)
      case None => None
      case Some(s) => Some(Badge(v, s))
    else
      Some(Plain(v))
  }

  /** A cell depends on its header only through the lower-cased header. */
  lemma RenderCellIgnoresHeaderCase(row: Row, header: string)
    ensures RenderCell(row, header) == RenderCell(row, Lower(header))
  {
    LowerIdempotent(header);
  }

  /** A column the row does not have shows an empty cell (a grey badge in a status column). */
  lemma MissingColumnIsEmpty(row: Row, header: string)
    requires Lower(header) !in row
    ensures RenderCell(row, header) ==
      if Lower(header) == "status" then Some(Badge(Text(""), Gray)) else Some(Plain(Text("")))
  {
    assert Lower("") == "";
  }

  /** Whether some cell of the table throws while rendering. */
  predicate Faults(t: TableData)
  {
    exists i, j | 0 <= i < |t.rows| && 0 <= j < |t.headers| :: RenderCell(t.rows[i], t.headers[j]).None?
  }

  datatype TableView =
    | InvalidTable(title: string)
    | RenderError
    | Grid(title: string, headers: seq<string>, rows: seq<seq<Cell>>)

  /** The card: "Invalid table data" without a table payload; a render error when a cell throws; otherwise
      the headers as given and, for every row in order, one cell per header in header order. */
  function RenderTable(title: string, data: Option<WidgetData>): (v: TableView)
    ensures v.InvalidTable? <==> !(data.Some? && data.value.TablePayload?)
    ensures v.InvalidTable? ==> v.title == title
    ensures v.RenderError? <==> data.Some? && data.value.TablePayload? && Faults(data.value.table)
    ensures v.Grid? ==>
      var t := data.value.table;
      && v.title == title && v.headers == t.headers && |v.rows| == |t.rows|
      && forall i | 0 <= i < |t.rows| ::
           && |v.rows[i]| == |t.headers|
           && forall j | 0 <= j < |t.headers| :: Some(v.rows[i][j]) == RenderCell(t.rows[i], t.headers[j])
  {
    if !(data.Some? && data.value.TablePayload?) then
      InvalidTable(title)
    else
      var t := data.value.table;
      if Faults(t) then RenderError
      else
        Grid(title, t.headers, seq(|t.rows|, i requires 0 <= i < |t.rows| =>
          seq(|t.headers|, j requires 0 <= j < |t.headers| => RenderCell(t.rows[i], t.headers[j]).value)))
  }

  /** The demo table's first row shows the product as a plain cell ... */
  lemma DemoTableProduct()
    ensures RenderCell(DemoTable().rows[0], "Product") == Some(Plain(Text("Widget Pro")))
  {
    LowerPointwise("Product", "product");
  }

  /** ... the sales figure as a plain number ... */
  lemma DemoTableSales()
    ensures RenderCell(DemoTable().rows[0], "Sales") == Some(Plain(Number(452.0)))
  {
    LowerPointwise("Sales", "sales");
  }

  /** ... and its "Active" status as a green badge. */
  lemma DemoTableActive()
    ensures RenderCell(DemoTable().rows[0], "Status") == Some(Badge(Text("Active"), Green))
  {
    LowerPointwise("Status", "status");
    assert CellFor(DemoTable().rows[0], "Status") == Text("Active");
    LowerPointwise("Active", "active");
  }

  /** The third row's "Pending" is a yellow badge. */
  lemma DemoTablePending()
    ensures RenderCell(DemoTable().rows[2], "Status") == Some(Badge(Text("Pending"), Yellow))
  {
    var row := DemoTable().rows[2];
    LowerPointwise("Status", "status");
    assert CellFor(row, "Status") == Text("Pending");
    LowerPointwise("Pending", "pending");
  }
}
