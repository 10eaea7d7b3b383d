# Analytics dashboard: a verified model of its state and widget logic

This project models the logic of a client-side analytics dashboard. The dashboard shows line, bar and pie charts, KPI cards and tables on a responsive grid. It simulates a live data feed. Users can add and remove widgets and switch between light, dark and system themes.

The model covers these parts:

- **Data types** (`types.dfy`). The widget kinds, themes, chart, KPI and table payloads, widgets and grid layouts are datatypes. A widget's `data` is a tagged union over the payload kinds.
- **Store** (`store.dfy`). The store holds two parallel lists related by id, `widgets` and `layouts`, plus the `theme`. It is a class whose actions overwrite those fields. The store invariant is "one layout per widget, ids unique, every payload fits its kind". Removing a widget, replacing settings and the feed's write-back keep it. Adding a widget keeps it when the new id is fresh. Replacing the layouts keeps it exactly when the new list pairs with the widgets.
- **Demo data and the update rule** (`demo_data.dfy`). This covers the random-series and date-label generators, the six demo widgets, and the per-kind update applied by the simulated feed.
- **Dashboard** (`dashboard.dfy`). One feed tick picks a widget, updates it and writes it back by id. Layout changes are forwarded only while the dashboard is mounted, and remove requests are forwarded as they are. The file also holds the breakpoint/column table.
- **KPI card** (`kpi_widget.dfy`). This covers the no-data guard, the percent change against the previous value, its direction, the rounded magnitude, and when the unit is shown.
- **Table card** (`table_widget.dfy`). This covers the shape guard and the cell lookup under the lower-cased header, with the empty-string fallback. It also covers the badge colour of the status column and the render error thrown for a numeric status.
- **Theme toggle** (`theme_toggle.dfy`). The root element's class set always shows exactly one of light or dark, for the theme resolved against the system preference. The media-query listener is subscribed while the toggle is mounted and is swapped when the theme changes. Each button selects its theme.
- **Add-widget menu** (`widget_menu.dfy`). The menu holds the open flag, the typed title and the selected kind. Adding is guarded by "kind selected and title not blank". The Add button's disabled state is proved to be exactly the negation of that guard.
- **Helpers** (`seqs.dfy`, `strings.dfy`, `numbers.dfy`):
  - filtering and mapping by key, with facts about key sets and uniqueness
  - ASCII lower-casing and ECMAScript `trim`
  - the floor of scaled random draws, and `toFixed(1)` as rounding to one decimal over the reals

Values that come from the host are parameters:

- each `Math.random()` result is a real in [0, 1)
- the `id` argument stands for the whole `` `widget-${Date.now()}` `` string that names a new widget
- the date labels are a function from "days ago" to a string
- `matchMedia('(prefers-color-scheme: dark)').matches` is a boolean

## Model

| member | source | states |
|---|---|---|
| WidgetTypes.ParseWidgetType | src/types/index.ts:10-16 | a string names a kind exactly when it is that kind's enum value, and the kind read back has that value |
| WidgetTypes.WidgetTypesExact | src/types/index.ts:10-16 | there are exactly five kinds; every kind is listed, and the kinds and their strings are pairwise distinct |
| WidgetTypes.ParseTheme | src/types/index.ts:47 | a string is a theme exactly when it is "light", "dark" or "system", and it maps back to that theme |
| Seqs.Without | src/store/useStore.ts:100-104 | filtering by id keeps exactly the entries with another id; an absent id leaves the list unchanged |
| Seqs.WithoutExact | src/store/useStore.ts:100-104 | the filtered list is a subsequence of the original, so order is kept, and every surviving entry keeps its multiplicity |
| Seqs.WithoutKeys | src/store/useStore.ts:100-104 | removing an id takes exactly that id out of the key set, and unique ids stay unique |
| Seqs.UpdateWhere | src/store/useStore.ts:110-112 | mapping by id keeps the length and changes only the entries with that id |
| Seqs.UpdateWhereUnique | src/components/Dashboard/Dashboard.tsx:29-31 | with unique ids, mapping by id is a single-position update |
| Strings.Lower | src/components/Widgets/TableWidget.tsx:52 | lower-casing keeps the length, maps each letter independently and leaves no upper-case ASCII letter |
| Strings.LowerIdempotent | src/components/Widgets/TableWidget.tsx:52 | lower-casing twice is lower-casing once |
| Strings.Trim | src/components/Dashboard/WidgetMenu.tsx:22 | the trimmed title is the title with a whitespace-only prefix and suffix cut off; it starts and ends with a non-whitespace character, and is empty exactly when the title is all whitespace |
| Numbers.ScaledFloor | src/utils/demoData.ts:5 | `Math.floor(Math.random() * n)` lies in [0, n) for n > 0 |
| Numbers.Round1 | src/utils/demoData.ts:137 | rounding to one decimal gives a multiple of 0.1 within 0.05 of the input, with the input's sign |
| Numbers.Round1Idempotent | src/utils/demoData.ts:137 | rounding an already rounded value changes nothing |
| DemoData.RandomData | src/utils/demoData.ts:4-6 | `generateRandomData(n)` has exactly n entries (none for negative n), each an integer in [0, 100) |
| DemoData.TimeSeries | src/utils/demoData.ts:8-19 | the labels are days+1 dates, oldest first, and the last one is today |
| DemoData.GenerateTimeSeries | src/utils/demoData.ts:12-16 | the counting-down loop pushes exactly the labels of `TimeSeries` |
| DemoData.DemoWidgets | src/utils/demoData.ts:22-111 | `generateDemoData()` gives six widgets, each with a payload of its kind |
| DemoData.DemoTable | src/utils/demoData.ts:58-66 | the demo table has three headers and four rows, each holding the product, sales and status keys |
| DemoData.DemoWidgetsShape | src/utils/demoData.ts:22-111 | six widgets with ids widget-1 to widget-6 and kinds line, bar, pie, KPI, KPI, table; every payload fits its kind; the charts have 7, 7 and 5 values with one label per value |
| DemoData.KpiStep | src/utils/demoData.ts:132-133 | the KPI step is below 10 in size, and its sign follows the first draw |
| DemoData.UpdateWidgetData | src/utils/demoData.ts:115-146 | the update satisfies the per-kind rule: id, kind, title, size and settings are kept; line and bar charts get a new integer in [0, 100) in the last slot only, with labels and colour kept; a KPI shifts value into previousValue and takes a rounded step; anything else stays the same; the payload still fits the kind |
| DemoData.UpdateRuleDeterministic | src/utils/demoData.ts:115-146 | the rule allows exactly one result for a widget and its draws |
| DemoData.KpiUpdateBound | src/utils/demoData.ts:129-140 | a KPI update takes the old value as previousValue, moves by less than 10.05, lands on one decimal, and keeps the label and unit |
| DashboardStore.OneLayoutPerWidget | src/store/useStore.ts:80-104 | under the store invariant every widget has exactly one layout |
| DashboardStore.LayoutNamesWidget | src/store/useStore.ts:80-104 | under the store invariant every layout names exactly one widget |
| DashboardStore.DefaultSize | src/store/useStore.ts:34-50 | a new widget's size is never below the 2x2 floor of its layout |
| DashboardStore.DefaultData | src/store/useStore.ts:35-78 | a new widget's data is a payload of its kind; charts have one label per value; a KPI starts at 0/0 with the title as label |
| DashboardStore.NewWidget | src/store/useStore.ts:33-83 | the appended widget has the given id, kind and title, no settings, and a payload of its kind |
| DashboardStore.NewLayout | src/store/useStore.ts:86-95 | the appended layout names the id, sits at x 0 and the bottom, takes the widget's size and has floors of 2 |
| DashboardStore.DefaultsFit | src/store/useStore.ts:34-78 | defaults fit the kind: 2x2 for KPI, 3x3 for pie, 4x3 otherwise; the KPI starts at 0/0 with the title as label; pie has 3 points, line and bar 5, with one label per value; line is blue and bar purple |
| DashboardStore.InitialLayout | src/store/useStore.ts:21-29 | a demo widget's initial layout carries its id and size, sits at the bottom with floors of 2, and lies in an even column in [0, 10] |
| DashboardStore.InitialLayouts | src/store/useStore.ts:21-29 | one layout per demo widget, in order, with the widget's id and size, at the bottom, floors of 2, x even in [0, 10] |
| DashboardStore.SettingsUpdated | src/store/useStore.ts:108-113 | matching widgets get the settings by replacement and keep every other field; other widgets are unchanged; an absent id changes nothing |
| DashboardStore.WriteBack | src/components/Dashboard/Dashboard.tsx:29-31 | write-back by id keeps the length and order, replaces exactly the widgets with the updated widget's id, and keeps the key set |
| DashboardStore.WriteBackAt | src/components/Dashboard/Dashboard.tsx:29-31 | with unique ids, writing back the update of position k changes position k only |
| DashboardStore.AddKeepsValid | src/store/useStore.ts:80-97 | appending a widget and its layout under a fresh id keeps the store invariant |
| DashboardStore.RemoveKeepsValid | src/store/useStore.ts:100-104 | removing an id from both lists keeps the store invariant |
| DashboardStore.SettingsKeepValid | src/store/useStore.ts:108-113 | replacing settings keeps the store invariant |
| DashboardStore.WriteBackKeepsValid | src/components/Dashboard/Dashboard.tsx:29-31 | writing back a well-typed widget keeps the store invariant |
| DashboardStore.InitialStateValid | src/store/useStore.ts:20-29 | the initial widgets and layouts satisfy the store invariant |
| DashboardStore.Store.constructor | src/store/useStore.ts:20-30 | the initial state is the demo widgets, their initial layouts and the system theme, and it is valid |
| DashboardStore.Store.AddWidget | src/store/useStore.ts:32-98 | exactly one widget and one layout are appended, earlier entries are kept in order, the theme is unchanged, and the invariant holds when the id is fresh |
| DashboardStore.Store.RemoveWidget | src/store/useStore.ts:100-104 | both lists are filtered by id, the theme is unchanged, and the invariant is kept |
| DashboardStore.Store.UpdateLayouts | src/store/useStore.ts:106 | the layouts are replaced wholesale, widgets and theme are unchanged, and the result is valid exactly when the new layouts pair with the widgets |
| DashboardStore.Store.UpdateWidgetSettings | src/store/useStore.ts:108-113 | the widgets become `SettingsUpdated`, layouts and theme are unchanged, and the invariant is kept |
| DashboardStore.Store.SetTheme | src/store/useStore.ts:115 | only the theme changes |
| DashboardStore.Store.SetWidgets | src/components/Dashboard/Dashboard.tsx:28-30 | `setState({ widgets })` changes only the widgets |
| DashboardGrid.MinWidth | src/components/Dashboard/Dashboard.tsx:65 | only the smallest breakpoint starts at width 0, and none starts above 1200 |
| DashboardGrid.Columns | src/components/Dashboard/Dashboard.tsx:66 | every breakpoint has an even column count from 2 to 12, and only the largest has 12 |
| DashboardGrid.Dashboard.constructor | src/components/Dashboard/Dashboard.tsx:14 | the dashboard starts unmounted, bound to the store |
| DashboardGrid.ColumnsMonotone | src/components/Dashboard/Dashboard.tsx:65-66 | breakpoints have distinct widths, and a wider breakpoint never has fewer columns |
| DashboardGrid.Dashboard.Mount | src/components/Dashboard/Dashboard.tsx:16-19 | the mount effect sets `mounted` |
| DashboardGrid.Dashboard.Unmount | src/components/Dashboard/Dashboard.tsx:16-19 | the effect's cleanup clears `mounted` |
| DashboardGrid.Dashboard.HandleLayoutChange | src/components/Dashboard/Dashboard.tsx:41-45 | layouts reach the store only while mounted; otherwise the store is unchanged |
| DashboardGrid.Dashboard.HandleRemoveWidget | src/components/Dashboard/Dashboard.tsx:47-49 | the same id is removed from the store |
| DashboardGrid.Dashboard.Tick | src/components/Dashboard/Dashboard.tsx:24-32 | runs on any store whose payloads fit their kinds; with no widgets nothing changes; otherwise the index is the scaled draw in [0, n), the widget there is updated by the feed's rule and written back to every widget with its id (only that position when ids are distinct), layouts and theme are kept, payloads still fit, and the tick keeps the store invariant |
| KpiWidget.PercentChange | src/components/Widgets/KPIWidget.tsx:28-30 | no previous value gives exactly 0 with no division; otherwise the change times the previous value is 100 times the difference; over a positive base it is non-negative exactly when the value did not fall |
| KpiWidget.IsPositive | src/components/Widgets/KPIWidget.tsx:32 | a change of exactly zero counts as positive |
| KpiWidget.PercentChangeExamples | src/components/Widgets/KPIWidget.tsx:28-33 | 1823 against 1700 shows as 7.2 and positive; a zero previous value shows 0 as positive |
| KpiWidget.NegativeBaseShowsRiseAsFall | src/components/Widgets/KPIWidget.tsx:28-32 | as written, a rise from -5 to -3 gives a negative change, so the card shows a down arrow |
| KpiWidget.NegativeBaseReachable | src/utils/demoData.ts:129-140 | a newly added KPI reaches that state in two feed updates |
| KpiWidget.PercentChangeFromBase | src/components/Widgets/KPIWidget.tsx:28-32 | measured against the base's magnitude, the change is non-negative exactly when the value did not fall, and it equals the as-written change for non-negative bases |
| KpiWidget.ShowUnit | src/components/Widgets/KPIWidget.tsx:50 | the unit is shown only when present, and never when empty, as for a new KPI |
| KpiWidget.AbsChange | src/components/Widgets/KPIWidget.tsx:33 | the displayed magnitude is never negative, lands on one decimal, and is within 0.05 of the magnitude |
| KpiWidget.RenderKpi | src/components/Widgets/KPIWidget.tsx:12-65 | the placeholder appears exactly without a KPI payload; otherwise the card shows the value, shows the unit exactly when it is non-empty, points up exactly when the percent change as written is non-negative (for a non-negative base, exactly when the value did not fall), and shows the rounded magnitude |
| KpiWidget.RenderKpiIntended | src/components/Widgets/KPIWidget.tsx:28-65 | the corrected card points up exactly when the value did not fall, for any base, and agrees with the card as written whenever the base is non-negative |
| KpiWidget.RenderedRiseShowsAsFall | src/components/Widgets/KPIWidget.tsx:28-32 | the card as written points down for a rise from -5 to -3; the corrected card points up |
| TableWidget.Truthy | src/components/Widgets/TableWidget.tsx:53 | the empty string and zero are falsy, so they fall back to the empty cell |
| TableWidget.CellFor | src/components/Widgets/TableWidget.tsx:52-53 | the cell is the row's value under the lower-cased header when that is present and truthy, and the empty string otherwise |
| TableWidget.StatusStyle | src/components/Widgets/TableWidget.tsx:56-64 | lower-cased active, pending and inactive give green, yellow and red; any other text gives grey; a number has no style because `toLowerCase` throws |
| TableWidget.StatusStyleIgnoresCase | src/components/Widgets/TableWidget.tsx:63 | the status colour does not depend on letter case |
| TableWidget.RenderCell | src/components/Widgets/TableWidget.tsx:51-79 | a cell shows the looked-up value; it is a badge exactly in the status column, coloured by `StatusStyle` of its value; it throws exactly for a number there |
| TableWidget.RenderCellIgnoresHeaderCase | src/components/Widgets/TableWidget.tsx:52 | a cell depends on its header only through the lower-cased header |
| TableWidget.MissingColumnIsEmpty | src/components/Widgets/TableWidget.tsx:53-64 | a column the row lacks shows an empty cell, or a grey empty badge in the status column |
| TableWidget.RenderTable | src/components/Widgets/TableWidget.tsx:12-51 | "Invalid table data" appears exactly without a table payload; a render error occurs exactly when some cell throws; otherwise the headers appear in order and each row, in order, has one cell per header in header order |
| TableWidget.DemoTableProduct | src/components/Widgets/TableWidget.tsx:52-53 | the demo table's first product shows as plain text |
| TableWidget.DemoTableSales | src/components/Widgets/TableWidget.tsx:52-53 | the demo table's first sales figure shows as a plain number |
| TableWidget.DemoTableActive | src/components/Widgets/TableWidget.tsx:56-64 | "Active" in the demo table is a green badge |
| TableWidget.DemoTablePending | src/components/Widgets/TableWidget.tsx:56-64 | "Pending" in the demo table is a yellow badge |
| ThemeToggle.Resolve | src/components/UI/ThemeToggle.tsx:14-19 | light and dark resolve to themselves; system resolves to dark exactly when the system prefers dark |
| ThemeToggle.ApplyClass | src/components/UI/ThemeToggle.tsx:12-18 | after applying, the root has the applied class and not the other theme class, and every other class is kept |
| ThemeToggle.ApplyLastWins | src/components/UI/ThemeToggle.tsx:12-18 | only the last class applied matters |
| ThemeToggle.ButtonTheme | src/components/UI/ThemeToggle.tsx:41-65 | sun selects light, moon dark and monitor system, and no button selects another button's theme |
| ThemeToggle.OneButtonHighlighted | src/components/UI/ThemeToggle.tsx:43-67 | each theme highlights exactly one button, the one that selects it |
| ThemeToggle.ThemeToggle.constructor | src/components/UI/ThemeToggle.tsx:10-36 | the first render applies the resolved store theme and subscribes one handler for it |
| ThemeToggle.ThemeToggle.Render | src/components/UI/ThemeToggle.tsx:20-36 | a new theme removes the old handler, re-applies the class and subscribes a handler for the new theme; the same theme changes nothing |
| ThemeToggle.ThemeToggle.SystemChange | src/components/UI/ThemeToggle.tsx:26-31 | a system preference change re-applies the class only when the subscribed handler's theme is system; otherwise the root is unchanged |
| ThemeToggle.ThemeToggle.Click | src/components/UI/ThemeToggle.tsx:41-65 | each button sets its own theme in the store; a new theme re-applies the class to the old root with every other class kept, the same theme leaves the root as it was; the system preference is kept and the root shows the theme resolved |
| ThemeToggle.ThemeToggle.Unmount | src/components/UI/ThemeToggle.tsx:35 | the cleanup removes the handler, so no subscription remains; the root class, the rendered theme and the system preference are unchanged |
| WidgetMenu.MenuCoversKinds | src/components/Dashboard/WidgetMenu.tsx:28-34 | the picker lists the five kinds in order, each once |
| WidgetMenu.CanAdd | src/components/Dashboard/WidgetMenu.tsx:22 | adding needs a selected kind and a non-empty title |
| WidgetMenu.CanAddIffVisible | src/components/Dashboard/WidgetMenu.tsx:22 | the add guard holds exactly when a kind is selected and the title has a character that is not whitespace |
| WidgetMenu.Menu.constructor | src/components/Dashboard/WidgetMenu.tsx:11-13 | the menu starts closed, with an empty title and no selection |
| WidgetMenu.Menu.ToggleMenu | src/components/Dashboard/WidgetMenu.tsx:15-19 | toggling flips `isOpen` and clears the title and selection |
| WidgetMenu.Menu.SetTitle | src/components/Dashboard/WidgetMenu.tsx:60 | typing replaces only the title |
| WidgetMenu.Menu.SelectType | src/components/Dashboard/WidgetMenu.tsx:77 | a picker button selects its kind and nothing else changes |
| WidgetMenu.Menu.AddDisabled | src/components/Dashboard/WidgetMenu.tsx:93 | the Add button is disabled exactly when the add guard rejects |
| WidgetMenu.Menu.HandleAddWidget | src/components/Dashboard/WidgetMenu.tsx:21-26 | when the guard holds, the store appends a widget of the selected kind with the untrimmed title, and the menu toggles and clears; otherwise nothing changes |

## Left out

- Chart drawing (`LineChart.tsx`, `BarChart.tsx`, `PieChart.tsx`) is SVG and floating-point work in a foreign library. It is not part of this model.
- The websocket service is a timer mock. Its one piece of logic, `simulateWidgetUpdate`, is `updateWidgetData`, which is modelled. Timers (`setInterval`, `clearInterval`) are left out, so a tick is one call of `Tick`.
- `WidgetRenderer.tsx` and `App.tsx` are presentation. They are not part of this model. That includes App's initial-load effect, which adds a theme class without removing the other one.
- Persistence through the store's `persist` middleware and local storage is I/O and is left out. The store starts from its initial state.
- Host values are parameters: `Math.random`, `Date.now`, `new Date` with `toLocaleDateString`, and `matchMedia`.
- Numbers are reals. IEEE rounding, NaN and infinity are not modelled; `y: Infinity` becomes the `Bottom` marker.
- `toFixed(1)` is rounding half away from zero to one decimal, not the binary-float result. `toLocaleString` is not modelled.
- Strings.Lower: lower-cases ASCII letters only. JavaScript's full Unicode case mapping is not modelled.
- TableWidget.StatusStyle: inherited object keys such as "constructor" are not modelled. They would pick a non-string class in JavaScript.
- Table rows are maps from keys to text or number cells. Other cell value types (booleans, objects) are not modelled.
- The grid library's packing of the bottom marker, dragging and resizing are not modelled, and nor are the unused `layoutConfig` row heights.
- DashboardStore.Store.AddWidget: the invariant is stated only for a fresh id. Two adds in the same millisecond would get the same `widget-<timestamp>` id.
- DemoData.UpdateWidgetData: requires the payload to fit the widget's kind. The source would produce NaN or throw on a mismatched payload. The store invariant guarantees the fit.
- An empty line or bar series stays empty. The source's assignment to index `-1` adds no element.
- `updateWidgetSettings` replaces the `settings` object rather than merging into it (src/store/useStore.ts:108-113), and the model follows that.

## Findings

| source | as written | input that shows it | evidently intended | confidence | as-written member | corrected member |
|---|---|---|---|---|---|---|
| src/components/Widgets/KPIWidget.tsx:28-32 | the percent change divides by the signed previous value, and the arrow is chosen by the sign of that quotient | previousValue -5, value -3: a rise gives -40%, shown as a red down arrow. A new KPI starts at 0/0 and random-walks, so it reaches this after two updates with draws (0.0, 0.5) then (0.9, 0.2) | the arrow points up exactly when the value did not fall | high; not executed | KpiWidget.RenderKpi, KpiWidget.NegativeBaseShowsRiseAsFall, KpiWidget.NegativeBaseReachable, KpiWidget.RenderedRiseShowsAsFall | KpiWidget.PercentChangeFromBase, KpiWidget.RenderKpiIntended |
