/** The "Add Widget" menu: whether it is open, the title typed so far and the selected kind; the Add
    button is enabled only for a selected kind and a title that is not blank, and adding passes the
    title on untrimmed and closes the menu. */
module WidgetMenu {
  import opened WidgetTypes
  import opened Strings
  import opened Seqs
  import opened DashboardStore

  /** The five entries of the kind picker, in display order, with their captions. */
  const MenuEntries: seq<(WidgetType, string)> := [
    (LineChart, "Line Chart"), (BarChart, "Bar Chart"), (PieChart, "Pie Chart"), (Kpi, "KPI Card"), (Table, "Table")
  ]

  /** The picker offers every kind exactly once, in the order of the kind list. */
  lemma MenuCoversKinds()
    ensures |MenuEntries| == |AllWidgetTypes|
    ensures forall k | 0 <= k < |MenuEntries| :: MenuEntries[k].0 == AllWidgetTypes[k]
    ensures forall i, j | 0 <= i < j < |MenuEntries| :: MenuEntries[i].0 != MenuEntries[j].0
  {
    WidgetTypesExact();
  }

  /** The condition `handleAddWidget` tests: a kind is selected and the trimmed title is not empty. */
  predicate CanAdd(selected: Option<WidgetType>, title: string)
    ensures CanAdd(selected, title) ==> selected.Some? && title != ""
  {
    selected.Some? && Trim(title) != ""
  }

  /** A title can be added exactly when it holds a character that is not whitespace. */
  lemma CanAddIffVisible(selected: Option<WidgetType>, title: string)
    ensures CanAdd(selected, title) <==> selected.Some? && exists k | 0 <= k < |title| :: !IsWhitespace(title[k])
  {
  }

  class Menu {
    var isOpen: bool
    var widgetTitle: string
    var selectedType: Option<WidgetType>

    constructor ()
      ensures !isOpen && widgetTitle == "" && selectedType == None
    {
      isOpen := false;
      widgetTitle := "";
      selectedType := None;
    }

    /** `toggleMenu`: flips the menu open or shut and clears the title and the selection. */
    method ToggleMenu()
      modifies this
      ensures isOpen == !old(isOpen)
      ensures widgetTitle == "" && selectedType == None
    {
      isOpen := !isOpen;
      selectedType := None;
      widgetTitle := "";
    }

    /** The title input's `onChange`. */
    method SetTitle(title: string)
      modifies this
      ensures widgetTitle == title
      ensures isOpen == old(isOpen) && selectedType == old(selectedType)
    {
      widgetTitle := title;
    }

    /** A picker button's `onClick`. */
    method SelectType(t: WidgetType)
      modifies this
      ensures selectedType == Some(t)
      ensures isOpen == old(isOpen) && widgetTitle == old(widgetTitle)
    {
      selectedType := Some(t);
    }

    /** The Add button's `disabled` attribute: no kind selected, or a blank title. */
    function AddDisabled(): (disabled: bool)
      reads this
      ensures disabled <==> !CanAdd(selectedType, widgetTitle)
      ensures disabled <==> selectedType.None? || forall k | 0 <= k < |widgetTitle| :: IsWhitespace(widgetTitle[k])
    {
      selectedType.None? || Trim(widgetTitle) == ""
    }

    /** `handleAddWidget`: when the menu's state allows it, the store adds a widget of the selected kind with
        the title as typed (not trimmed) and the menu toggles shut; otherwise nothing changes. */
    method HandleAddWidget(store: Store, id: string) returns (added: bool)
      modifies this, store
      ensures added <==> old(CanAdd(selectedType, widgetTitle))
      ensures added ==>
        && store.widgets == old(store.widgets) + [NewWidget(old(selectedType).value, old(widgetTitle), id)]
        && store.layouts == old(store.layouts) + [NewLayout(id, DefaultSize(old(selectedType).value))]
        && isOpen == !old(isOpen) && widgetTitle == "" && selectedType == None
      ensures !added ==>
        && store.widgets == old(store.widgets) && store.layouts == old(store.layouts)
        && isOpen == old(isOpen) && widgetTitle == old(widgetTitle) && selectedType == old(selectedType)
      ensures store.theme == old(store.theme)
      ensures old(store.Valid()) && id !in KeySet(old(store.widgets), WidgetKey) ==> store.Valid()
    {
      added := CanAdd(selectedType, widgetTitle);
      if added {
        store.AddWidget(selectedType.value, widgetTitle, id);
        ToggleMenu();
      }
    }
  }
}
