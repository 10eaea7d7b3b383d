/** The dashboard component: the responsive breakpoint table, the `mounted`
    flag that gates layout changes, remove forwarding, and one tick of the
    simulated live feed. */
module DashboardGrid {
  import opened WidgetTypes
  import opened Numbers
  import opened DemoData
  import opened Seqs
  import opened DashboardStore

  datatype Breakpoint = Lg | Md | Sm | Xs | Xxs

  /** The smallest width, in pixels, at which a breakpoint applies. */
  function MinWidth(b: Breakpoint): (w: nat)
    ensures w == 0 <==> b == Xxs
    ensures w <= 1200
  {
    match b
    case Lg => 1200
    case Md => 996
    case Sm => 768
    case Xs => 480
    case Xxs => 0
  }

  /** The grid columns at a breakpoint: an even count from 2 to 12. */
  function Columns(b: Breakpoint): (c: nat)
    ensures 2 <= c <= 12 && c % 2 == 0
    ensures c == 12 <==> b == Lg
  {
    match b
    case Lg => 12
    case Md => 10
    case Sm => 6
    case Xs => 4
    case Xxs => 2
  }

  /** Distinct breakpoints start at distinct widths, and a wider breakpoint never has fewer columns. */
  lemma ColumnsMonotone(a: Breakpoint, b: Breakpoint)
    ensures a != b ==> MinWidth(a) != MinWidth(b)
    ensures MinWidth(a) >= MinWidth(b) ==> Columns(a) >= Columns(b)
    ensures MinWidth(a) > MinWidth(b) ==> Columns(a) > Columns(b)
  {
  }

  /** What one tick did: the index it picked and the widget it wrote back. */
  datatype TickUpdate = TickUpdate(index: nat, widget: Widget)

  class Dashboard {
    const store: Store
    var mounted: bool

    constructor (store: Store)
      ensures this.store == store && !mounted
    {
      this.store := store;
      mounted := false;
    }

    /** The mount effect sets `mounted`; its cleanup clears it. */
    method Mount()
      modifies this
      ensures mounted
    {
      mounted := true;
    }

    method Unmount()
      modifies this
      ensures !mounted
    {
      mounted := false;
    }

    /** `handleLayoutChange`: forwards the grid's layouts to the store while mounted, and otherwise drops them. */
    method HandleLayoutChange(layout: seq<Layout>)
      modifies store
      ensures mounted ==> store.layouts == layout
      ensures !mounted ==> store.layouts == old(store.layouts)
      ensures store.widgets == old(store.widgets) && store.theme == old(store.theme)
    {
      if mounted {
        store.UpdateLayouts(layout);
      }
    }

    /** `handleRemoveWidget`: passes the same id on to the store. */
    method HandleRemoveWidget(id: string)
      modifies store
      ensures store.widgets == Without(old(store.widgets), WidgetKey, id)
      ensures store.layouts == Without(old(store.layouts), LayoutKey, id)
      ensures store.theme == old(store.theme)
      ensures old(store.Valid()) ==> store.Valid()
    {
      store.RemoveWidget(id);
    }

    /** One tick of the update interval: with no widgets nothing happens; otherwise `pick` chooses an index,
        that widget is updated by the feed's rule and written back by id (to every widget sharing its id, which
        with distinct ids is that position alone), and nothing else changes. The tick keeps the store invariant. */
    method Tick(pick: real, d: Draws) returns (update: Option<TickUpdate>)
      requires AllWellTyped(store.widgets)
      requires IsDraw(pick) && ValidDraws(d)
      modifies store
      ensures update.None? <==> |old(store.widgets)| == 0
      ensures update.None? ==> store.widgets == old(store.widgets)
      ensures update.Some? ==>
        var k, u := update.value.index, update.value.widget;
        && k == ScaledFloor(pick, |old(store.widgets)|) && k < |old(store.widgets)|
        && UpdateRule(old(store.widgets)[k], u, d)
        && store.widgets == WriteBack(old(store.widgets), u)
        && (UniqueKeys(old(store.widgets), WidgetKey) ==> store.widgets == old(store.widgets)[k := u])
      ensures store.layouts == old(store.layouts) && store.theme == old(store.theme)
      ensures AllWellTyped(store.widgets)
      ensures old(store.Valid()) ==> store.Valid()
    {
      var widgets := store.widgets;
      if |widgets| > 0 {
        var k := ScaledFloor(pick, |widgets|);
        assert widgets[k] in widgets;
        var updated := UpdateWidgetData(widgets[k], d);
        var r := WriteBack(widgets, updated);
        if UniqueKeys(widgets, WidgetKey) {
          WriteBackAt(widgets, k, updated);
        }
        if store.Valid() {
          WriteBackKeepsValid(widgets, store.layouts, updated);
        }
        forall w | w in r
          ensures WellTyped(w)
        {
          var j :| 0 <= j < |r| && r[j] == w;
          assert widgets[j] in widgets;
        }
        store.SetWidgets(r);
        update := Some(TickUpdate(k, updated));
      } else {
        update := None;
      }
    }
  }
}
