/** The theme toggle: the class it puts on the document root for the selected theme, the media-query
    listener it keeps subscribed while mounted, and its three buttons. The document's class list is a
    set of names; the `prefers-color-scheme: dark` query is the field `systemDark`. */
module ThemeToggle {
  import opened WidgetTypes
  import opened DashboardStore

  /** The class a theme puts on the root: light and dark are themselves, system follows the query. */
  function Resolve(t: ThemeType, systemDark: bool): (c: string)
    ensures c == "light" || c == "dark"
    ensures t == Light ==> c == "light"
    ensures t == Dark ==> c == "dark"
    ensures t == System ==> (c == "dark" <==> systemDark)
  {
    match t
    case Light => "light"
    case Dark => "dark"
    case System => if systemDark then "dark" else "light"
  }

  /** `classList.remove('light', 'dark')` followed by `classList.add(c)`. */
  function ApplyClass(classes: set<string>, c: string): (r: set<string>)
    requires c == "light" || c == "dark"
    ensures c in r
    ensures c == "light" ==> "dark" !in r
    ensures c == "dark" ==> "light" !in r
    ensures r - {"light", "dark"} == classes - {"light", "dark"}
  {
    classes - {"light", "dark"} + {c}
  }

  /** The root shows `c` and not the other theme class. */
  predicate Shows(classes: set<string>, c: string)
  {
    c in classes && (if c == "light" then "dark" else "light") !in classes
  }

  /** Applying a class leaves only the last one applied: repeating it changes nothing, and an earlier one is forgotten. */
  lemma ApplyLastWins(classes: set<string>, a: string, b: string)
    requires a == "light" || a == "dark"
    requires b == "light" || b == "dark"
    ensures ApplyClass(ApplyClass(classes, a), b) == ApplyClass(classes, b)
    ensures Shows(ApplyClass(classes, b), b)
  {
  }

  datatype ThemeButton = SunButton | MoonButton | MonitorButton

  /** The theme each button's `onClick` selects. */
  function ButtonTheme(b: ThemeButton): (t: ThemeType)
    ensures t == Light <==> b == SunButton
    ensures t == Dark <==> b == MoonButton
    ensures t == System <==> b == MonitorButton
  {
    match b
    case SunButton => Light
    case MoonButton => Dark
    case MonitorButton => System
  }

  /** Each theme highlights exactly one button, the one that selects it. */
  lemma {:induction false} OneButtonHighlighted(t: ThemeType)
    ensures exists b :: ButtonTheme(b) == t
    ensures forall b, b' :: ButtonTheme(b) == t && ButtonTheme(b') == t ==> b == b'
  {
    match t
    case Light => assert ButtonTheme(SunButton) == t;
    case Dark => assert ButtonTheme(MoonButton) == t;
    case System => assert ButtonTheme(MonitorButton) == t;
  }

  class ThemeToggle {
    const store: Store
    /** The classes on `document.documentElement`. */
    var root: set<string>
    /** Whether the system currently prefers a dark scheme. */
    var systemDark: bool
    /** The theme of the last render, which both effects ran for. */
    var shown: ThemeType
    /** The subscribed `change` handlers, each with the theme it closed over. */
    var listeners: seq<ThemeType>
    var mounted: bool

    /** While mounted, exactly one handler is subscribed, for the rendered theme, and the root shows that
        theme as resolved against the system preference; once unmounted, no handler is left. */
    predicate Valid()
      reads this
    {
      && (mounted ==> listeners == [shown] && Shows(root, Resolve(shown, systemDark)))
      && (!mounted ==> listeners == [])
    }

    /** The first render: the apply effect runs, then the listener effect subscribes. */
    constructor (store: Store, root: set<string>, systemDark: bool)
      ensures this.store == store && mounted
      ensures this.root == ApplyClass(root, Resolve(store.theme, systemDark))
      ensures this.systemDark == systemDark && shown == store.theme
      ensures listeners == [store.theme]
      ensures Valid()
    {
      this.store := store;
      this.systemDark := systemDark;
      shown := store.theme;
      mounted := true;
      this.root := ApplyClass(root, Resolve(store.theme, systemDark));
      listeners := [store.theme];
    }

    /** A render with the store's theme `t`: the effects depend on the theme, so when it changed the old
        handler is removed, the class is re-applied and a handler for the new theme is subscribed. */
    method Render(t: ThemeType)
      requires mounted && Valid()
      modifies this
      ensures shown == t && mounted && systemDark == old(systemDark)
      ensures t != old(shown) ==> root == ApplyClass(old(root), Resolve(t, systemDark))
      ensures t == old(shown) ==> root == old(root)
      ensures listeners == [t]
      ensures Valid()
    {
      if t != shown {
        listeners := [];
        root := ApplyClass(root, Resolve(t, systemDark));
        listeners := [t];
        shown := t;
      }
    }

    /** The system preference changes: the subscribed handler re-applies the class only when it closed over
        the system theme; with an explicit theme the root keeps its class. */
    method SystemChange(dark: bool)
      requires Valid()
      modifies this
      ensures systemDark == dark
      ensures mounted && shown == System ==> root == ApplyClass(old(root), Resolve(System, dark))
      ensures !(mounted && shown == System) ==> root == old(root)
      ensures shown == old(shown) && listeners == old(listeners) && mounted == old(mounted)
      ensures Valid()
    {
      systemDark := dark;
      if |listeners| > 0 && listeners[0] == System {
        root := ApplyClass(root, if dark then "dark" else "light");
      }
    }

    /** A click on a button sets the store's theme, and the store change re-renders the toggle. */
    method Click(b: ThemeButton)
      requires mounted && Valid()
      modifies this, store
      ensures store.theme == ButtonTheme(b) && shown == ButtonTheme(b)
      ensures ButtonTheme(b) != old(shown) ==> root == ApplyClass(old(root), Resolve(ButtonTheme(b), systemDark))
      ensures ButtonTheme(b) == old(shown) ==> root == old(root)
      ensures systemDark == old(systemDark) && mounted
      ensures store.widgets == old(store.widgets) && store.layouts == old(store.layouts)
      ensures Shows(root, Resolve(ButtonTheme(b), systemDark))
      ensures listeners == [ButtonTheme(b)]
      ensures Valid()
    {
      store.SetTheme(ButtonTheme(b));
      Render(store.theme);
    }

    /** Unmounting runs the listener effect's cleanup; the root keeps its class. */
    method Unmount()
      requires Valid()
      modifies this
      ensures !mounted && listeners == []
      ensures root == old(root) && shown == old(shown) && systemDark == old(systemDark)
      ensures Valid()
    {
      listeners := [];
      mounted := false;
    }
  }
}
