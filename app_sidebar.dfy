/**
 * The main sidebar: its navigation list, active by plain route equality, and
 * its collapse button, which toggles the main sidebar store.
 */
module AppSidebar {
  import opened Optional
  import opened Routes
  import opened NavMain
  import opened SidebarStore
  import opened UseSidebar

  /** The main sidebar's navigation entries for the current route. */
  function MainNavItems(pathname: string): (items: seq<NavItem>)
    ensures |items| == |Urls|
    ensures forall i :: IsEntry(i) ==> items[i].title == Titles[i] && items[i].url == Urls[i]
    ensures forall i :: IsEntry(i) ==> (items[i].isActive <==> pathname == Urls[i])
    ensures forall i :: IsEntry(i) ==> (items[i].alert <==> i == 0)
    ensures AtMostOneActive(items)
    ensures pathname !in Urls ==> forall i :: IsEntry(i) ==> !items[i].isActive
  {
    UrlsDistinct();
    [
      NavItem(ChatTitle, ChatUrl, pathname == ChatUrl, true),
      NavItem("Explorar", "/app/explorar", pathname == "/app/explorar", false),
      NavItem("Guardados", "/app/guardados", pathname == "/app/guardados", false),
      NavItem("Viajes", "/app/viajes", pathname == "/app/viajes", false),
      NavItem("Inspiración", "/app/inspiracion", pathname == "/app/inspiracion", false)
    ]
  }

  /** The active entry is the one the route table finds for the pathname. */
  lemma ActiveIsRouteIndex(pathname: string)
    ensures forall i :: IsEntry(i) ==> (MainNavItems(pathname)[i].isActive <==> RouteIndex(pathname) == Some(i))
  {
  }

  /**
   * Exactly the route's entry carries `aria-current="page"`, so at most one
   * does, and `data-state` is "active" on exactly that entry.
   */
  lemma AriaCurrentMarksRouteEntry(pathname: string)
    ensures forall i :: IsEntry(i) ==>
      (AriaCurrent(MainNavItems(pathname)[i].isActive) == Some("page") <==> pathname == Urls[i])
    ensures forall i, j ::
      (IsEntry(i) && IsEntry(j) &&
       AriaCurrent(MainNavItems(pathname)[i].isActive) == Some("page") &&
       AriaCurrent(MainNavItems(pathname)[j].isActive) == Some("page")) ==> i == j
    ensures forall i :: IsEntry(i) ==>
      (DataState(MainNavItems(pathname)[i].isActive) == "active" <==> AriaCurrent(MainNavItems(pathname)[i].isActive).Some?)
  {
  }

  /** The main sidebar renders its list without an `expanded` prop. */
  const NavMainExpanded: Option<bool> := None

  /** Without the prop every entry behaves as collapsed: the active one always shows its side marker. */
  lemma IndicatorIgnoresSidebarWidth(pathname: string)
    ensures forall i :: IsEntry(i) ==>
      (ShowsActiveIndicator(NavMainExpanded, MainNavItems(pathname)[i].isActive) <==> pathname == Urls[i])
  {
  }

  /** The accessible label of a collapse button, from the width of the panel it sits in. */
  function CollapseLabel(expanded: bool): (text: string)
    ensures expanded ==> text == "Colapsar sidebar"
    ensures !expanded ==> text == "Expandir sidebar"
  {
    if expanded then "Colapsar sidebar" else "Expandir sidebar"
  }

  /**
   * The label names what a click will do: once hydrated, "Colapsar sidebar"
   * shows exactly when the click leaves the sidebar collapsed. Before hydration
   * the label reads "Colapsar sidebar" whatever is stored.
   */
  lemma LabelNamesTheClick(isHydrated: bool, stored: bool)
    ensures !isHydrated ==> CollapseLabel(ViewOf(isHydrated, stored).expanded) == "Colapsar sidebar"
    ensures isHydrated ==>
      (CollapseLabel(ViewOf(isHydrated, stored).expanded) == "Colapsar sidebar" <==> !Apply(stored, Toggle))
    ensures isHydrated ==>
      (CollapseLabel(ViewOf(isHydrated, stored).expanded) == "Expandir sidebar" <==> Apply(stored, Toggle))
  {
  }

  /** The collapse button calls `toggle` through the sidebar's gate. */
  method OnCollapseButtonClick(hook: SidebarHook)
    requires hook.store.Valid()
    modifies hook.store
    ensures hook.store.Valid()
    ensures hook.isHydrated ==> hook.store.expanded == !old(hook.store.expanded)
    ensures !hook.isHydrated ==> unchanged(hook.store)
  {
    hook.Toggle();
  }

  /**
   * A click on the button the user sees labelled `shown`: after hydration the
   * label was "Colapsar sidebar" exactly when the click collapses the sidebar;
   * before hydration it read "Colapsar sidebar" and the click changed nothing.
   */
  method ClickLabelledButton(hook: SidebarHook) returns (shown: string)
    requires hook.store.Valid()
    modifies hook.store
    ensures hook.store.Valid()
    ensures shown == CollapseLabel(old(hook.View().expanded))
    ensures hook.isHydrated ==> (shown == "Colapsar sidebar" <==> !hook.store.expanded)
    ensures !hook.isHydrated ==> shown == "Colapsar sidebar" && unchanged(hook.store)
  {
    shown := CollapseLabel(hook.View().expanded);
    OnCollapseButtonClick(hook);
  }
}
