/**
 * The overlay panel's content: the same navigation list, where "Chat" is
 * also active while the overlay's highlight flag is set, and where that flag
 * switches every other entry off.
 */
module SidebarContent {
  import opened Optional
  import opened Routes
  import opened NavMain
  import AppSidebar

  /** The overlay's navigation entries for the current route and highlight flag. */
  function MainNavItems(pathname: string, tempChatHighlight: bool): (items: seq<NavItem>)
    ensures |items| == |Urls|
    ensures forall i :: IsEntry(i) ==> items[i].title == Titles[i] && items[i].url == Urls[i] && !items[i].alert
    ensures items[0].isActive <==> pathname == ChatUrl || tempChatHighlight
    ensures tempChatHighlight ==> items[0].isActive && forall i :: 0 < i < |items| ==> !items[i].isActive
    ensures !tempChatHighlight ==> forall i :: IsEntry(i) ==> (items[i].isActive <==> pathname == Urls[i])
    ensures AtMostOneActive(items)
  {
    UrlsDistinct();
    [
      NavItem(ChatTitle, ChatUrl, pathname == ChatUrl || tempChatHighlight, false),
      NavItem("Explorar", "/app/explorar", !tempChatHighlight && pathname == "/app/explorar", false),
      NavItem("Guardados", "/app/guardados", !tempChatHighlight && pathname == "/app/guardados", false),
      NavItem("Viajes", "/app/viajes", !tempChatHighlight && pathname == "/app/viajes", false),
      NavItem("Inspiración", "/app/inspiracion", !tempChatHighlight && pathname == "/app/inspiracion", false)
    ]
  }

  /** The entry to mark: Chat while highlighted, else the entry whose route is the pathname. */
  function ActiveIndex(pathname: string, tempChatHighlight: bool): (r: Option<nat>)
  {
    if tempChatHighlight then Some(0) else RouteIndex(pathname)
  }

  /** An entry is active exactly when it is the one `ActiveIndex` names. */
  lemma ActiveIsActiveIndex(pathname: string, tempChatHighlight: bool)
    ensures forall i :: IsEntry(i) ==>
      (MainNavItems(pathname, tempChatHighlight)[i].isActive <==> ActiveIndex(pathname, tempChatHighlight) == Some(i))
  {
  }

  /** With the highlight off, the overlay marks the same entry as the main sidebar. */
  lemma NoHighlightMatchesMainSidebar(pathname: string)
    ensures forall i :: IsEntry(i) ==>
      MainNavItems(pathname, false)[i].isActive == AppSidebar.MainNavItems(pathname)[i].isActive
  {
  }

  /**
   * Exactly the entry `ActiveIndex` names carries `aria-current="page"` (so at
   * most one does), and `data-state` is "active" on exactly that entry.
   */
  lemma AriaCurrentMarksActiveIndex(pathname: string, tempChatHighlight: bool)
    ensures forall i :: IsEntry(i) ==>
      (AriaCurrent(MainNavItems(pathname, tempChatHighlight)[i].isActive) == Some("page") <==>
       ActiveIndex(pathname, tempChatHighlight) == Some(i))
    ensures forall i, j ::
      (IsEntry(i) && IsEntry(j) &&
       AriaCurrent(MainNavItems(pathname, tempChatHighlight)[i].isActive) == Some("page") &&
       AriaCurrent(MainNavItems(pathname, tempChatHighlight)[j].isActive) == Some("page")) ==> i == j
    ensures forall i :: IsEntry(i) ==>
      (DataState(MainNavItems(pathname, tempChatHighlight)[i].isActive) == "active" <==>
       AriaCurrent(MainNavItems(pathname, tempChatHighlight)[i].isActive).Some?)
  {
    ActiveIsActiveIndex(pathname, tempChatHighlight);
  }
}
