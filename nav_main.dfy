/**
 * One entry of the navigation list: its click handler, which toggles the chat
 * overlay for "Chat" and closes it for every other entry, and the attributes
 * that its `isActive` and `expanded` props select.
 */
module NavMain {
  import opened Optional
  import opened Routes
  import opened OverlaySidebarStore
  import opened UseOverlaySidebar

  /** The props a navigation list passes to each entry. */
  datatype NavItem = NavItem(title: string, url: string, isActive: bool, alert: bool)

  /** Whether the link's own navigation goes ahead after the click handler has run. */
  datatype LinkOutcome = FollowLink | SuppressLink

  /** At most one entry of a list is marked active. */
  predicate AtMostOneActive(items: seq<NavItem>)
  {
    forall i, j :: 0 <= i < |items| && 0 <= j < |items| && items[i].isActive && items[j].isActive ==> i == j
  }

  /** JavaScript truthiness of the `expanded` prop, which a caller may leave undefined. */
  function Truthy(expanded: Option<bool>): (r: bool)
    ensures r <==> expanded == Some(true)
  {
    expanded.GetOr(false)
  }

  /** The `aria-current` attribute: "page" on the active entry, absent otherwise. */
  function AriaCurrent(isActive: bool): (r: Option<string>)
    ensures r.Some? <==> isActive
    ensures r.Some? ==> r.value == "page"
  {
    if isActive then Some("page") else None
  }

  /** The `data-state` attribute. */
  function DataState(isActive: bool): (r: string)
    ensures isActive ==> r == "active"
    ensures !isActive ==> r == "closed"
  {
    if isActive then "active" else "closed"
  }

  /** The side bar that marks the active entry is drawn only when the list is collapsed. */
  function ShowsActiveIndicator(expanded: Option<bool>, isActive: bool): (r: bool)
    ensures r <==> isActive && expanded != Some(true)
  {
    !Truthy(expanded) && isActive
  }

  /**
   * The click handler of the entry titled `title`. The entry reads `visible`
   * and calls `open`/`close` through its own hydration gate `hook`.
   */
  method HandleClick(title: string, hook: OverlayHook) returns (outcome: LinkOutcome)
    requires hook.store.Valid()
    modifies hook.store
    ensures hook.store.Valid()
    ensures outcome == SuppressLink <==> title == ChatTitle
    ensures hook.store.expanded == old(hook.store.expanded)
    ensures !hook.isHydrated ==> hook.store.State() == old(hook.store.State())
    ensures hook.isHydrated && title == ChatTitle ==>
      hook.store.State() == Apply(old(hook.store.State()), if old(hook.store.visible) then Close else Open)
    ensures hook.isHydrated && title != ChatTitle ==>
      hook.store.State() == (if old(hook.store.visible) then Apply(old(hook.store.State()), Close) else old(hook.store.State()))
  {
    var visible := hook.View().visible;
    if title == ChatTitle {
      outcome := SuppressLink;
      if visible {
        hook.Close();
      } else {
        hook.Open();
      }
      return;
    }
    outcome := FollowLink;
    if visible {
      hook.Close();
    }
  }

  /** Once hydrated, a click on "Chat" flips the overlay's visibility and its highlight with it. */
  method ChatClickFlipsOverlay(hook: OverlayHook) returns (outcome: LinkOutcome)
    requires hook.store.Valid() && hook.isHydrated
    modifies hook.store
    ensures outcome == SuppressLink
    ensures hook.store.visible == !old(hook.store.visible)
    ensures hook.store.tempChatHighlight == hook.store.visible
  {
    outcome := HandleClick(ChatTitle, hook);
  }

  /** Two clicks on "Chat" from a hidden overlay leave it hidden again. */
  method ChatTwiceFromHidden(hook: OverlayHook)
    requires hook.store.Valid() && hook.isHydrated && !hook.store.visible
    modifies hook.store
    ensures hook.store.State() == old(hook.store.State())
  {
    var first := HandleClick(ChatTitle, hook);
    assert hook.store.visible;
    var second := HandleClick(ChatTitle, hook);
  }

  /** Chat opens the overlay; a click on "Explorar" closes it and lets the link navigate. */
  method ChatThenExplorar(hook: OverlayHook) returns (outcome: LinkOutcome)
    requires hook.store.Valid() && hook.isHydrated && !hook.store.visible
    modifies hook.store
    ensures outcome == FollowLink
    ensures !hook.store.visible && !hook.store.tempChatHighlight
  {
    var first := HandleClick(ChatTitle, hook);
    assert hook.store.visible && hook.store.tempChatHighlight;
    outcome := HandleClick(Titles[1], hook);
  }
}
