/**
 * The overlay panel's collapse button: it narrows a wide panel, and closes a
 * narrow one while forcing the main sidebar back open. The button reads
 * `expanded` and calls the stores through the components' hydration gates.
 */
module OverlaySidebar {
  import opened OverlaySidebarStore
  import opened UseOverlaySidebar
  import opened UseSidebar
  import AppSidebar

  /** The store calls the handler makes, in the order it makes them. */
  datatype CollapseCall = OverlayToggleExpanded | OverlayClose | MainSetExpanded(value: bool)

  method OnCollapseButtonClick(overlay: OverlayHook, main: SidebarHook) returns (calls: seq<CollapseCall>)
    requires overlay.store.Valid() && main.store.Valid()
    modifies overlay.store, main.store
    ensures overlay.store.Valid() && main.store.Valid()
    ensures old(overlay.View().expanded) ==> calls == [OverlayToggleExpanded]
    ensures old(overlay.View().expanded) ==>
      overlay.store.State() == GatedApply(overlay.isHydrated, old(overlay.store.State()), ToggleExpanded)
    ensures old(overlay.View().expanded) ==> unchanged(main.store)
    ensures !old(overlay.View().expanded) ==> calls == [OverlayClose, MainSetExpanded(true)]
    ensures !old(overlay.View().expanded) ==>
      overlay.store.State() == Apply(old(overlay.store.State()), Close) && !overlay.store.expanded
    ensures !old(overlay.View().expanded) && main.isHydrated ==> main.store.expanded
    ensures !old(overlay.View().expanded) && !main.isHydrated ==> unchanged(main.store)
    ensures AppSidebar.CollapseLabel(old(overlay.View().expanded)) == "Colapsar sidebar" <==> calls == [OverlayToggleExpanded]
  {
    if overlay.View().expanded {
      overlay.ToggleExpanded();
      calls := [OverlayToggleExpanded];
    } else {
      overlay.Close();
      main.SetExpanded(true);
      calls := [OverlayClose, MainSetExpanded(true)];
    }
  }

  /** From a wide, shown overlay, two clicks hide it and leave the main sidebar expanded. */
  method CollapseTwice(overlay: OverlayHook, main: SidebarHook)
    requires overlay.store.Valid() && main.store.Valid()
    requires overlay.isHydrated && main.isHydrated
    requires overlay.store.visible && overlay.store.expanded
    modifies overlay.store, main.store
    ensures !overlay.store.visible && !overlay.store.tempChatHighlight && !overlay.store.expanded
    ensures main.store.expanded
  {
    var first := OnCollapseButtonClick(overlay, main);
    assert overlay.store.visible && !overlay.store.expanded;
    var second := OnCollapseButtonClick(overlay, main);
  }
}
