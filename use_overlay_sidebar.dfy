/**
 * The hydration gate in front of the overlay store. Until the component's
 * first effect has run, it reports fixed defaults and its operations do
 * nothing; afterwards it passes the store's fields and operations through.
 * Each component that uses the gate has its own flag; the store is shared.
 */
module UseOverlaySidebar {
  import opened OverlaySidebarStore

  /** What the gate hands to a component. */
  datatype OverlayView = OverlayView(visible: bool, expanded: bool, tempChatHighlight: bool, isHydrated: bool)

  /** The view of store state `s` through a gate whose flag is `isHydrated`. */
  function ViewOf(isHydrated: bool, s: OverlayState): (v: OverlayView)
    ensures v.isHydrated == isHydrated
    ensures v.visible == (isHydrated && s.visible)
    ensures v.tempChatHighlight == (isHydrated && s.tempChatHighlight)
    ensures v.expanded == (!isHydrated || s.expanded)
  {
    if !isHydrated then
      OverlayView(false, true, false, false)
    else
      OverlayView(s.visible, s.expanded, s.tempChatHighlight, true)
  }

  /** The effect on the store of calling operation `op` through the gate. */
  function GatedApply(isHydrated: bool, s: OverlayState, op: OverlayOp): (t: OverlayState)
    ensures !isHydrated ==> t == s
    ensures isHydrated ==> t == Apply(s, op)
  {
    if isHydrated then Apply(s, op) else s
  }

  /** The gate keeps the store's pairing visible to components. */
  lemma ViewKeepsPairing(isHydrated: bool, s: OverlayState)
    requires Paired(s)
    ensures ViewOf(isHydrated, s).visible == ViewOf(isHydrated, s).tempChatHighlight
  {
  }

  /** Before hydration the view reports a full-width panel, although a fresh store holds a narrow one. */
  lemma DefaultDisagreesWithInitialStore()
    ensures ViewOf(false, Initial).expanded && !Initial.expanded
    ensures ViewOf(true, Initial).expanded == Initial.expanded
  {
  }

  class OverlayHook {
    const store: OverlayStore
    var isHydrated: bool

    /** The first render: the flag starts false. */
    constructor (store: OverlayStore)
      ensures this.store == store && !isHydrated
    {
      this.store := store;
      isHydrated := false;
    }

    /** The mount effect: sets the flag; nothing sets it back. */
    method Hydrate()
      modifies this
      ensures isHydrated
    {
      isHydrated := true;
    }

    function View(): (v: OverlayView)
      reads this, store
    {
      ViewOf(isHydrated, store.State())
    }

    method Open()
      requires store.Valid()
      modifies store
      ensures store.Valid() && store.State() == GatedApply(isHydrated, old(store.State()), OverlayOp.Open)
    {
      if isHydrated { store.Open(); }
    }

    method Close()
      requires store.Valid()
      modifies store
      ensures store.Valid() && store.State() == GatedApply(isHydrated, old(store.State()), OverlayOp.Close)
    {
      if isHydrated { store.Close(); }
    }

    method SetExpanded(x: bool)
      requires store.Valid()
      modifies store
      ensures store.Valid() && store.State() == GatedApply(isHydrated, old(store.State()), OverlayOp.SetExpanded(x))
    {
      if isHydrated { store.SetExpanded(x); }
    }

    method ToggleExpanded()
      requires store.Valid()
      modifies store
      ensures store.Valid() && store.State() == GatedApply(isHydrated, old(store.State()), OverlayOp.ToggleExpanded)
    {
      if isHydrated { store.ToggleExpanded(); }
    }
  }
}
