/**
 * The hydration gate in front of the main sidebar store: before its first
 * effect it reports the sidebar expanded and ignores updates; afterwards it
 * passes the store's value and operations through.
 */
module UseSidebar {
  import opened SidebarStore

  datatype SidebarView = SidebarView(expanded: bool, isHydrated: bool)

  /** The view of stored value `expanded` through a gate whose flag is `isHydrated`. */
  function ViewOf(isHydrated: bool, expanded: bool): (v: SidebarView)
    ensures v.isHydrated == isHydrated
    ensures v.expanded == (!isHydrated || expanded)
  {
    if !isHydrated then SidebarView(true, false) else SidebarView(expanded, true)
  }

  class SidebarHook {
    const store: SidebarStore
    var isHydrated: bool

    constructor (store: SidebarStore)
      ensures this.store == store && !isHydrated
    {
      this.store := store;
      isHydrated := false;
    }

    /** The mount effect: sets the flag; nothing sets it back. */
    method Hydrate()
      modifies this
      ensures isHydrated
    {
      isHydrated := true;
    }

    function View(): (v: SidebarView)
      reads this, store
    {
      ViewOf(isHydrated, store.expanded)
    }

    method Toggle()
      requires store.Valid()
      modifies store
      ensures store.Valid()
      ensures isHydrated ==> store.expanded == Apply(old(store.expanded), SidebarOp.Toggle)
      ensures !isHydrated ==> unchanged(store)
    {
      if isHydrated { store.Toggle(); }
    }

    method SetExpanded(x: bool)
      requires store.Valid()
      modifies store
      ensures store.Valid()
      ensures isHydrated ==> store.expanded == Apply(old(store.expanded), SidebarOp.SetExpanded(x))
      ensures !isHydrated ==> unchanged(store)
    {
      if isHydrated { store.SetExpanded(x); }
    }
  }
}
