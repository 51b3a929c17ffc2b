/**
 * The main sidebar store: one `expanded` flag, persisted under a fixed storage
 * key. The store is rehydrated from storage when it is created and written
 * back after every update.
 */
module SidebarStore {
  import opened Optional

  /** The value of a store created with nothing in storage. */
  const DefaultExpanded := true

  /** The store's two operations, as values. */
  datatype SidebarOp = SetExpanded(value: bool) | Toggle

  function Apply(expanded: bool, op: SidebarOp): (r: bool)
  {
    match op
    case SetExpanded(x) => x
    case Toggle => !expanded
  }

  /** The value after applying `ops` in order. */
  function Run(expanded: bool, ops: seq<SidebarOp>): (r: bool)
    decreases |ops|
  {
    if ops == [] then expanded else Run(Apply(expanded, ops[0]), ops[1..])
  }

  /** `n` consecutive toggles. */
  function Toggles(n: nat): (ops: seq<SidebarOp>)
    ensures |ops| == n && forall k :: 0 <= k < n ==> ops[k] == Toggle
  {
    seq(n, _ => Toggle)
  }

  /** The value a store created from storage contents `stored` starts with. */
  function Rehydrate(stored: Option<bool>): (r: bool)
    ensures stored.Some? ==> r == stored.value
    ensures stored.None? ==> r == DefaultExpanded
  {
    stored.GetOr(DefaultExpanded)
  }

  /** Setting is absolute and idempotent; toggling twice is the identity. */
  lemma OperationLaws(v: bool, x: bool)
    ensures Apply(v, SetExpanded(x)) == x
    ensures Apply(Apply(v, SetExpanded(x)), SetExpanded(x)) == Apply(v, SetExpanded(x))
    ensures Apply(v, Toggle) == !v
    ensures Apply(Apply(v, Toggle), Toggle) == v
  {
  }

  /** After `n` toggles from `v` the flag is `v` exclusive-or "n is odd". */
  lemma {:induction false} TogglesParity(v: bool, n: nat)
    ensures Run(v, Toggles(n)) == (v != (n % 2 == 1))
    decreases n
  {
    if n > 0 {
      assert Toggles(n)[0] == Toggle;
      assert Toggles(n)[1..] == Toggles(n - 1);
      TogglesParity(!v, n - 1);
    }
  }

  /** The store object. `persisted` stands for the durable record; JSON storage itself is not modelled. */
  class SidebarStore {
    var expanded: bool
    ghost var persisted: Option<bool>

    /** Reloading the page now would give back the current value. */
    ghost predicate Valid()
      reads this
    {
      expanded == Rehydrate(persisted)
    }

    /** Creation with storage contents `stored` (None when the key is absent). */
    constructor (stored: Option<bool>)
      ensures Valid() && persisted == stored
      ensures expanded == Rehydrate(stored)
    {
      expanded := stored.GetOr(DefaultExpanded);
      persisted := stored;
    }

    method SetExpanded(x: bool)
      requires Valid()
      modifies this
      ensures Valid() && expanded == Apply(old(expanded), SidebarOp.SetExpanded(x))
      ensures persisted == Some(expanded)
    {
      expanded := x;
      persisted := Some(expanded);
    }

    method Toggle()
      requires Valid()
      modifies this
      ensures Valid() && expanded == Apply(old(expanded), SidebarOp.Toggle)
      ensures persisted == Some(expanded)
    {
      expanded := !expanded;
      persisted := Some(expanded);
    }
  }

  /** From a first visit, one collapse is what a reload reads back. */
  method CollapseOnFirstVisit() returns (store: SidebarStore)
    ensures fresh(store) && store.Valid()
    ensures !store.expanded && store.persisted == Some(false) && !Rehydrate(store.persisted)
  {
    store := new SidebarStore(None);
    assert store.expanded;
    store.Toggle();
  }
}
