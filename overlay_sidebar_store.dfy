/**
 * The overlay visibility store: whether the chat overlay is shown, whether its
 * panel is at full width, and the flag that marks "Chat" active while it is
 * shown. Every operation is a single synchronous update of the fields it names.
 */
module OverlaySidebarStore {

  datatype OverlayState = OverlayState(visible: bool, expanded: bool, tempChatHighlight: bool)

  /** The state of a fresh page load. */
  const Initial := OverlayState(false, false, false)

  /** The store's four operations, as values. */
  datatype OverlayOp = Open | Close | SetExpanded(value: bool) | ToggleExpanded

  /** The coupling the store keeps: the highlight flag is set and cleared together with visibility. */
  predicate Paired(s: OverlayState) { s.visible == s.tempChatHighlight }

  /** One operation's update of the state. */
  function Apply(s: OverlayState, op: OverlayOp): (t: OverlayState)
  {
    match op
    case Open => s.(visible := true, tempChatHighlight := true)
    case Close => s.(visible := false, tempChatHighlight := false)
    case SetExpanded(x) => s.(expanded := x)
    case ToggleExpanded => s.(expanded := !s.expanded)
  }

  /** The state after applying `ops` in order. */
  function Run(s: OverlayState, ops: seq<OverlayOp>): (t: OverlayState)
    decreases |ops|
  {
    if ops == [] then s else Run(Apply(s, ops[0]), ops[1..])
  }

  /** What each operation promises about the three fields, and the laws between operations. */
  lemma OperationLaws(s: OverlayState, x: bool)
    ensures var t := Apply(s, Open); t.visible && t.tempChatHighlight && t.expanded == s.expanded
    ensures var t := Apply(s, Close); !t.visible && !t.tempChatHighlight && t.expanded == s.expanded
    ensures var t := Apply(s, SetExpanded(x));
      t.expanded == x && t.visible == s.visible && t.tempChatHighlight == s.tempChatHighlight
    ensures var t := Apply(s, ToggleExpanded);
      t.expanded == !s.expanded && t.visible == s.visible && t.tempChatHighlight == s.tempChatHighlight
    ensures Apply(Apply(s, Open), Open) == Apply(s, Open)
    ensures Apply(Apply(s, Close), Close) == Apply(s, Close)
    ensures Apply(Apply(s, SetExpanded(x)), SetExpanded(x)) == Apply(s, SetExpanded(x))
    ensures Apply(Apply(s, ToggleExpanded), ToggleExpanded) == s
  {
  }

  /** Every operation keeps the highlight flag paired with visibility. */
  lemma ApplyKeepsPairing(s: OverlayState, op: OverlayOp)
    requires Paired(s)
    ensures Paired(Apply(s, op))
  {
  }

  /** Any sequence of operations keeps the pairing. */
  lemma {:induction false} RunKeepsPairing(s: OverlayState, ops: seq<OverlayOp>)
    requires Paired(s)
    ensures Paired(Run(s, ops))
    decreases |ops|
  {
    if ops != [] {
      ApplyKeepsPairing(s, ops[0]);
      RunKeepsPairing(Apply(s, ops[0]), ops[1..]);
    }
  }

  /** In every state reachable from a fresh load, `visible == tempChatHighlight`. */
  lemma ReachableArePaired(ops: seq<OverlayOp>)
    ensures Paired(Run(Initial, ops))
  {
    RunKeepsPairing(Initial, ops);
  }

  /** Operations that only touch the panel width never change visibility or highlight. */
  lemma {:induction false} WidthOpsKeepVisibility(s: OverlayState, ops: seq<OverlayOp>)
    requires forall k :: 0 <= k < |ops| ==> ops[k].SetExpanded? || ops[k].ToggleExpanded?
    ensures Run(s, ops).visible == s.visible && Run(s, ops).tempChatHighlight == s.tempChatHighlight
    decreases |ops|
  {
    if ops != [] {
      WidthOpsKeepVisibility(Apply(s, ops[0]), ops[1..]);
    }
  }

  /** Opening and closing never change the panel width. */
  lemma {:induction false} VisibilityOpsKeepWidth(s: OverlayState, ops: seq<OverlayOp>)
    requires forall k :: 0 <= k < |ops| ==> ops[k].Open? || ops[k].Close?
    ensures Run(s, ops).expanded == s.expanded
    decreases |ops|
  {
    if ops != [] {
      VisibilityOpsKeepWidth(Apply(s, ops[0]), ops[1..]);
    }
  }

  /** The store object. Its fields are updated in place by the four operations. */
  class OverlayStore {
    var visible: bool
    var expanded: bool
    var tempChatHighlight: bool

    function State(): (s: OverlayState)
      reads this
    {
      OverlayState(visible, expanded, tempChatHighlight)
    }

    ghost predicate Valid()
      reads this
    {
      Paired(State())
    }

    constructor ()
      ensures Valid() && State() == Initial
    {
      visible, expanded, tempChatHighlight := false, false, false;
    }

    method Open()
      requires Valid()
      modifies this
      ensures Valid() && State() == Apply(old(State()), OverlayOp.Open)
    {
      visible, tempChatHighlight := true, true;
    }

    method Close()
      requires Valid()
      modifies this
      ensures Valid() && State() == Apply(old(State()), OverlayOp.Close)
    {
      visible, tempChatHighlight := false, false;
    }

    method SetExpanded(x: bool)
      requires Valid()
      modifies this
      ensures Valid() && State() == Apply(old(State()), OverlayOp.SetExpanded(x))
    {
      expanded := x;
    }

    method ToggleExpanded()
      requires Valid()
      modifies this
      ensures Valid() && State() == Apply(old(State()), OverlayOp.ToggleExpanded)
    {
      expanded := !expanded;
    }
  }
}
