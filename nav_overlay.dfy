/**
 * The chat overlay: rendered only while the gate reports it visible, with a
 * backdrop that closes it and a "New Chat" button that closes it and then
 * navigates to the chat page.
 */
module NavOverlay {
  import opened Routes
  import opened OverlaySidebarStore
  import opened UseOverlaySidebar

  /** Whether the overlay renders anything at all. */
  function Renders(view: OverlayView): bool
  {
    view.visible
  }

  /** The overlay renders exactly when its gate is hydrated and the store shows it. */
  lemma RendersOnlyWhenShown(isHydrated: bool, s: OverlayState)
    ensures Renders(ViewOf(isHydrated, s)) <==> isHydrated && s.visible
  {
  }

  /** What the "New Chat" button does, in order. */
  datatype NewChatStep = ClosedOverlay | PushedRoute(url: string)

  /** The backdrop exists only while the overlay renders. */
  method OnBackdropClick(hook: OverlayHook)
    requires hook.store.Valid() && Renders(hook.View())
    modifies hook.store
    ensures hook.store.Valid() && hook.store.State() == Apply(old(hook.store.State()), Close)
  {
    hook.Close();
  }

  method OnNewChatClick(hook: OverlayHook) returns (steps: seq<NewChatStep>)
    requires hook.store.Valid() && Renders(hook.View())
    modifies hook.store
    ensures hook.store.Valid() && hook.store.State() == Apply(old(hook.store.State()), Close)
    ensures steps == [ClosedOverlay, PushedRoute(ChatUrl)]
  {
    hook.Close();
    steps := [ClosedOverlay];
    steps := steps + [PushedRoute(ChatUrl)];
  }
}
