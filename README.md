# Sidebar and chat-overlay state of the travel-planning web client

This Dafny project models the client-side UI state of a travel-planning web
application. It covers:

- the **overlay store**, with `visible`, `expanded` and `tempChatHighlight`;
- the **main sidebar store**, with one persisted `expanded` flag;
- the **hydration gates** (`useOverlaySidebar`, `useSidebar`). They report fixed defaults and ignore
  updates until a component's first effect has run;
- the **event handlers** that drive the stores: a click on a navigation entry, the overlay's collapse
  button, the overlay's backdrop and "New Chat" button, and the main sidebar's collapse button;
- the two **navigation lists** and the rules that mark an entry active;
- the avatar **initials** and the trips page's **progress and status colours**.

Each store is a class whose fields its methods update in place. Each method is specified by a pure
`Apply(state, op)`. `Run(state, ops)` applies a sequence of operations, and the lemmas about
reachable states are stated over it. A hook is a class holding its store (shared) and its own
`isHydrated` flag. `Hydrate()` is the one-shot mount effect. The gated operations call the store only
when the flag is set, and `View()` is the pure `ViewOf(isHydrated, state)`. The handlers read the
store and call it through a hook, as the components do. Navigation is returned as a value
(`LinkOutcome`, or a step list ending in `PushedRoute`). The pathname is an input string.

Behaviour of the code worth noting:

- Before hydration the overlay gate reports `expanded = true` (src/hooks/use-overlay-sidebar.ts:16),
  while a fresh overlay store holds `expanded = false`
  (`UseOverlaySidebar.DefaultDisagreesWithInitialStore`).
- The overlay collapse button closes the overlay and forces the main sidebar open when the overlay is
  **collapsed** (`expanded == false`). When it is expanded, the button only narrows it
  (src/components/overlay-sidebar.tsx:24-28).
- The handlers read `visible` and call `open`/`close` through their own gate. So before hydration a
  click on "Chat" suppresses the link and changes nothing, and the overlay collapse button only calls
  a no-op `toggleExpanded`.
- The main sidebar renders its list with no `expanded` prop (src/components/app-sidebar.tsx:115).
  Every entry there therefore behaves as collapsed, and the active entry always shows its side marker.

## Model

| member | source | states |
|---|---|---|
| OverlaySidebarStore.OverlayStore.constructor | src/lib/stores/overlay-sidebar-store.ts:13-16 | a fresh store is hidden, narrow and unhighlighted, and satisfies the pairing invariant |
| OverlaySidebarStore.OverlayStore.Open | src/lib/stores/overlay-sidebar-store.ts:17 | new state is `Apply(old, Open)`: visible and highlight set, width untouched; keeps the pairing |
| OverlaySidebarStore.OverlayStore.Close | src/lib/stores/overlay-sidebar-store.ts:18 | new state is `Apply(old, Close)`: visible and highlight cleared, width untouched; keeps the pairing |
| OverlaySidebarStore.OverlayStore.SetExpanded | src/lib/stores/overlay-sidebar-store.ts:19 | new state is `Apply(old, SetExpanded(x))`; keeps the pairing |
| OverlaySidebarStore.OverlayStore.ToggleExpanded | src/lib/stores/overlay-sidebar-store.ts:20 | new state is `Apply(old, ToggleExpanded)`; keeps the pairing |
| OverlaySidebarStore.OperationLaws | src/lib/stores/overlay-sidebar-store.ts:17-20 | each operation's effect on all three fields; open, close and set are idempotent; toggling twice restores the state |
| OverlaySidebarStore.ApplyKeepsPairing | src/lib/stores/overlay-sidebar-store.ts:13-21 | every operation keeps `visible == tempChatHighlight` |
| OverlaySidebarStore.RunKeepsPairing | src/lib/stores/overlay-sidebar-store.ts:13-21 | every sequence of operations keeps `visible == tempChatHighlight` |
| OverlaySidebarStore.ReachableArePaired | src/lib/stores/overlay-sidebar-store.ts:13-21 | every state reachable from a fresh load has `visible == tempChatHighlight` |
| OverlaySidebarStore.WidthOpsKeepVisibility | src/lib/stores/overlay-sidebar-store.ts:19-20 | any run of width operations leaves visibility and highlight unchanged |
| OverlaySidebarStore.VisibilityOpsKeepWidth | src/lib/stores/overlay-sidebar-store.ts:17-18 | any run of opens and closes leaves the panel width unchanged |
| SidebarStore.Rehydrate | src/lib/stores/sidebar-store.ts:11-21 | a store starts from the stored value, or from `true` when nothing is stored |
| SidebarStore.SidebarStore.constructor | src/lib/stores/sidebar-store.ts:11-21 | creation reads storage once; its invariant is that a reload would give back the current value |
| SidebarStore.SidebarStore.SetExpanded | src/lib/stores/sidebar-store.ts:14 | `expanded == x` whatever it was; the durable record now holds it |
| SidebarStore.SidebarStore.Toggle | src/lib/stores/sidebar-store.ts:15 | `expanded` negated; the durable record now holds it |
| SidebarStore.OperationLaws | src/lib/stores/sidebar-store.ts:14-15 | set is absolute and idempotent; toggle negates, so toggling twice is the identity |
| SidebarStore.TogglesParity | src/lib/stores/sidebar-store.ts:15 | after `n` toggles from `v`, `expanded == v XOR (n is odd)` |
| SidebarStore.CollapseOnFirstVisit | src/lib/stores/sidebar-store.ts:13-19 | first visit is expanded; one toggle collapses it, and a reload reads back `false` |
| UseOverlaySidebar.ViewOf | src/hooks/use-overlay-sidebar.ts:13-35 | before hydration: hidden, unhighlighted, expanded, not hydrated; afterwards each field is the store's |
| UseOverlaySidebar.GatedApply | src/hooks/use-overlay-sidebar.ts:13-35 | an operation called through the gate leaves the store alone before hydration, and is the store's own afterwards |
| UseOverlaySidebar.ViewKeepsPairing | src/hooks/use-overlay-sidebar.ts:13-35 | the view also has `visible == tempChatHighlight`, hydrated or not |
| UseOverlaySidebar.DefaultDisagreesWithInitialStore | src/hooks/use-overlay-sidebar.ts:16 | the pre-hydration view says expanded; a fresh store says narrow |
| UseOverlaySidebar.OverlayHook.constructor | src/hooks/use-overlay-sidebar.ts:5 | the hydration flag starts false |
| UseOverlaySidebar.OverlayHook.Hydrate | src/hooks/use-overlay-sidebar.ts:8-10 | the mount effect sets the flag; no other member writes it |
| UseOverlaySidebar.OverlayHook.Open | src/hooks/use-overlay-sidebar.ts:13-35 | store becomes `GatedApply(isHydrated, old, Open)` |
| UseOverlaySidebar.OverlayHook.Close | src/hooks/use-overlay-sidebar.ts:13-35 | store becomes `GatedApply(isHydrated, old, Close)` |
| UseOverlaySidebar.OverlayHook.SetExpanded | src/hooks/use-overlay-sidebar.ts:13-35 | store becomes `GatedApply(isHydrated, old, SetExpanded(x))` |
| UseOverlaySidebar.OverlayHook.ToggleExpanded | src/hooks/use-overlay-sidebar.ts:13-35 | store becomes `GatedApply(isHydrated, old, ToggleExpanded)` |
| UseSidebar.ViewOf | src/hooks/use-sidebar.ts:13-27 | the view reports expanded before hydration, the stored value afterwards, and the flag itself |
| UseSidebar.SidebarHook.constructor | src/hooks/use-sidebar.ts:5 | the hydration flag starts false |
| UseSidebar.SidebarHook.Hydrate | src/hooks/use-sidebar.ts:8-10 | the mount effect sets the flag; no other member writes it |
| UseSidebar.SidebarHook.Toggle | src/hooks/use-sidebar.ts:13-27 | store untouched before hydration, the store's toggle afterwards |
| UseSidebar.SidebarHook.SetExpanded | src/hooks/use-sidebar.ts:13-27 | store untouched before hydration, the store's set afterwards |
| NavMain.Truthy | src/components/nav-main.tsx:130-134 | an `expanded` prop counts as set only when it is defined and true |
| NavMain.ShowsActiveIndicator | src/components/nav-main.tsx:130 | the side marker shows exactly when the entry is active and the list is not expanded |
| NavMain.HandleClick | src/components/nav-main.tsx:57-73 | "Chat" suppresses the link and opens a hidden overlay or closes a shown one; any other entry follows the link and closes a shown overlay; nothing happens before hydration; overlay width never changes |
| NavMain.ChatClickFlipsOverlay | src/components/nav-main.tsx:58-66 | once hydrated, a "Chat" click flips visibility, and the highlight matches it |
| NavMain.ChatTwiceFromHidden | src/components/nav-main.tsx:58-66 | two "Chat" clicks from hidden restore the exact prior state |
| NavMain.ChatThenExplorar | src/components/nav-main.tsx:57-73 | "Chat" then "Explorar" from hidden ends hidden and unhighlighted, with the link followed |
| OverlaySidebar.OnCollapseButtonClick | src/components/overlay-sidebar.tsx:23-30 | if the gate reports expanded: only `toggleExpanded` is called, and the main sidebar is unchanged; else `close` then `setExpanded(true)` on the main sidebar are called in that order, so the overlay ends hidden and narrow and the main sidebar expanded (when its gate is hydrated); the panel's label (sidebar-content.tsx:109) reads "Colapsar sidebar" exactly when the click only narrows the panel |
| OverlaySidebar.CollapseTwice | src/components/overlay-sidebar.tsx:23-30 | from a wide, shown overlay, two clicks end with it hidden and the main sidebar expanded |
| NavOverlay.RendersOnlyWhenShown | src/components/nav-overlay.tsx:12-14 | the overlay renders exactly when its gate is hydrated and the store shows it |
| NavOverlay.OnBackdropClick | src/components/nav-overlay.tsx:19-20 | available only while rendered; the store becomes `Apply(old, Close)` (hidden, unhighlighted, same width) |
| NavOverlay.OnNewChatClick | src/components/nav-overlay.tsx:52-55 | available only while rendered; closes the overlay, then pushes "/app/chat", in that order |
| Routes.UrlsDistinct | src/components/sidebar-content.tsx:33-69 | five entries, no two with the same route |
| Routes.RouteIndex | src/components/app-sidebar.tsx:36-72 | finds the only entry whose route equals the pathname, or none when the pathname is not one of the five |
| SidebarContent.MainNavItems | src/components/sidebar-content.tsx:33-69 | five fixed entries with no alert; Chat is active iff on "/app/chat" or highlighted; the highlight leaves only Chat active; otherwise an entry is active iff the pathname is its route; at most one is active |
| SidebarContent.ActiveIsActiveIndex | src/components/sidebar-content.tsx:33-69 | an entry is active iff it is Chat under the highlight, or else the route-table match |
| SidebarContent.AriaCurrentMarksActiveIndex | src/components/nav-main.tsx:88-90 | in the overlay's list, `aria-current="page"` sits exactly on the entry `ActiveIndex` names, so on at most one, and `data-state` is "active" on exactly that entry |
| SidebarContent.NoHighlightMatchesMainSidebar | src/components/sidebar-content.tsx:38-66 | with the highlight off, the overlay marks the same entry as the main sidebar |
| AppSidebar.MainNavItems | src/components/app-sidebar.tsx:36-72 | five fixed entries; each is active iff the pathname is its route; only Chat has an alert; at most one is active; none for an unknown pathname |
| AppSidebar.ActiveIsRouteIndex | src/components/app-sidebar.tsx:36-72 | the active entry is exactly the route-table match |
| AppSidebar.AriaCurrentMarksRouteEntry | src/components/nav-main.tsx:88-90 | in the main list, `aria-current="page"` sits exactly on the pathname's entry, so on at most one, and `data-state` is "active" on exactly that entry |
| AppSidebar.IndicatorIgnoresSidebarWidth | src/components/app-sidebar.tsx:115 | with the prop left undefined, the marker shows on the pathname's entry whatever the sidebar width |
| AppSidebar.LabelNamesTheClick | src/components/app-sidebar.tsx:100-102 | once hydrated, the label reads "Colapsar sidebar" exactly when a toggle leaves the sidebar collapsed, and "Expandir sidebar" exactly when it leaves it expanded; before hydration it reads "Colapsar sidebar" whatever is stored |
| AppSidebar.ClickLabelledButton | src/components/app-sidebar.tsx:100-102 | a click on the button as labelled: hydrated, "Colapsar sidebar" was shown exactly when the sidebar ends collapsed; before hydration the label was "Colapsar sidebar" and the store is untouched |
| AppSidebar.OnCollapseButtonClick | src/components/app-sidebar.tsx:100 | once hydrated, flips main sidebar `expanded`; before, changes nothing |
| NavUser.Split | src/components/nav-user.tsx:52 | `split(' ')` gives one piece more than there are spaces, and no piece contains a space |
| NavUser.JoinSplit | src/components/nav-user.tsx:52 | joining the pieces with spaces rebuilds the name |
| NavUser.SplitJoin | src/components/nav-user.tsx:52 | splitting a join of space-free pieces gives back those pieces |
| NavUser.Upper | src/components/nav-user.tsx:52 | upper-casing keeps the length, leaves no lower-case letter, turns each lower-case letter into its capital and keeps every other character |
| NavUser.UpperIdempotent | src/components/nav-user.tsx:52 | upper-casing twice is upper-casing once |
| NavUser.HeadsLength | src/components/nav-user.tsx:52 | taking `n[0]` gives one character per nonempty piece, so no more than the number of pieces |
| NavUser.EmptyPieceContributesNothing | src/components/nav-user.tsx:52 | an empty piece anywhere adds nothing to the initials |
| NavUser.InitialsLength | src/components/nav-user.tsx:52 | initials length equals the number of nonempty pieces, at most the number of spaces plus one |
| NavUser.HeadsAreWordStarts | src/components/nav-user.tsx:52 | the first characters of the pieces are exactly the non-space characters that begin a word |
| NavUser.InitialsAreWordStarts | src/components/nav-user.tsx:52 | the initials are the upper-cased word-initial characters; the avatar trigger and the dropdown label (line 78) compute the same value |
| NavUser.InitialsOfJoin | src/components/nav-user.tsx:52 | for a name built from space-free pieces, the initials are the upper-cased first characters of those pieces |
| NavUser.DemoUserInitials | src/components/app-sidebar.tsx:29-33 | the initials of "Gonzalo Perez" are "GP" |
| NavUser.NameBlockFollowsSidebarGate | src/components/nav-user.tsx:56 | through the main sidebar's gate, the name block is "w-52 ml-3" before hydration whatever is stored, and afterwards "w-52 ml-3" exactly when the stored sidebar is expanded, "w-0" exactly when it is not |
| ViajesPage.ProgressTone | src/app/app/viajes/page.tsx:135-140 | green iff exactly 100; blue iff at least 70 and not 100; yellow iff 40..69; gray iff below 40 |
| ViajesPage.ProgressToneMonotone | src/app/app/viajes/page.tsx:135-140 | over 0..100 the bucket never goes down: gray < yellow < blue < green |
| ViajesPage.AboveHundredIsBlue | src/app/app/viajes/page.tsx:136-137 | progress above 100 is blue, ranked below the green of 100 |
| ViajesPage.ProgressBarClass | src/app/app/viajes/page.tsx:135-140 | the bar is "bg-green-500" iff exactly 100, "bg-blue-500" iff at least 70 and not 100, "bg-yellow-500" iff 40..69, "bg-gray-400" iff below 40 |
| ViajesPage.ClassesAreDistinct | src/app/app/viajes/page.tsx:135-140 | different buckets never share a bar class or a badge class |
| ViajesPage.StatusTone | src/app/app/viajes/page.tsx:100-105 | "Próximo" green, "Planificando" yellow, "Borrador" gray; blue iff any other status |
| ViajesPage.StatusBadgeClass | src/app/app/viajes/page.tsx:100-105 | "Próximo", "Planificando" and "Borrador" get the green, yellow and gray badge classes; the blue classes iff any other status |
| ViajesPage.CompletedIsBlue | src/app/app/viajes/page.tsx:100-105 | "Completado" gets the blue badge |

## Left out

- JSX markup, icons, tooltips, the dropdown menu and all Tailwind classes except the few chosen by a flag (progress bar, status badge, name-block width). These are presentation with no state.
- The alert badge, the entry text span and the overlay panel's width class. Each is a fixed class chosen by `alert` or `expanded`, and nothing else depends on it.
- Sidebar persistence is modelled only as a ghost `persisted` value: storage contents are a constructor parameter and every update writes the new value. The JSON serialisation, the storage key and asynchronous rehydration are not modelled.
- Zustand subscriptions, re-rendering and React effect scheduling. Hydration is one flag per hook instance, set by `Hydrate()`.
- Next.js `Link`, `router.push` and `usePathname`. Navigation is a returned value and the pathname is a parameter.
- The chat, explore, saved and inspiration pages, the app layout and the sidebar provider. They hold static data and render glue.
- NavUser.Upper: upper-cases ASCII letters only. It does not model `toUpperCase` on other characters (which can change length) or UTF-16 indexing by `n[0]`.
- ViajesPage.ProgressTone: the percentage is an integer. The page's progress is a JavaScript number, and fractional values are not modelled.
