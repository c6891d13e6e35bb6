# Toolbar state of the XTree viewer

This project models the toolbar of the XTree dependency-tree viewer
(`ToolBarView.swift`). The toolbar lets the user show or hide the filter panel,
switch the compressed display mode, pick a sort key and request a reload.
Behind those controls sit two pieces of logic, and both are modelled:

- **The toolbar state machine.** The `ToolBarState` record holds the panel
  flag, the sort key, the compressed flag, the busy flag and the icon list.
  The view also keeps the current keyboard focus (`focusState`) and a saved
  focus (`restore`). The filter toggle saves the current focus when one is
  held (otherwise the earlier saved focus is kept) and flips the panel. When
  its animation completes and nothing holds focus, focus goes to the saved
  target, or to `.roots` when none was saved; a focus held at that moment is
  left alone. Reload closes the panel and calls `onUpdate`.
- **The hidden-icon projection.** `[IconState].hidden` gives the set of symbol
  names whose entries are marked hidden.

`icons.dfy` (module `Icons`) holds the projection as functions and lemmas.
`toolbar.dfy` (module `ToolBar`) has two layers:

- Each button action is a function on a snapshot, `Controls`, which holds the
  state, the focus, the saved focus and the `onUpdate` call count. These
  functions are the specification.
- The class `ToolBarView` performs the same actions in place. Each button
  method, and the focus change made by the surrounding view, is proved to
  change the fields exactly as the matching function says.
  The field-level `modifies` clauses show that nothing else changes.

The completion of the panel animation is a separate method,
`CompleteTransition`. The caller invokes it later, in place of the animation
callback.

`FocusField` is not defined in the modelled file. It is modelled as `Roots`, the
only case the toolbar names, plus `Other(id)` for the regions the owning view
defines. `IconState` is not part of this model either: it is modelled as a
symbol name and a hidden flag. `onUpdate` is modelled as a call counter.

The constraint that the sort key is one of `sortingValues` is not checked
anywhere in the code. The picker only offers those values, so the model states
the constraint as `ToolBarState.Valid()` and proves that every toolbar action
preserves it (`Step`, `Run`). The class inherits this invariant through its
methods' `Model()` equations: each method's new snapshot is the matching
function's result, and those functions keep `Valid()`.

## Model

| member | source | states |
|---|---|---|
| Icons.FilterHidden | XTree/XTree/Modules/ToolBar/ToolBarView.swift:89 | an entry is kept exactly when it is in the list and marked hidden; the result is no longer than the input |
| Icons.SymbolNames | XTree/XTree/Modules/ToolBar/ToolBarView.swift:89 | the result has one name per entry, and position i holds entry i's symbol name |
| Icons.Hidden | XTree/XTree/Modules/ToolBar/ToolBarView.swift:87-91 | a name is in the set exactly when some entry with that name is marked hidden; the empty list gives the empty set |
| Icons.FilterHiddenAppend | XTree/XTree/Modules/ToolBar/ToolBarView.swift:89 | filtering distributes over concatenation and keeps the list order |
| Icons.HiddenAppend | XTree/XTree/Modules/ToolBar/ToolBarView.swift:88-89 | the hidden set of a concatenation is the union of the two hidden sets |
| Icons.HiddenIgnoresShown | XTree/XTree/Modules/ToolBar/ToolBarView.swift:89 | appending or prepending an entry that is not hidden leaves the set unchanged |
| Icons.HiddenSingle | XTree/XTree/Modules/ToolBar/ToolBarView.swift:89 | a one-entry list hides its name exactly when the entry is hidden |
| Icons.HiddenAfterMarking | XTree/XTree/Modules/ToolBar/ToolBarView.swift:87-91 | after entry i is marked hidden or shown, the set is the other entries' set, plus i's name exactly when i is now hidden |
| ToolBar.FilterToggled | XTree/XTree/Modules/ToolBar/ToolBarView.swift:21-28 | the panel flag is negated and no other state field changes; the saved focus becomes the current focus when one is set and is otherwise kept; the focus and the call count are unchanged |
| ToolBar.TransitionCompleted | XTree/XTree/Modules/ToolBar/ToolBarView.swift:29-31 | afterwards some target is always focused; an existing focus is left alone; otherwise focus goes to the saved target, or to the roots when none was saved; the state, the saved focus and the call count are unchanged |
| ToolBar.CompressionToggled | XTree/XTree/Modules/ToolBar/ToolBarView.swift:44-46 | the compressed flag is negated and nothing else changes |
| ToolBar.Refreshed | XTree/XTree/Modules/ToolBar/ToolBarView.swift:58-61 | the panel is closed whatever it was before; onUpdate is called exactly one more time; nothing else changes |
| ToolBar.SortingSelected | XTree/XTree/Modules/ToolBar/ToolBarView.swift:69-70 | the sort key becomes the picked offered value, so the state stays valid; nothing else changes |
| ToolBar.FocusMovedTo | XTree/XTree/Modules/ToolBar/ToolBarView.swift:16 | the surrounding view sets or clears the focus; the state, the saved focus and the call count are unchanged |
| ToolBar.Step | XTree/XTree/Modules/ToolBar/ToolBarView.swift:21-70 | no single action breaks the sort-key invariant or touches the icon list or the busy flag; no toolbar action changes a focus that is held |
| ToolBar.Run | XTree/XTree/Modules/ToolBar/ToolBarView.swift:21-70 | over any sequence of actions, including focus moves by the surrounding view: the sort-key invariant persists; the icons and the busy flag are untouched; onUpdate is called once per reload; a sequence ending in a completed animation leaves some target focused. Over a sequence of toolbar actions only, a held focus stays on the same target |
| ToolBar.DefaultStateValid | XTree/XTree/Modules/ToolBar/ToolBarView.swift:3-10 | the defaults: panel closed, sort key "Name" (the first offered key, so valid), compressed on, not processing, no icons |
| ToolBar.FilterToggleTwice | XTree/XTree/Modules/ToolBar/ToolBarView.swift:22-27 | two toggles without a completion in between give back the whole state and the focus |
| ToolBar.CompressionToggleTwice | XTree/XTree/Modules/ToolBar/ToolBarView.swift:45 | two compression toggles give back the original snapshot |
| ToolBar.CompletionIdempotent | XTree/XTree/Modules/ToolBar/ToolBarView.swift:30 | completing a transition a second time changes nothing |
| ToolBar.FilterRoundTrip | XTree/XTree/Modules/ToolBar/ToolBarView.swift:22-30 | toggle, completion, toggle, completion give back the whole state and the call count; the focus ends on the original target, or, when nothing was focused, on the saved target or the roots |
| ToolBar.FocusRestoredAfterLoss | XTree/XTree/Modules/ToolBar/ToolBarView.swift:22-30 | when a target holds focus at the toggle and the focus is lost during the animation, the completion gives the same target back; the panel is flipped and the other state fields are unchanged |
| ToolBar.ToolBarView.constructor | XTree/XTree/Modules/ToolBar/ToolBarView.swift:13-17 | the view starts over the given state, with no focus, no saved focus and no onUpdate calls |
| ToolBar.ToolBarView.ToggleFilters | XTree/XTree/Modules/ToolBar/ToolBarView.swift:21-28 | the in-place update equals FilterToggled on the old snapshot; only the state and the saved focus may change |
| ToolBar.ToolBarView.CompleteTransition | XTree/XTree/Modules/ToolBar/ToolBarView.swift:29-31 | the in-place update equals TransitionCompleted on the old snapshot; only the focus may change |
| ToolBar.ToolBarView.ToggleCompression | XTree/XTree/Modules/ToolBar/ToolBarView.swift:44-46 | the in-place update equals CompressionToggled on the old snapshot; only the state may change |
| ToolBar.ToolBarView.Refresh | XTree/XTree/Modules/ToolBar/ToolBarView.swift:58-61 | the in-place update equals Refreshed on the old snapshot; only the state and the call count may change |
| ToolBar.ToolBarView.SelectSorting | XTree/XTree/Modules/ToolBar/ToolBarView.swift:69-76 | the in-place update equals SortingSelected on the old snapshot; only the state may change |
| ToolBar.ToolBarView.MoveFocus | XTree/XTree/Modules/ToolBar/ToolBarView.swift:16 | the in-place update equals FocusMovedTo on the old snapshot; only the focus may change |
| ToolBar.ToolBarView.SetIcons | XTree/XTree/Modules/ToolBar/ToolBarView.swift:41 | the icon menu replaces the icon list through its binding; no other field changes |
| ToolBar.Session | XTree/XTree/Modules/ToolBar/ToolBarView.swift:41-70 | starting from the defaults with icons A (shown) and B (hidden): after the menu hides A, "Height" is picked and a reload happens, the hidden set is {A, B}, the sort key is "Height", the panel is closed and onUpdate was called once |

## Left out

- SwiftUI layout and decoration are not modelled: stacks, symbol images, rotation, offsets, the spinner, the picker widget and the tooltip strings. They are rendering, not behaviour.
- The `withAnimation` compatibility helper is not modelled: the animation curve, the 0.3-second duration, the macOS 14 branch and the timer fallback. The completion is the explicit `CompleteTransition` call (the `AnimationEnd` action in traces).
- The order of racing completions is not fixed, because the source leaves it to the event loop. `Run` accepts every interleaving of toggles and completions, and its laws hold for each one. It also accepts a completion with no toggle before it, which is more than the source can produce.
- The implementation of `IconsMenu` is not part of this model. Only its write of a new icon list (`SetIcons`) and the `hidden` projection are modelled.
- The keyboard shortcut is not modelled separately. It runs the same action as the filter button.
- `isProcessing` is kept as a field but has no logic. It only gates the spinner, and every action is proved to leave it unchanged.
- The `@Binding` aliasing is not modelled. The view holds `ToolBarState` as a value in its `state` field, so writes that the owner makes directly are not captured. The exception is the icon list, written through `SetIcons`.
- What `onUpdate` does (re-reading the tree input file) is outside this component. Only the number of calls is recorded.
- String equality is not Unicode-aware. Swift compares `String` values by canonical equivalence, both in the `Set<String>` of hidden names and in the picker's selection. The model compares sequences of characters. The two agree on the ASCII sort keys and symbol names used here.
- `ToolBar.SortingSelected`: requires the value to be one of the offered keys. The picker offers no other value. A direct write of an arbitrary string by the owner is not modelled.
