/** The state behind the tree viewer's toolbar: the toggle and selection values
    of `ToolBarState`, the keyboard focus the toolbar saves and restores around
    the animated show/hide of the filter panel, and the number of reload
    requests handed to the owner. Each button action is specified by a function
    on a snapshot of that state (`Controls`); the `ToolBarView` class performs
    the same actions in place and is proved against those functions. */
module ToolBar {
  import opened Icons

  datatype Option<T> = None | Some(value: T)

  /** A region of the surrounding tree view that can hold keyboard focus. The
      toolbar only needs `Roots`, its fallback; the others stand for the regions
      the owning view defines. */
  datatype FocusField = Roots | Other(id: nat)

  /** The fixed sort keys offered by the sort picker. */
  const SortingValues: seq<string> := ["Name", "Children", "Height"]

  /** The toolbar's toggle and selection values, owned by the parent view. */
  datatype ToolBarState = ToolBarState(
    isFiltersBlockShown: bool,
    sorting: string,
    isCompressed: bool,
    isProcessing: bool,
    icons: seq<IconState>)
  {
    /** The current sort key is one of the offered ones. */
    predicate Valid() {
      sorting in SortingValues
    }
  }

  /** The state a fresh session starts from. */
  const DefaultState: ToolBarState := ToolBarState(false, "Name", true, false, [])

  /** A snapshot of everything the toolbar actions read or write: the bound
      state, the current focus, the saved focus and how many times `onUpdate`
      has been called. */
  datatype Controls = Controls(
    state: ToolBarState,
    focus: Option<FocusField>,
    restore: Option<FocusField>,
    updateCalls: nat)

  /** The filter button (or Command-F): remember the current focus if there is
      one, and flip the panel's visibility. */
  function FilterToggled(c: Controls): (r: Controls)
    ensures r.state.isFiltersBlockShown == !c.state.isFiltersBlockShown
    ensures r.state == c.state.(isFiltersBlockShown := r.state.isFiltersBlockShown)
    ensures c.focus.Some? ==> r.restore == c.focus
    ensures c.focus.None? ==> r.restore == c.restore
    ensures r.focus == c.focus && r.updateCalls == c.updateCalls
  {
    var saved := if c.focus != None then c.focus else c.restore;
    c.(state := c.state.(isFiltersBlockShown := !c.state.isFiltersBlockShown), restore := saved)
  }

  /** The end of the panel animation: when nothing holds focus, give it back to
      the saved target, or to the roots when none was saved. */
  function TransitionCompleted(c: Controls): (r: Controls)
    ensures r.focus.Some?
    ensures c.focus.Some? ==> r == c
    ensures c.focus.None? && c.restore.Some? ==> r.focus == c.restore
    ensures c.focus.None? && c.restore.None? ==> r.focus == Some(Roots)
    ensures r.state == c.state && r.restore == c.restore && r.updateCalls == c.updateCalls
  {
    if c.focus == None then
      c.(focus := if c.restore != None then c.restore else Some(Roots))
    else
      c
  }

  /** The compression button: flip the compressed display mode. */
  function CompressionToggled(c: Controls): (r: Controls)
    ensures r.state.isCompressed == !c.state.isCompressed
    ensures r.state == c.state.(isCompressed := r.state.isCompressed)
    ensures r.focus == c.focus && r.restore == c.restore && r.updateCalls == c.updateCalls
  {
    c.(state := c.state.(isCompressed := !c.state.isCompressed))
  }

  /** The reload button: close the panel without animation and call `onUpdate`
      once. */
  function Refreshed(c: Controls): (r: Controls)
    ensures !r.state.isFiltersBlockShown
    ensures r.updateCalls == c.updateCalls + 1
    ensures r.state == c.state.(isFiltersBlockShown := false)
    ensures r.focus == c.focus && r.restore == c.restore
  {
    c.(state := c.state.(isFiltersBlockShown := false), updateCalls := c.updateCalls + 1)
  }

  /** The sort picker: make `value`, one of the offered keys, the sort key. */
  function SortingSelected(c: Controls, value: string): (r: Controls)
    requires value in SortingValues
    ensures r.state.sorting == value && r.state.Valid()
    ensures r.state == c.state.(sorting := value)
    ensures r.focus == c.focus && r.restore == c.restore && r.updateCalls == c.updateCalls
  {
    c.(state := c.state.(sorting := value))
  }

  /** The surrounding view moves keyboard focus to `focus`, or clears it. */
  function FocusMovedTo(c: Controls, focus: Option<FocusField>): (r: Controls)
    ensures r.focus == focus
    ensures r.state == c.state && r.restore == c.restore && r.updateCalls == c.updateCalls
  {
    c.(focus := focus)
  }

  /** What the user, the animation system or the surrounding view can do to the
      toolbar. */
  datatype Action =
    | FilterButton
    | AnimationEnd
    | CompressionButton
    | RefreshButton
    | SortPicked(value: string)
    | FocusMoved(focus: Option<FocusField>)

  /** The picker only ever hands back one of the offered keys. */
  predicate Offered(a: Action) {
    a.SortPicked? ==> a.value in SortingValues
  }

  predicate AllOffered(actions: seq<Action>) {
    forall a :: a in actions ==> Offered(a)
  }

  /** Only toolbar actions: nobody outside the toolbar moves the focus. */
  predicate ToolbarOnly(actions: seq<Action>) {
    forall a :: a in actions ==> !a.FocusMoved?
  }

  /** The effect of one action. */
  function Step(c: Controls, a: Action): (r: Controls)
    requires Offered(a)
    ensures c.state.Valid() ==> r.state.Valid()
    ensures !a.FocusMoved? && c.focus.Some? ==> r.focus == c.focus
    ensures r.state.icons == c.state.icons && r.state.isProcessing == c.state.isProcessing
  {
    match a
    case FilterButton => FilterToggled(c)
    case AnimationEnd => TransitionCompleted(c)
    case CompressionButton => CompressionToggled(c)
    case RefreshButton => Refreshed(c)
    case SortPicked(value) => SortingSelected(c, value)
    case FocusMoved(focus) => FocusMovedTo(c, focus)
  }

  /** The effect of a sequence of actions, one after another. A pending
      animation completion is an `AnimationEnd` anywhere later in the sequence,
      so overlapping toggles appear as interleavings. No action forgets the
      sort-key invariant or touches the icon list; no toolbar action moves a
      focus that is held; `onUpdate` is called exactly once per reload; and a
      sequence that ends with a completed animation always leaves some target
      focused. */
  function Run(c: Controls, actions: seq<Action>): (r: Controls)
    requires AllOffered(actions)
    ensures c.state.Valid() ==> r.state.Valid()
    ensures ToolbarOnly(actions) && c.focus.Some? ==> r.focus == c.focus
    ensures r.state.icons == c.state.icons && r.state.isProcessing == c.state.isProcessing
    ensures r.updateCalls == c.updateCalls + multiset(actions)[RefreshButton]
    ensures actions != [] && actions[|actions| - 1] == AnimationEnd ==> r.focus.Some?
  {
    if actions == [] then c
    else
      var init := actions[..|actions| - 1];
      var last := actions[|actions| - 1];
      assert actions == init + [last];
      assert last in actions;
      Step(Run(c, init), last)
  }

  /** The defaults satisfy the sort-key invariant and start with the panel
      closed, the compressed mode on and no icons. */
  lemma DefaultStateValid()
    ensures DefaultState.Valid()
    ensures !DefaultState.isFiltersBlockShown && DefaultState.isCompressed
    ensures !DefaultState.isProcessing && DefaultState.icons == []
    ensures DefaultState.sorting == SortingValues[0]
  {
  }

  /** Two filter toggles in a row, before any animation completes, give back
      the panel's visibility and every other state value. */
  lemma FilterToggleTwice(c: Controls)
    ensures FilterToggled(FilterToggled(c)).state == c.state
    ensures FilterToggled(FilterToggled(c)).focus == c.focus
  {
  }

  /** Two compression toggles give back the original snapshot. */
  lemma CompressionToggleTwice(c: Controls)
    ensures CompressionToggled(CompressionToggled(c)) == c
  {
  }

  /** Completing a transition a second time changes nothing. */
  lemma CompletionIdempotent(c: Controls)
    ensures TransitionCompleted(TransitionCompleted(c)) == TransitionCompleted(c)
  {
  }

  /** Showing and hiding the panel, each time letting the animation complete
      and nobody else moving the focus, gives back the panel's visibility and
      every state value, and leaves focused the target that was focused before
      (or, when none was, the one restored by the first completion). */
  lemma {:induction false} FilterRoundTrip(c: Controls)
    ensures var r := Run(c, [FilterButton, AnimationEnd, FilterButton, AnimationEnd]);
      && r.state == c.state
      && r.updateCalls == c.updateCalls
      && (c.focus.Some? ==> r.focus == c.focus)
      && (c.focus.None? && c.restore.Some? ==> r.focus == c.restore)
      && (c.focus.None? && c.restore.None? ==> r.focus == Some(Roots))
  {
    var c1 := FilterToggled(c);
    var c2 := TransitionCompleted(c1);
    var c3 := FilterToggled(c2);
    var c4 := TransitionCompleted(c3);
    assert Run(c, [FilterButton]) == c1 by {
      assert [FilterButton][..0] == [];
    }
    assert Run(c, [FilterButton, AnimationEnd]) == c2 by {
      assert [FilterButton, AnimationEnd][..1] == [FilterButton];
    }
    assert Run(c, [FilterButton, AnimationEnd, FilterButton]) == c3 by {
      assert [FilterButton, AnimationEnd, FilterButton][..2] == [FilterButton, AnimationEnd];
    }
    assert Run(c, [FilterButton, AnimationEnd, FilterButton, AnimationEnd]) == c4 by {
      assert [FilterButton, AnimationEnd, FilterButton, AnimationEnd][..3]
          == [FilterButton, AnimationEnd, FilterButton];
    }
  }

  /** The case the saved focus exists for: a target holds focus when the panel
      is toggled, the focus is lost while the panel animates, and the completion
      gives the same target back, with the panel flipped. */
  lemma {:induction false} FocusRestoredAfterLoss(c: Controls)
    requires c.focus.Some?
    ensures var r := Run(c, [FilterButton, FocusMoved(None), AnimationEnd]);
      && r.focus == c.focus
      && r.restore == c.focus
      && r.state == c.state.(isFiltersBlockShown := !c.state.isFiltersBlockShown)
  {
    var c1 := FilterToggled(c);
    var c2 := FocusMovedTo(c1, None);
    assert Run(c, [FilterButton]) == c1 by {
      assert [FilterButton][..0] == [];
    }
    assert Run(c, [FilterButton, FocusMoved(None)]) == c2 by {
      assert [FilterButton, FocusMoved(None)][..1] == [FilterButton];
    }
    assert [FilterButton, FocusMoved(None), AnimationEnd][..2] == [FilterButton, FocusMoved(None)];
  }

  /** The toolbar as a view: it borrows the owner's `ToolBarState`, holds the
      current and the saved focus, and counts the calls it makes to `onUpdate`.
      The completion of the panel animation is the separate method
      `CompleteTransition`, which the animation system calls later. */
  class ToolBarView {
    var state: ToolBarState
    var focusState: Option<FocusField>
    var restore: Option<FocusField>
    var updateCalls: nat

    ghost function Model(): Controls
      reads this
    {
      Controls(state, focusState, restore, updateCalls)
    }

    /** A new view over the owner's state: nothing focused, nothing saved, no
        reload requested yet. */
    constructor(state: ToolBarState)
      ensures Model() == Controls(state, None, None, 0)
    {
      this.state := state;
      focusState := None;
      restore := None;
      updateCalls := 0;
    }

    method ToggleFilters()
      modifies this`state, this`restore
      ensures Model() == FilterToggled(old(Model()))
    {
      if focusState != None {
        restore := focusState;
      }
      state := state.(isFiltersBlockShown := !state.isFiltersBlockShown);
    }

    method CompleteTransition()
      modifies this`focusState
      ensures Model() == TransitionCompleted(old(Model()))
    {
      if focusState == None {
        focusState := if restore != None then restore else Some(Roots);
      }
    }

    method ToggleCompression()
      modifies this`state
      ensures Model() == CompressionToggled(old(Model()))
    {
      state := state.(isCompressed := !state.isCompressed);
    }

    method Refresh()
      modifies this`state, this`updateCalls
      ensures Model() == Refreshed(old(Model()))
    {
      state := state.(isFiltersBlockShown := false);
      updateCalls := updateCalls + 1;
    }

    method SelectSorting(value: string)
      requires value in SortingValues
      modifies this`state
      ensures Model() == SortingSelected(old(Model()), value)
    {
      state := state.(sorting := value);
    }

    /** The surrounding view moves keyboard focus (or clears it). */
    method MoveFocus(focus: Option<FocusField>)
      modifies this`focusState
      ensures Model() == FocusMovedTo(old(Model()), focus)
    {
      focusState := focus;
    }

    /** The icon menu writes a new icon list through its binding. */
    method SetIcons(icons: seq<IconState>)
      modifies this`state
      ensures state == old(state).(icons := icons)
    {
      state := state.(icons := icons);
    }
  }

  /** A session from the defaults with two icon categories: the menu hides the
      first, the user picks "Height" and then reloads. Both names end up hidden,
      the panel is closed, the sort key is "Height", and `onUpdate` was called
      once. */
  method Session() returns (hidden: set<string>, sorting: string, shown: bool, calls: nat)
    ensures hidden == {"A", "B"}
    ensures sorting == "Height" && !shown && calls == 1
  {
    var view := new ToolBarView(DefaultState.(icons := [IconState("A", false), IconState("B", true)]));
    view.SetIcons(view.state.icons[0 := view.state.icons[0].(isHidden := true)]);
    view.SelectSorting("Height");
    view.Refresh();
    HiddenSingle(IconState("A", true));
    HiddenSingle(IconState("B", true));
    HiddenAppend([IconState("A", true)], [IconState("B", true)]);
    assert view.state.icons == [IconState("A", true)] + [IconState("B", true)];
    hidden := Hidden(view.state.icons);
    sorting, shown, calls := view.state.sorting, view.state.isFiltersBlockShown, view.updateCalls;
  }
}
