/** The per-icon visibility list kept in the toolbar state, and the set of hidden
    icon names derived from it on every access (the `hidden` property of
    `[IconState]`). */
module Icons {

  /** One entry of the icon menu: the symbol name of an icon category and
      whether nodes carrying that icon are hidden from the tree. */
  datatype IconState = IconState(symbol: string, isHidden: bool)

  /** The entries whose `isHidden` flag is set, in list order (`filter(\.isHidden)`). */
  function FilterHidden(icons: seq<IconState>): (r: seq<IconState>)
    ensures |r| <= |icons|
    ensures forall e :: e in r <==> e in icons && e.isHidden
  {
    if icons == [] then []
    else if icons[0].isHidden then [icons[0]] + FilterHidden(icons[1..])
    else FilterHidden(icons[1..])
  }

  /** The symbol name of each entry, position by position (`map(\.icon.sfSymbol)`). */
  function SymbolNames(entries: seq<IconState>): (r: seq<string>)
    ensures |r| == |entries|
    ensures forall i :: 0 <= i < |entries| ==> r[i] == entries[i].symbol
  {
    if entries == [] then [] else [entries[0].symbol] + SymbolNames(entries[1..])
  }

  /** The names of the hidden icon categories: a name is in the set exactly when
      some entry with that name is marked hidden. */
  function Hidden(icons: seq<IconState>): (r: set<string>)
    ensures forall name :: name in r <==> exists e :: e in icons && e.isHidden && e.symbol == name
    ensures icons == [] ==> r == {}
  {
    var entries := FilterHidden(icons);
    var names := SymbolNames(entries);
    assert forall e :: e in entries ==> e.symbol in names by {
      forall e | e in entries ensures e.symbol in names {
        var i :| 0 <= i < |entries| && entries[i] == e;
        assert names[i] == e.symbol;
      }
    }
    set name | name in names
  }

  /** Filtering works entry by entry, so it distributes over concatenation and
      keeps the list order. */
  lemma {:induction false} FilterHiddenAppend(a: seq<IconState>, b: seq<IconState>)
    ensures FilterHidden(a + b) == FilterHidden(a) + FilterHidden(b)
  {
    if a == [] {
      assert a + b == b;
    } else {
      assert (a + b)[0] == a[0];
      assert (a + b)[1..] == a[1..] + b;
      FilterHiddenAppend(a[1..], b);
    }
  }

  /** The hidden set of a concatenation is the union of the hidden sets. */
  lemma HiddenAppend(a: seq<IconState>, b: seq<IconState>)
    ensures Hidden(a + b) == Hidden(a) + Hidden(b)
  {
  }

  /** An entry that is not hidden contributes nothing, wherever it stands. */
  lemma HiddenIgnoresShown(icons: seq<IconState>, e: IconState)
    requires !e.isHidden
    ensures Hidden(icons + [e]) == Hidden(icons)
    ensures Hidden([e] + icons) == Hidden(icons)
  {
    HiddenAppend(icons, [e]);
    HiddenAppend([e], icons);
  }

  /** After the icon menu sets entry `i`'s flag to `hidden`, the derived set is
      that of the other entries, plus entry `i`'s name exactly when it is now
      hidden: recomputing the projection never leaves it stale. */
  lemma HiddenAfterMarking(icons: seq<IconState>, i: nat, hidden: bool)
    requires i < |icons|
    ensures Hidden(icons[i := icons[i].(isHidden := hidden)])
         == Hidden(icons[..i] + icons[i + 1..]) + (if hidden then {icons[i].symbol} else {})
  {
    var e := icons[i].(isHidden := hidden);
    var before, after := icons[..i], icons[i + 1..];
    assert icons[i := e] == before + [e] + after;
    HiddenAppend(before + [e], after);
    HiddenAppend(before, [e]);
    HiddenAppend(before, after);
    HiddenSingle(e);
  }

  /** A one-entry list hides its name exactly when the entry is hidden. */
  lemma HiddenSingle(e: IconState)
    ensures Hidden([e]) == if e.isHidden then {e.symbol} else {}
  {
  }
}
