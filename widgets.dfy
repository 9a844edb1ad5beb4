/**
 * The tab selector of the main window (`TabView`) without its drawing:
 * which tab names it holds, which one is current, how the names wrap
 * into rows of buttons and how tall the scrolled area is, plus the
 * helpers that decode touchpad deltas and estimate a text's width.
 */
module Widgets {
  import opened Wrappers
  import opened Seqs

  const VISIBLE_ROWS: nat := 3
  const BTN_PAD_X: int := 2
  const BTN_PAD_Y: nat := 1
  const ROW_HEIGHT: nat := 32

  // ---------------------------------------------------------------------
  // Names and the current tab

  /** `_names` and `_current`. */
  datatype TabState = TabState(names: seq<string>, current: Option<string>)

  /** The state every operation keeps: the names are distinct, and there
    * is a current tab, one of the names, exactly when there are names. */
  predicate Valid(s: TabState) {
    && NoDup(s.names)
    && (s.names == [] ==> s.current.None?)
    && (s.names != [] ==> s.current.Some? && s.current.value in s.names)
  }

  /** Python's `not self._current`: no current tab, or the empty name. */
  predicate NoCurrent(current: Option<string>) {
    current.None? || current.value == ""
  }

  /** The state left by `_rebuild`: with names present, a missing, empty
    * or unknown current tab becomes the first name. */
  function Rebuilt(s: TabState): (r: TabState)
    ensures r.names == s.names
    ensures s.names != [] ==> r.current.Some? && r.current.value in s.names
    ensures s.names == [] || (!NoCurrent(s.current) && s.current.value in s.names) ==> r.current == s.current
    ensures s.names != [] && (NoCurrent(s.current) || s.current.value !in s.names) ==> r.current == Some(s.names[0])
  {
    if s.names == [] then s
    else if NoCurrent(s.current) || s.current.value !in s.names then s.(current := Some(s.names[0]))
    else s
  }

  /** `add_tab`. */
  function AfterAdd(s: TabState, name: string): TabState {
    if name in s.names then s else Rebuilt(TabState(s.names + [name], s.current))
  }

  /** `delete_tab`: the name goes; if it was current, its right neighbour
    * (or its left one, for the last tab) becomes current. */
  function AfterDelete(s: TabState, name: string): TabState {
    if name !in s.names then s
    else
      var idx := FirstIndex(s.names, name);
      var rest := RemoveAt(s.names, idx);
      var current :=
        if s.current == Some(name) then
          if rest != [] then Some(rest[if idx < |rest| - 1 then idx else |rest| - 1]) else None
        else s.current;
      Rebuilt(TabState(rest, current))
  }

  /** `rename_tab`. */
  function AfterRename(s: TabState, oldName: string, newName: string): TabState {
    if oldName !in s.names || newName in s.names then s
    else
      var idx := FirstIndex(s.names, oldName);
      Rebuilt(TabState(s.names[idx := newName], if s.current == Some(oldName) then Some(newName) else s.current))
  }

  /** `set_current_tab`. */
  function AfterSetCurrent(s: TabState, name: string): TabState {
    if name in s.names then s.(current := Some(name)) else s
  }

  /** `move_tab`. */
  function AfterMove(s: TabState, oldIndex: int, newIndex: int): TabState {
    if 0 <= oldIndex < |s.names| && 0 <= newIndex < |s.names| then
      Rebuilt(TabState(MoveItem(s.names, oldIndex, newIndex), s.current))
    else s
  }

  /** An existing name changes nothing; a new one is appended, and becomes
    * current when it is the first. */
  lemma AddSpec(s: TabState, name: string)
    requires Valid(s)
    ensures var r := AfterAdd(s, name);
      && Valid(r) && name in r.names
      && r.names == (if name in s.names then s.names else s.names + [name])
      && (name in s.names ==> r == s)
      && (s.names == [] ==> r.current == Some(name))
      && (s.names != [] && !NoCurrent(s.current) ==> r.current == s.current)
  {
    if name !in s.names {
      var ns := s.names + [name];
      assert NoDup(ns) by {
        forall i, j | 0 <= i < j < |ns| ensures ns[i] != ns[j] {
          if j == |ns| - 1 {
            assert ns[i] in s.names;
          }
        }
      }
    }
  }

  /** Deleting removes the name and keeps the others in order. A deleted
    * current tab passes the selection to its right neighbour, to its left
    * one when it was last, and to nobody when it was alone; any other
    * current tab stays current. */
  lemma DeleteSpec(s: TabState, name: string)
    requires Valid(s) && name in s.names
    ensures var r := AfterDelete(s, name);
      var idx := FirstIndex(s.names, name);
      && Valid(r) && name !in r.names
      && r.names == s.names[..idx] + s.names[idx + 1..]
      && (s.current == Some(name) && idx + 1 < |s.names| && s.names[idx + 1] != "" ==>
            r.current == Some(s.names[idx + 1]))
      && (s.current == Some(name) && idx + 1 == |s.names| && idx > 0 && s.names[idx - 1] != "" ==>
            r.current == Some(s.names[idx - 1]))
      && (|s.names| == 1 ==> r == TabState([], None))
      && (s.current != Some(name) && !NoCurrent(s.current) ==> r.current == s.current)
  {
    var idx := FirstIndex(s.names, name);
    RemoveAtNoDup(s.names, idx);
    if s.current.Some? && s.current != Some(name) {
      assert s.names[FirstIndex(s.names, s.current.value)] == s.current.value;
    }
  }

  /** A rename that applies puts the new name at the old one's place, and
    * the current tab follows it; otherwise nothing changes. */
  lemma RenameSpec(s: TabState, oldName: string, newName: string)
    requires Valid(s)
    ensures var r := AfterRename(s, oldName, newName);
      && Valid(r)
      && (oldName !in s.names || newName in s.names ==> r == s)
      && (oldName in s.names && newName !in s.names ==>
            var idx := FirstIndex(s.names, oldName);
            && r.names == s.names[idx := newName]
            && (s.current == Some(oldName) && newName != "" ==> r.current == Some(newName))
            && (s.current != Some(oldName) && !NoCurrent(s.current) ==> r.current == s.current))
  {
    if oldName in s.names && newName !in s.names {
      var idx := FirstIndex(s.names, oldName);
      var ns := s.names[idx := newName];
      assert ns[idx] == newName;
      assert NoDup(ns) by {
        forall i, j | 0 <= i < j < |ns| ensures ns[i] != ns[j] {
          if i == idx {
            assert ns[j] == s.names[j];
          } else if j == idx {
            assert ns[i] == s.names[i];
          }
        }
      }
      if s.current.Some? && s.current != Some(oldName) {
        var ci := FirstIndex(s.names, s.current.value);
        assert ns[ci] == s.current.value;
      }
    }
  }

  /** Selecting an unknown name is ignored. */
  lemma SetCurrentSpec(s: TabState, name: string)
    requires Valid(s)
    ensures var r := AfterSetCurrent(s, name);
      && Valid(r) && r.names == s.names
      && (name in s.names ==> r.current == Some(name))
      && (name !in s.names ==> r == s)
  {
  }

  /** A move in range reorders the names (the same names, the moved one at
    * its new index) and keeps the current tab; out of range it is
    * ignored. */
  lemma MoveSpec(s: TabState, oldIndex: int, newIndex: int)
    requires Valid(s)
    ensures var r := AfterMove(s, oldIndex, newIndex);
      && Valid(r)
      && (0 <= oldIndex < |s.names| && 0 <= newIndex < |s.names| ==>
            && multiset(r.names) == multiset(s.names)
            && r.names[newIndex] == s.names[oldIndex]
            && (!NoCurrent(s.current) ==> r.current == s.current))
      && (!(0 <= oldIndex < |s.names| && 0 <= newIndex < |s.names|) ==> r == s)
  {
    if 0 <= oldIndex < |s.names| && 0 <= newIndex < |s.names| {
      var ns := MoveItem(s.names, oldIndex, newIndex);
      MoveItemNoDup(s.names, oldIndex, newIndex);
      assert s.current.value in multiset(ns);
    }
  }

  /** `TabView`'s name and selection state. */
  class TabView {
    var names: seq<string>
    var current: Option<string>

    function State(): TabState
      reads this
    {
      TabState(names, current)
    }

    constructor ()
      ensures State() == TabState([], None)
    {
      names := [];
      current := None;
    }

    /** `_rebuild`'s effect on the state. */
    method Rebuild()
      modifies this
      ensures State() == Rebuilt(old(State()))
    {
      if names == [] {
        return;
      }
      if NoCurrent(current) || current.value !in names {
        current := Some(names[0]);
      }
    }

    method AddTab(name: string)
      modifies this
      ensures State() == AfterAdd(old(State()), name)
    {
      if name in names {
        return;
      }
      names := names + [name];
      Rebuild();
    }

    method DeleteTab(name: string)
      modifies this
      ensures State() == AfterDelete(old(State()), name)
    {
      if name !in names {
        return;
      }
      var idx := FirstIndex(names, name);
      var rest := RemoveAt(names, idx);
      if current == Some(name) {
        if rest != [] {
          var newIdx := if idx < |rest| - 1 then idx else |rest| - 1;
          current := Some(rest[newIdx]);
        } else {
          current := None;
        }
      }
      names := rest;
      Rebuild();
    }

    method RenameTab(oldName: string, newName: string)
      modifies this
      ensures State() == AfterRename(old(State()), oldName, newName)
    {
      if oldName !in names || newName in names {
        return;
      }
      var idx := FirstIndex(names, oldName);
      names := names[idx := newName];
      if current == Some(oldName) {
        current := Some(newName);
      }
      Rebuild();
    }

    method SetCurrentTab(name: string)
      modifies this
      ensures State() == AfterSetCurrent(old(State()), name)
    {
      if name !in names {
        return;
      }
      current := Some(name);
    }

    method MoveTab(oldIndex: int, newIndex: int)
      modifies this
      ensures State() == AfterMove(old(State()), oldIndex, newIndex)
    {
      if 0 <= oldIndex < |names| && 0 <= newIndex < |names| {
        var item := names[oldIndex];
        names := InsertAt(RemoveAt(names, oldIndex), newIndex, item);
        Rebuild();
      }
    }

    /** `get_current_tab_name`. */
    method CurrentTabName() returns (r: Option<string>)
      ensures r == current
    {
      r := current;
    }

    /** `tab_names`: a copy of the names. */
    method TabNames() returns (r: seq<string>)
      ensures r == names
    {
      r := names;
    }
  }

  // ---------------------------------------------------------------------
  // Wrapping the buttons into rows

  /** A button: its name and its estimated width in pixels. */
  datatype Button = Button(name: string, width: int)

  /** The room a button takes in a row: its width and padding either side. */
  function Needed(b: Button): int { b.width + BTN_PAD_X * 2 }

  /** The room a row takes. */
  function Used(row: seq<Button>): int {
    if row == [] then 0 else Used(row[..|row| - 1]) + Needed(row[|row| - 1])
  }

  /** The width to wrap in: the canvas width, or 10000 before it is laid
    * out. */
  function Available(canvasWidth: int): (r: int)
    ensures r > 1
    ensures canvasWidth > 1 ==> r == canvasWidth
    ensures canvasWidth <= 1 ==> r == 10_000
  {
    if canvasWidth <= 1 then 10_000 else canvasWidth
  }

  /** The rows the greedy split makes of `bs` when `cur` is the row being
    * filled and `used` the room it takes. */
  function RowsFrom(bs: seq<Button>, available: int, cur: seq<Button>, used: int): seq<seq<Button>>
    decreases |bs|
  {
    if bs == [] then (if cur != [] then [cur] else [])
    else
      var needed := Needed(bs[0]);
      if cur != [] && used + needed > available then
        [cur] + RowsFrom(bs[1..], available, [bs[0]], needed)
      else
        RowsFrom(bs[1..], available, cur + [bs[0]], used + needed)
  }

  /** The rows of `_relayout`: every button once, in order, and no rows
    * exactly when there are no buttons. */
  function Rows(bs: seq<Button>, available: int): (r: seq<seq<Button>>)
    ensures Flatten(r) == bs
    ensures r == [] <==> bs == []
  {
    RowsFromFlatten(bs, available, [], 0);
    assert [] + bs == bs;
    RowsFrom(bs, available, [], 0)
  }

  function Flatten<T>(rows: seq<seq<T>>): seq<T> {
    if rows == [] then [] else rows[0] + Flatten(rows[1..])
  }

  function RowNames(row: seq<Button>): (r: seq<string>)
    ensures |r| == |row| && forall k :: 0 <= k < |row| ==> r[k] == row[k].name
  {
    seq(|row|, k requires 0 <= k < |row| => row[k].name)
  }

  function NamesOf(rows: seq<seq<Button>>): (r: seq<seq<string>>)
    ensures |r| == |rows| && forall k :: 0 <= k < |rows| ==> r[k] == RowNames(rows[k])
  {
    seq(|rows|, k requires 0 <= k < |rows| => RowNames(rows[k]))
  }

  /** A row being filled: its room is counted, and it is a lone button or
    * fits. */
  predicate Filling(cur: seq<Button>, used: int, available: int) {
    used == Used(cur) && (|cur| <= 1 || Used(cur) <= available)
  }

  lemma UsedAppend(row: seq<Button>, b: Button)
    ensures Used(row + [b]) == Used(row) + Needed(b)
  {
    assert (row + [b])[..|row|] == row;
  }

  /** The rows hold every button once, in order. */
  lemma {:induction false} RowsFromFlatten(bs: seq<Button>, available: int, cur: seq<Button>, used: int)
    ensures Flatten(RowsFrom(bs, available, cur, used)) == cur + bs
  {
    if bs == [] {
      if cur != [] {
        assert Flatten([cur]) == cur + Flatten([cur][1..]);
      }
    } else {
      var needed := Needed(bs[0]);
      if cur != [] && used + needed > available {
        var rest := RowsFrom(bs[1..], available, [bs[0]], needed);
        RowsFromFlatten(bs[1..], available, [bs[0]], needed);
        assert ([cur] + rest)[1..] == rest;
        assert [bs[0]] + bs[1..] == bs;
      } else {
        RowsFromFlatten(bs[1..], available, cur + [bs[0]], used + needed);
        assert cur + [bs[0]] + bs[1..] == cur + bs;
      }
    }
  }

  /** The row being filled opens the first row. */
  lemma {:induction false} RowsFromFirst(bs: seq<Button>, available: int, cur: seq<Button>, used: int)
    requires cur != []
    ensures var rows := RowsFrom(bs, available, cur, used);
      |rows| >= 1 && |rows[0]| >= |cur| && rows[0][..|cur|] == cur
  {
    if bs != [] {
      var needed := Needed(bs[0]);
      if !(used + needed > available) {
        RowsFromFirst(bs[1..], available, cur + [bs[0]], used + needed);
        var r0 := RowsFrom(bs, available, cur, used)[0];
        assert r0[..|cur|] == r0[..|cur| + 1][..|cur|];
      }
    }
  }

  /** A row is non-empty, and fits unless it is a lone button. */
  ghost predicate RowFits(row: seq<Button>, available: int) {
    row != [] && (|row| == 1 || Used(row) <= available)
  }

  ghost predicate AllRowsFit(rows: seq<seq<Button>>, available: int) {
    forall k :: 0 <= k < |rows| ==> RowFits(rows[k], available)
  }

  /** Every row is non-empty, and a row of several buttons fits. */
  lemma {:induction false} RowsFromFit(bs: seq<Button>, available: int, cur: seq<Button>, used: int)
    requires Filling(cur, used, available)
    ensures AllRowsFit(RowsFrom(bs, available, cur, used), available)
  {
    if bs == [] {
      if cur != [] {
        assert RowFits(cur, available);
      }
    } else {
      var needed := Needed(bs[0]);
      UsedAppend(cur, bs[0]);
      assert Used([bs[0]]) == needed by { assert [bs[0]][..0] == []; }
      if cur != [] && used + needed > available {
        var rest := RowsFrom(bs[1..], available, [bs[0]], needed);
        RowsFromFit(bs[1..], available, [bs[0]], needed);
        assert RowsFrom(bs, available, cur, used) == [cur] + rest;
        var rows := [cur] + rest;
        assert RowFits(cur, available);
        forall k | 0 <= k < |rows| ensures RowFits(rows[k], available) {
          if k > 0 {
            assert rows[k] == rest[k - 1];
          }
        }
      } else {
        assert RowsFrom(bs, available, cur, used) == RowsFrom(bs[1..], available, cur + [bs[0]], used + needed);
        RowsFromFit(bs[1..], available, cur + [bs[0]], used + needed);
      }
    }
  }

  /** Row `k` opens with a button that would not have fitted after row
    * `k - 1`. */
  ghost predicate BreakAt(rows: seq<seq<Button>>, available: int, k: int)
    requires 0 < k < |rows|
  {
    rows[k] != [] && Used(rows[k - 1]) + Needed(rows[k][0]) > available
  }

  ghost predicate BrokenWhereFull(rows: seq<seq<Button>>, available: int) {
    forall k :: 0 < k < |rows| ==> BreakAt(rows, available, k)
  }

  /** A new row starts only when the next button would not fit in the
    * previous one. */
  lemma {:induction false} RowsFromBreak(bs: seq<Button>, available: int, cur: seq<Button>, used: int)
    requires used == Used(cur)
    ensures BrokenWhereFull(RowsFrom(bs, available, cur, used), available)
  {
    if bs != [] {
      var needed := Needed(bs[0]);
      UsedAppend(cur, bs[0]);
      assert Used([bs[0]]) == needed by { assert [bs[0]][..0] == []; }
      if cur != [] && used + needed > available {
        var rest := RowsFrom(bs[1..], available, [bs[0]], needed);
        RowsFromBreak(bs[1..], available, [bs[0]], needed);
        RowsFromFirst(bs[1..], available, [bs[0]], needed);
        assert rest[0][0] == rest[0][..1][0] == bs[0];
        assert RowsFrom(bs, available, cur, used) == [cur] + rest;
        var rows := [cur] + rest;
        forall k | 0 < k < |rows| ensures BreakAt(rows, available, k) {
          if k == 1 {
            assert rows[0] == cur && rows[1] == rest[0];
          } else {
            assert BreakAt(rest, available, k - 1);
            assert rows[k - 1] == rest[k - 2] && rows[k] == rest[k - 1];
          }
        }
      } else {
        assert RowsFrom(bs, available, cur, used) == RowsFrom(bs[1..], available, cur + [bs[0]], used + needed);
        RowsFromBreak(bs[1..], available, cur + [bs[0]], used + needed);
      }
    }
  }

  /** The rows of `_relayout`: non-empty, holding the buttons in order,
    * each fitting unless it is a lone button, and broken only where the
    * next button would not fit. */
  lemma RowsSpec(bs: seq<Button>, available: int)
    ensures var rows := Rows(bs, available);
      && Flatten(rows) == bs
      && AllRowsFit(rows, available)
      && BrokenWhereFull(rows, available)
  {
    RowsFromFlatten(bs, available, [], 0);
    RowsFromFit(bs, available, [], 0);
    RowsFromBreak(bs, available, [], 0);
    assert [] + bs == bs;
  }

  /** The row split of `_relayout`, as its loop does it. */
  method SplitRows(bs: seq<Button>, available: int) returns (rows: seq<seq<string>>)
    ensures rows == NamesOf(Rows(bs, available))
  {
    rows := [];
    var currentRow: seq<string> := [];
    var rowUsed := 0;
    ghost var done: seq<seq<Button>> := [];
    ghost var cur: seq<Button> := [];
    var i := 0;
    while i < |bs|
      invariant 0 <= i <= |bs|
      invariant rows == NamesOf(done) && currentRow == RowNames(cur)
      invariant done + RowsFrom(bs[i..], available, cur, rowUsed) == Rows(bs, available)
    {
      assert bs[i..][1..] == bs[i + 1..] && bs[i..][0] == bs[i];
      var needed := bs[i].width + BTN_PAD_X * 2;
      assert currentRow != [] <==> cur != [];
      if currentRow != [] && rowUsed + needed > available {
        assert RowsFrom(bs[i..], available, cur, rowUsed)
               == [cur] + RowsFrom(bs[i + 1..], available, [bs[i]], needed);
        ghost var empty: seq<Button> := [];
        assert empty + [bs[i]] == [bs[i]];
        assert done + ([cur] + RowsFrom(bs[i + 1..], available, [bs[i]], needed))
               == (done + [cur]) + RowsFrom(bs[i + 1..], available, [bs[i]], needed);
        rows := rows + [currentRow];
        done := done + [cur];
        currentRow := [];
        cur := [];
        rowUsed := 0;
      } else {
        assert RowsFrom(bs[i..], available, cur, rowUsed)
               == RowsFrom(bs[i + 1..], available, cur + [bs[i]], rowUsed + needed);
      }
      assert RowNames(cur + [bs[i]]) == currentRow + [bs[i].name];
      currentRow := currentRow + [bs[i].name];
      cur := cur + [bs[i]];
      rowUsed := rowUsed + needed;
      i := i + 1;
    }
    if currentRow != [] {
      rows := rows + [currentRow];
      done := done + [cur];
    }
  }

  /** The height of the tab area for `rows` rows: between one and three
    * rows of 34 pixels. */
  function ScrollHeight(rows: nat): (h: nat)
    ensures h == (ROW_HEIGHT + BTN_PAD_Y * 2) * (if rows == 0 then 1 else if rows > VISIBLE_ROWS then VISIBLE_ROWS else rows)
  {
    var visible := if rows < VISIBLE_ROWS then rows else VISIBLE_ROWS;
    (if visible > 1 then visible else 1) * (ROW_HEIGHT + BTN_PAD_Y * 2)
  }

  /** Between 34 and 102 pixels, growing with the rows up to three. */
  lemma ScrollHeightRange(rows: nat)
    ensures 34 <= ScrollHeight(rows) <= 102
    ensures 1 <= rows <= 3 ==> ScrollHeight(rows) == 34 * rows
    ensures rows >= 3 ==> ScrollHeight(rows) == 102
  {
  }

  // ---------------------------------------------------------------------
  // Touchpad deltas

  /** `_on_touchpad_scroll`'s Δy: the low 16 bits of the packed delta, as
    * a signed 16-bit number. Python's `& 0xFFFF` on any integer, negative
    * ones included, is the non-negative remainder modulo 65536. */
  function DecodeDy(raw: int): (dy: int)
    ensures -0x8000 <= dy < 0x8000
    ensures (raw - dy) % 0x1_0000 == 0
  {
    var low := raw % 0x1_0000;
    if low >= 0x8000 then low - 0x1_0000 else low
  }

  /** How Tk packs Δx into the high and Δy into the low 16 bits. */
  function PackDelta(dx: int, dy: int): int {
    dx * 0x1_0000 + dy % 0x1_0000
  }

  /** Decoding recovers every signed 16-bit Δy, whatever Δx is. */
  lemma DecodePacked(dx: int, dy: int)
    requires -0x8000 <= dy < 0x8000
    ensures DecodeDy(PackDelta(dx, dy)) == dy
  {
    var low := dy % 0x1_0000;
    assert (dx * 0x1_0000 + low) % 0x1_0000 == low;
  }

  // ---------------------------------------------------------------------
  // Display width

  /** The width of one character: 2 when its East Asian width is wide or
    * full-width, else 1. */
  function CharWidth(c: char, eastAsianWidth: char -> string): nat {
    if eastAsianWidth(c) == "W" || eastAsianWidth(c) == "F" then 2 else 1
  }

  function DisplayWidth(s: string, eastAsianWidth: char -> string): (w: nat)
    ensures |s| <= w <= 2 * |s|
  {
    if s == [] then 0 else DisplayWidth(s[..|s| - 1], eastAsianWidth) + CharWidth(s[|s| - 1], eastAsianWidth)
  }

  /** `_text_display_width`, accumulating over the characters. */
  method TextDisplayWidth(text: string, eastAsianWidth: char -> string) returns (width: nat)
    ensures width == DisplayWidth(text, eastAsianWidth)
  {
    width := 0;
    var i := 0;
    while i < |text|
      invariant 0 <= i <= |text|
      invariant width == DisplayWidth(text[..i], eastAsianWidth)
    {
      assert text[..i + 1][..i] == text[..i];
      width := width + CharWidth(text[i], eastAsianWidth);
      i := i + 1;
    }
    assert text[..i] == text;
  }

  /** The width of a concatenation is the sum of the widths. */
  lemma {:induction false} DisplayWidthConcat(a: string, b: string, eastAsianWidth: char -> string)
    ensures DisplayWidth(a + b, eastAsianWidth) == DisplayWidth(a, eastAsianWidth) + DisplayWidth(b, eastAsianWidth)
    decreases |b|
  {
    if b == [] {
      assert a + b == a;
    } else {
      var b' := b[..|b| - 1];
      assert (a + b)[..|a + b| - 1] == a + b';
      DisplayWidthConcat(a, b', eastAsianWidth);
    }
  }
}
