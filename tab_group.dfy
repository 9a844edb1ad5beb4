/**
 * The helpers of `TabGroupSection`, the lower half of the main window:
 * reading the geometry entry fields into the current tab group, the
 * window rectangle handed to the openers, the guard that keeps "Open as
 * Tabs" from starting twice, and moving the current tab left or right.
 *
 * The Tk widgets are not modelled: the four geometry entries are their
 * texts, message boxes are recorded as `Notice`s, and each call of the
 * `on_open_tabs` callback is recorded as an `OpenRequest`.
 */
module TabGroupSection {
  import opened Wrappers
  import opened PyStr
  import opened Seqs
  import opened ConfigData
  import opened Config
  import opened Widgets

  /** The smallest window Finder and Explorer are asked for. */
  const MIN_WINDOW_WIDTH: int := 528
  const MIN_WINDOW_HEIGHT: int := 308

  // ---------------------------------------------------------------------
  // Parsing and clamping

  /** `_parse_int`: `int(value.strip())`, or `None` when that raises. */
  function ParseIntOrNone(value: string): (r: Option<int>)
    ensures r.Some? <==> ParseInt(value).Parsed?
    ensures r.Some? ==> r.value == ParseInt(value).value
  {
    StripIdempotent(value);
    match ParseInt(Strip(value))
    case Parsed(v) => Some(v)
    case Invalid => None
  }

  /** The text `str(i)` reads back as `i`, and the empty text as nothing. */
  lemma ParseIntOrNoneRoundTrip(i: int)
    ensures ParseIntOrNone(IntToString(i)) == Some(i)
    ensures ParseIntOrNone("") == None
  {
    ParseIntOfIntToString(i);
    ParseIntRejectsBlank();
  }

  /** `_clamp_min`: nothing stays nothing; a value is raised to at least
    * `minimum` and otherwise kept. */
  function ClampMin(value: Option<int>, minimum: int): (r: Option<int>)
    ensures r.None? <==> value.None?
    ensures r.Some? ==> r.value >= minimum && r.value >= value.value
    ensures r.Some? ==> (r.value == value.value || r.value == minimum)
    ensures r.Some? && value.value >= minimum ==> r.value == value.value
  {
    match value
    case None => None
    case Some(v) => Some(if v >= minimum then v else minimum)
  }

  /** Clamping twice is clamping once. */
  lemma ClampMinIdempotent(value: Option<int>, minimum: int)
    ensures ClampMin(ClampMin(value, minimum), minimum) == ClampMin(value, minimum)
  {
  }

  // ---------------------------------------------------------------------
  // Geometry entries

  /** The texts of the x, y, width and height entry fields. */
  datatype GeometryEntries = GeometryEntries(x: string, y: string, width: string, height: string)

  /** `_update_entry`: the entry shows `str(value)`, or nothing for `None`,
    * and is left alone when its stripped text already says so. */
  function UpdatedEntry(current: string, value: Option<int>): string {
    var newText := if value.Some? then IntToString(value.value) else "";
    if Strip(current) != newText then newText else current
  }

  /** Either way the entry reads back as `value`, and an entry that already
    * says so keeps its text. */
  lemma UpdatedEntryReadsBack(current: string, value: Option<int>)
    ensures ParseIntOrNone(UpdatedEntry(current, value)) == value
    ensures Strip(current) == (if value.Some? then IntToString(value.value) else "") ==> UpdatedEntry(current, value) == current
  {
    var newText := if value.Some? then IntToString(value.value) else "";
    if value.Some? { ParseIntOrNoneRoundTrip(value.value); } else { ParseIntOrNoneRoundTrip(0); }
    assert ParseIntOrNone(newText) == value;
    if Strip(current) == newText {
      StripIdempotent(current);
      assert ParseIntOrNone(current) == ParseIntOrNone(newText);
    }
  }

  /** The group after `_save_geometry` has read `e` into it: x and y as
    * typed, width and height raised to the minimum size; nothing else
    * changes. */
  function SavedGeometry(g: TabGroup, e: GeometryEntries): (r: TabGroup)
    ensures r.name == g.name && r.paths == g.paths
    ensures r.windowX == ParseIntOrNone(e.x) && r.windowY == ParseIntOrNone(e.y)
    ensures r.windowWidth.None? <==> ParseIntOrNone(e.width).None?
    ensures r.windowHeight.None? <==> ParseIntOrNone(e.height).None?
    ensures r.windowWidth.Some? ==> r.windowWidth.value >= MIN_WINDOW_WIDTH
    ensures r.windowHeight.Some? ==> r.windowHeight.value >= MIN_WINDOW_HEIGHT
  {
    g.(windowX := ParseIntOrNone(e.x), windowY := ParseIntOrNone(e.y),
       windowWidth := ClampMin(ParseIntOrNone(e.width), MIN_WINDOW_WIDTH),
       windowHeight := ClampMin(ParseIntOrNone(e.height), MIN_WINDOW_HEIGHT))
  }

  /** The entries after `_save_geometry`: width and height show the
    * clamped values; x and y are not touched. */
  function DisplayedEntries(e: GeometryEntries, g: TabGroup): GeometryEntries {
    e.(width := UpdatedEntry(e.width, g.windowWidth), height := UpdatedEntry(e.height, g.windowHeight))
  }

  /** Saving again what a save left on screen changes nothing. */
  lemma SaveGeometryStable(g: TabGroup, e: GeometryEntries)
    ensures var g1 := SavedGeometry(g, e);
      SavedGeometry(g1, DisplayedEntries(e, g1)) == g1
  {
    var g1 := SavedGeometry(g, e);
    UpdatedEntryReadsBack(e.width, g1.windowWidth);
    UpdatedEntryReadsBack(e.height, g1.windowHeight);
  }

  /** What `_save_geometry` leaves: the groups and the entries. */
  datatype Saved = Saved(groups: seq<TabGroup>, entries: GeometryEntries)

  /** `_save_geometry` on the groups `gs` with current tab `current`: with
    * no current tab or no group of its name nothing happens; otherwise the
    * first group of that name takes the entries' geometry. */
  function SaveOutcome(gs: seq<TabGroup>, current: Option<string>, e: GeometryEntries): Saved {
    if NoCurrent(current) then Saved(gs, e)
    else
      match FindGroup(gs, current.value)
      case None => Saved(gs, e)
      case Some(i) =>
        var g := SavedGeometry(gs[i], e);
        Saved(gs[i := g], DisplayedEntries(e, g))
  }

  /** A save touches only the first group of the current tab's name, and
    * leaves width and height entries that read back as what it stored. */
  lemma SaveOutcomeSpec(gs: seq<TabGroup>, current: Option<string>, e: GeometryEntries)
    ensures var r := SaveOutcome(gs, current, e);
      && |r.groups| == |gs|
      && (NoCurrent(current) || FindGroup(gs, current.value).None? ==> r == Saved(gs, e))
      && (!NoCurrent(current) && FindGroup(gs, current.value).Some? ==>
            var i := FindGroup(gs, current.value).value;
            && r.groups == gs[i := SavedGeometry(gs[i], e)]
            && r.entries.x == e.x && r.entries.y == e.y
            && ParseIntOrNone(r.entries.width) == r.groups[i].windowWidth
            && ParseIntOrNone(r.entries.height) == r.groups[i].windowHeight)
  {
    if !NoCurrent(current) && FindGroup(gs, current.value).Some? {
      var i := FindGroup(gs, current.value).value;
      var g := SavedGeometry(gs[i], e);
      UpdatedEntryReadsBack(e.width, g.windowWidth);
      UpdatedEntryReadsBack(e.height, g.windowHeight);
    }
  }

  /** The rectangle of a group: all four fields, or nothing. */
  function WindowRect(g: TabGroup): (r: Option<Rect>)
    ensures r.Some? <==> g.windowX.Some? && g.windowY.Some? && g.windowWidth.Some? && g.windowHeight.Some?
    ensures r.Some? ==> r.value == Rect(g.windowX.value, g.windowY.value, g.windowWidth.value, g.windowHeight.value)
  {
    if g.windowX.Some? && g.windowY.Some? && g.windowWidth.Some? && g.windowHeight.Some? then
      Some(Rect(g.windowX.value, g.windowY.value, g.windowWidth.value, g.windowHeight.value))
    else None
  }

  /** The rectangle `_get_window_rect` reports for the current tab. */
  function CurrentRect(gs: seq<TabGroup>, current: Option<string>): Option<Rect> {
    if NoCurrent(current) then None
    else
      match FindGroup(gs, current.value)
      case None => None
      case Some(i) => WindowRect(gs[i])
  }

  /** The rectangle handed to the openers after a save: all four entries
    * parse, and the size is at least the minimum window. */
  lemma SavedRect(gs: seq<TabGroup>, current: Option<string>, e: GeometryEntries)
    ensures var r := CurrentRect(SaveOutcome(gs, current, e).groups, current);
      && (r.Some? <==> !NoCurrent(current) && FindGroup(gs, current.value).Some?
                       && ParseIntOrNone(e.x).Some? && ParseIntOrNone(e.y).Some?
                       && ParseIntOrNone(e.width).Some? && ParseIntOrNone(e.height).Some?)
      && (r.Some? ==> r.value.x == ParseIntOrNone(e.x).value && r.value.y == ParseIntOrNone(e.y).value
                      && r.value.width >= MIN_WINDOW_WIDTH && r.value.height >= MIN_WINDOW_HEIGHT)
  {
    if !NoCurrent(current) && FindGroup(gs, current.value).Some? {
      var i := FindGroup(gs, current.value).value;
      var s := SaveOutcome(gs, current, e).groups;
      FindGroupAfterUpdate(gs, i, SavedGeometry(gs[i], e), current.value);
      assert FindGroup(s, current.value) == Some(i);
    }
  }

  /** Replacing the first group called `name` by one of the same name
    * leaves it the first. */
  lemma FindGroupAfterUpdate(gs: seq<TabGroup>, i: nat, g: TabGroup, name: string)
    requires FindGroup(gs, name) == Some(i) && g.name == name
    ensures FindGroup(gs[i := g], name) == Some(i)
  {
    var s := gs[i := g];
    FindGroupFirst(s, i, name);
  }

  lemma {:induction false} FindGroupFirst(gs: seq<TabGroup>, i: nat, name: string)
    requires i < |gs| && gs[i].name == name
    requires forall k :: 0 <= k < i ==> gs[k].name != name
    ensures FindGroup(gs, name) == Some(i)
  {
    if i > 0 {
      FindGroupFirst(gs[1..], i - 1, name);
    }
  }

  // ---------------------------------------------------------------------
  // The "Open as Tabs" guard

  /** Pressing "Open as Tabs" when `ready` (a current tab whose group has
    * paths), or the worker's `reset_opening`. */
  datatype GuardStep = Press(ready: bool) | Reset

  /** The flag and the number of `on_open_tabs` calls after one step. */
  datatype GuardState = GuardState(opening: bool, calls: nat)

  function Step(st: GuardState, step: GuardStep): (r: GuardState)
    ensures r.calls <= st.calls + 1
    ensures st.opening && step.Press? ==> r == st
    ensures r.calls == st.calls + 1 ==> r.opening
  {
    match step
    case Reset => st.(opening := false)
    case Press(ready) =>
      if st.opening || !ready then st
      else GuardState(true, st.calls + 1)
  }

  function Run(st: GuardState, steps: seq<GuardStep>): GuardState
    decreases |steps|
  {
    if steps == [] then st else Run(Step(st, steps[0]), steps[1..])
  }

  /** Between two resets the callback is called at most once, and not at
    * all while a run is still going. */
  lemma {:induction false} AtMostOneOpenBetweenResets(st: GuardState, steps: seq<GuardStep>)
    requires forall k :: 0 <= k < |steps| ==> steps[k].Press?
    decreases |steps|
    ensures Run(st, steps).calls <= st.calls + 1
    ensures st.opening ==> Run(st, steps) == st
    ensures Run(st, steps).calls == st.calls + 1 ==> Run(st, steps).opening
  {
    if steps != [] {
      var next := Step(st, steps[0]);
      AtMostOneOpenBetweenResets(next, steps[1..]);
    }
  }

  /** The paths "Open as Tabs" opens for the current tab: nothing when
    * there is no current tab, no group of its name, or no paths. */
  function PathsToOpen(gs: seq<TabGroup>, current: Option<string>): (r: Option<seq<string>>)
    ensures r.Some? ==> r.value != []
    ensures r.Some? <==> !NoCurrent(current) && FindGroup(gs, current.value).Some?
                         && gs[FindGroup(gs, current.value).value].paths != []
    ensures r.Some? ==> r.value == gs[FindGroup(gs, current.value).value].paths
  {
    if NoCurrent(current) then None
    else
      match FindGroup(gs, current.value)
      case None => None
      case Some(i) => if gs[i].paths == [] then None else Some(gs[i].paths)
  }

  /** The message boxes the section shows. */
  datatype Notice = NoTab | NoPaths

  /** A call of `on_open_tabs(paths, rect)`. */
  datatype OpenRequest = OpenRequest(paths: seq<string>, rect: Option<Rect>)

  /** What the section's handlers read and change: the tab groups of the
    * configuration, the current tab, the `_opening` flag, the geometry
    * entries, and the message boxes and callback calls so far. */
  datatype SectionState = SectionState(
    groups: seq<TabGroup>,
    current: Option<string>,
    opening: bool,
    entries: GeometryEntries,
    notices: seq<Notice>,
    requests: seq<OpenRequest>)

  /** `_save_geometry` on the whole state. */
  function AfterSave(v: SectionState): SectionState {
    var s := SaveOutcome(v.groups, v.current, v.entries);
    v.(groups := s.groups, entries := s.entries)
  }

  /** `_on_open_as_tabs` on the whole state. */
  function AfterOpen(v: SectionState): SectionState {
    if v.opening then v
    else if NoCurrent(v.current) then v.(notices := v.notices + [NoTab])
    else
      match PathsToOpen(v.groups, v.current)
      case None => v.(notices := v.notices + [NoPaths])
      case Some(paths) =>
        var s := AfterSave(v.(opening := true));
        s.(requests := s.requests + [OpenRequest(paths, CurrentRect(s.groups, s.current))])
  }

  /** "Open as Tabs" follows the guard: ignored while a run is going; a
    * missing tab or missing paths only shows a message; otherwise the flag
    * rises and the callback gets the group's paths and the rectangle the
    * save leaves. */
  lemma OpenSpec(v: SectionState)
    ensures var r := AfterOpen(v);
      var paths := PathsToOpen(v.groups, v.current);
      && GuardState(r.opening, |r.requests|) == Step(GuardState(v.opening, |v.requests|), Press(paths.Some?))
      && r.current == v.current
      && (v.opening ==> r == v)
      && (!v.opening && NoCurrent(v.current) ==> r == v.(notices := v.notices + [NoTab]))
      && (!v.opening && !NoCurrent(v.current) && paths.None? ==> r == v.(notices := v.notices + [NoPaths]))
      && (!v.opening && paths.Some? ==>
            && r.notices == v.notices
            && r.groups == SaveOutcome(v.groups, v.current, v.entries).groups
            && r.requests == v.requests + [OpenRequest(paths.value, CurrentRect(r.groups, v.current))])
  {
  }

  class Section {
    const config: ConfigManager
    const view: TabView
    var currentTabName: Option<string>
    var opening: bool
    var geomX: string
    var geomY: string
    var geomW: string
    var geomH: string
    var notices: seq<Notice>
    var requests: seq<OpenRequest>

    function Entries(): GeometryEntries
      reads this
    {
      GeometryEntries(geomX, geomY, geomW, geomH)
    }

    function State(): SectionState
      reads this, config
    {
      SectionState(config.data.tabGroups, currentTabName, opening, Entries(), notices, requests)
    }

    constructor (config: ConfigManager, view: TabView)
      ensures this.config == config && this.view == view
      ensures currentTabName.None? && !opening && notices == [] && requests == []
      ensures Entries() == GeometryEntries("", "", "", "")
    {
      this.config := config;
      this.view := view;
      currentTabName := None;
      opening := false;
      geomX, geomY, geomW, geomH := "", "", "", "";
      notices, requests := [], [];
    }

    /** `_save_geometry`: the current tab's group takes the geometry the
      * entries give, and the width and height entries show what was
      * stored. */
    method SaveGeometry()
      modifies this, config
      ensures State() == AfterSave(old(State()))
      ensures config.data == old(config.data).(tabGroups := config.data.tabGroups)
    {
      var r := SaveOutcome(config.data.tabGroups, currentTabName, Entries());
      config.data := config.data.(tabGroups := r.groups);
      geomX, geomY, geomW, geomH := r.entries.x, r.entries.y, r.entries.width, r.entries.height;
    }

    /** `_get_window_rect`: saves the entries, then reports the current
      * group's rectangle when all four fields are set. */
    method GetWindowRect() returns (r: Option<Rect>)
      modifies this, config
      ensures State() == AfterSave(old(State()))
      ensures config.data == old(config.data).(tabGroups := config.data.tabGroups)
      ensures r == CurrentRect(config.data.tabGroups, currentTabName)
    {
      SaveGeometry();
      if currentTabName.None? || currentTabName.value == "" {
        return None;
      }
      var found := IndexOfGroup(config.data.tabGroups, currentTabName.value);
      if found.None? {
        return None;
      }
      var group := config.data.tabGroups[found.value];
      if group.windowX.Some? && group.windowY.Some? && group.windowWidth.Some? && group.windowHeight.Some? {
        return Some(Rect(group.windowX.value, group.windowY.value, group.windowWidth.value, group.windowHeight.value));
      }
      return None;
    }

    /** `_on_open_as_tabs`. */
    method OnOpenAsTabs()
      modifies this, config
      ensures State() == AfterOpen(old(State()))
      ensures config.data == old(config.data).(tabGroups := config.data.tabGroups)
    {
      if opening {
        return;
      }
      if currentTabName.None? || currentTabName.value == "" {
        notices := notices + [NoTab];
        return;
      }
      var found := IndexOfGroup(config.data.tabGroups, currentTabName.value);
      if found.None? || config.data.tabGroups[found.value].paths == [] {
        notices := notices + [NoPaths];
        return;
      }
      var paths := config.data.tabGroups[found.value].paths;
      opening := true;
      var rect := GetWindowRect();
      requests := requests + [OpenRequest(paths, rect)];
    }

    /** `reset_opening`, called when the worker finishes. */
    method ResetOpening()
      modifies this
      ensures State() == old(State()).(opening := false)
    {
      opening := false;
    }

    /** `_on_move_tab_left`: the current tab swaps places with its left
      * neighbour, in the configuration and in the tab bar; the first tab
      * stays. */
    method MoveTabLeft()
      requires Widgets.Valid(view.State())
      modifies config, view
      ensures view.State() == MovedLeft(old(view.State()))
      ensures config.data == MovedGroups(old(config.data), LeftMove(old(view.State())))
    {
      ghost var m := LeftMove(view.State());
      var name := view.CurrentTabName();
      if name.None? || name.value == "" {
        assert m == NoMove;
        return;
      }
      var names := view.TabNames();
      var idx := FirstIndex(names, name.value);
      if idx <= 0 {
        assert m == NoMove;
        return;
      }
      assert m == MoveFrom(idx, idx - 1);
      config.MoveTabGroup(idx, idx - 1);
      view.MoveTab(idx, idx - 1);
    }

    /** `_on_move_tab_right`: the current tab swaps places with its right
      * neighbour; the last tab stays. */
    method MoveTabRight()
      requires Widgets.Valid(view.State())
      modifies config, view
      ensures view.State() == MovedRight(old(view.State()))
      ensures config.data == MovedGroups(old(config.data), RightMove(old(view.State())))
    {
      ghost var m := RightMove(view.State());
      var name := view.CurrentTabName();
      if name.None? || name.value == "" {
        assert m == NoMove;
        return;
      }
      var names := view.TabNames();
      var idx := FirstIndex(names, name.value);
      if idx >= |names| - 1 {
        assert m == NoMove;
        return;
      }
      assert m == MoveFrom(idx, idx + 1);
      config.MoveTabGroup(idx, idx + 1);
      view.MoveTab(idx, idx + 1);
    }
  }

  /** A move from one index to another, or none. */
  datatype Move = NoMove | MoveFrom(from: nat, to: nat)

  /** The move `_on_move_tab_left` makes: the current tab one place left,
    * unless there is none or it is first. */
  function LeftMove(s: TabState): (m: Move)
    requires Widgets.Valid(s)
    ensures m.MoveFrom? ==> m.to + 1 == m.from < |s.names| && s.current == Some(s.names[m.from])
  {
    if NoCurrent(s.current) then NoMove
    else
      var idx := FirstIndex(s.names, s.current.value);
      if idx <= 0 then NoMove else MoveFrom(idx, idx - 1)
  }

  /** The move `_on_move_tab_right` makes: one place right, unless there
    * is no current tab or it is last. */
  function RightMove(s: TabState): (m: Move)
    requires Widgets.Valid(s)
    ensures m.MoveFrom? ==> m.from + 1 == m.to < |s.names| && s.current == Some(s.names[m.from])
  {
    if NoCurrent(s.current) then NoMove
    else
      var idx := FirstIndex(s.names, s.current.value);
      if idx >= |s.names| - 1 then NoMove else MoveFrom(idx, idx + 1)
  }

  function Moved(s: TabState, m: Move): TabState {
    match m
    case NoMove => s
    case MoveFrom(i, j) => AfterMove(s, i, j)
  }

  function MovedLeft(s: TabState): TabState
    requires Widgets.Valid(s)
  {
    Moved(s, LeftMove(s))
  }

  function MovedRight(s: TabState): TabState
    requires Widgets.Valid(s)
  {
    Moved(s, RightMove(s))
  }

  /** `move_tab_group(i, j)`: in range, the group moves; otherwise nothing
    * happens. */
  function MovedGroups(c: AppConfig, m: Move): AppConfig {
    match m
    case NoMove => c
    case MoveFrom(i, j) =>
      if i < |c.tabGroups| && j < |c.tabGroups| then c.(tabGroups := MoveItem(c.tabGroups, i, j)) else c
  }

  /** Moving the current tab left keeps the tab bar valid and the tab
    * current; it does nothing exactly when there is no current tab or it
    * is first, and otherwise swaps it with its left neighbour, so that
    * moving it right again restores the tab bar. */
  lemma MoveLeftSpec(s: TabState)
    requires Widgets.Valid(s)
    ensures var m := LeftMove(s);
      var r := MovedLeft(s);
      && Widgets.Valid(r) && r.current == s.current
      && (m.NoMove? <==> NoCurrent(s.current) || s.names[0] == s.current.value)
      && (m.MoveFrom? ==>
            && r.names == s.names[m.from := s.names[m.to]][m.to := s.names[m.from]]
            && RightMove(r) == MoveFrom(m.to, m.from)
            && MovedRight(r) == s)
  {
    var m := LeftMove(s);
    if m.MoveFrom? {
      var i, j := m.from, m.to;
      var r := AfterMove(s, i, j);
      MoveSpec(s, i, j);
      MoveItemAdjacent(s.names, i, j);
      MoveItemBack(s.names, i, j);
      assert r.names[j] == s.current.value;
      FirstIndexAt(r.names, j);
      MoveSpec(r, j, i);
    } else if !NoCurrent(s.current) && s.names[0] == s.current.value {
      FirstIndexAt(s.names, 0);
    }
  }

  /** Moving the current tab right: the mirror image of `MoveLeftSpec`. */
  lemma MoveRightSpec(s: TabState)
    requires Widgets.Valid(s)
    ensures var m := RightMove(s);
      var r := MovedRight(s);
      && Widgets.Valid(r) && r.current == s.current
      && (m.NoMove? <==> NoCurrent(s.current) || s.names[|s.names| - 1] == s.current.value)
      && (m.MoveFrom? ==>
            && r.names == s.names[m.from := s.names[m.to]][m.to := s.names[m.from]]
            && LeftMove(r) == MoveFrom(m.to, m.from)
            && MovedLeft(r) == s)
  {
    var m := RightMove(s);
    if m.MoveFrom? {
      var i, j := m.from, m.to;
      var r := AfterMove(s, i, j);
      MoveSpec(s, i, j);
      MoveItemAdjacent(s.names, i, j);
      MoveItemBack(s.names, i, j);
      assert r.names[j] == s.current.value;
      FirstIndexAt(r.names, j);
      MoveSpec(r, j, i);
    } else if !NoCurrent(s.current) && s.names[|s.names| - 1] == s.current.value {
      FirstIndexAt(s.names, |s.names| - 1);
    }
  }

  /** In a list without duplicates, an element's first index is its index. */
  lemma FirstIndexAt(s: seq<string>, k: nat)
    requires NoDup(s) && k < |s|
    ensures FirstIndex(s, s[k]) == k
  {
    var f := FirstIndex(s, s[k]);
    assert s[f] == s[k];
  }

  /** Moving a group there and back restores the configuration. */
  lemma MovedGroupsBack(c: AppConfig, i: nat, j: nat)
    requires i < |c.tabGroups| && j < |c.tabGroups|
    ensures MovedGroups(MovedGroups(c, MoveFrom(i, j)), MoveFrom(j, i)) == c
  {
    MoveItemBack(c.tabGroups, i, j);
  }
}
