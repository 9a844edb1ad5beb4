/**
 * `ConfigManager`: the in-memory configuration and the history and
 * tab-group operations the GUI performs on it.
 *
 * `os.path.normpath` is a parameter `normpath`; the clock reading that
 * `touch` stores is a parameter `now`.
 */
module Config {
  import opened Wrappers
  import opened PyStr
  import opened Seqs
  import opened ConfigData
  import opened HistoryOrder
  import opened GroupNames

  /** The form in which `add_history` stores a typed or pasted path. */
  function Normalized(path: string, normpath: string -> string): string {
    normpath(StripQuotes(Strip(path)))
  }

  /** The first history entry whose normalized path is `target`. */
  function FindEntry(h: seq<HistoryEntry>, target: string, normpath: string -> string): (r: Option<nat>)
    ensures r.Some? ==> r.value < |h| && normpath(h[r.value].path) == target
    ensures r.Some? ==> forall k :: 0 <= k < r.value ==> normpath(h[k].path) != target
    ensures r.None? ==> forall k :: 0 <= k < |h| ==> normpath(h[k].path) != target
  {
    if h == [] then None
    else if normpath(h[0].path) == target then Some(0)
    else
      match FindEntry(h[1..], target, normpath)
      case None => None
      case Some(i) => Some(i + 1)
  }

  /** The first tab group called `name`. */
  function FindGroup(gs: seq<TabGroup>, name: string): (r: Option<nat>)
    ensures r.Some? ==> r.value < |gs| && gs[r.value].name == name
    ensures r.Some? ==> forall k :: 0 <= k < r.value ==> gs[k].name != name
    ensures r.None? ==> forall k :: 0 <= k < |gs| ==> gs[k].name != name
  {
    if gs == [] then None
    else if gs[0].name == name then Some(0)
    else
      match FindGroup(gs[1..], name)
      case None => None
      case Some(i) => Some(i + 1)
  }

  /** Appending an unpinned entry and trimming makes the history at most one
    * entry longer, and longer than `HISTORY_MAX` only when it already was
    * (pinned entries are never dropped). */
  lemma TrimAppendBound(h: seq<HistoryEntry>, e: HistoryEntry)
    requires !e.pinned
    ensures |Trim(h + [e])| <= |h| + 1
    ensures |Trim(h + [e])| <= if |h| > HISTORY_MAX then |h| else HISTORY_MAX
  {
    var g := h + [e];
    if |g| > HISTORY_MAX {
      TrimLength(g);
      PinnedSplit(g);
      PinnedConcat(h, [e]);
      PinnedSplit(h);
    }
  }

  /** The history after `add_history(path)` at time `now`: at most one entry
    * longer, and never longer than `HISTORY_MAX` unless it already was. */
  function AddedHistory(h: seq<HistoryEntry>, path: string, now: string, normpath: string -> string): (r: seq<HistoryEntry>)
    ensures |r| <= |h| + 1
    ensures |r| <= if |h| > HISTORY_MAX then |h| else HISTORY_MAX
  {
    var target := Normalized(path, normpath);
    match FindEntry(h, target, normpath)
    case Some(i) => h[i := Touch(h[i], now)]
    case None =>
      var e := Touch(NewEntry(target), now);
      TrimAppendBound(h, e);
      Trim(h + [e])
  }

  /** The history after `toggle_pin(path)`: only the first entry matching
    * the path has its pin flipped; every path stays where it was, and with
    * no match nothing changes. */
  function ToggledHistory(h: seq<HistoryEntry>, path: string, normpath: string -> string): (r: seq<HistoryEntry>)
    ensures |r| == |h|
    ensures forall j :: 0 <= j < |h| ==> r[j].path == h[j].path
    ensures var f := FindEntry(h, normpath(path), normpath);
            forall j :: 0 <= j < |h| ==> r[j].pinned == (if f == Some(j) then !h[j].pinned else h[j].pinned)
  {
    match FindEntry(h, normpath(path), normpath)
    case Some(i) => h[i := h[i].(pinned := !h[i].pinned)]
    case None => h
  }

  /** The history after `remove_history(path)`: no entry with the removed
    * normalized path remains, and every other entry is still there. */
  function RemovedHistory(h: seq<HistoryEntry>, path: string, normpath: string -> string): (r: seq<HistoryEntry>)
    ensures forall e :: e in r ==> normpath(e.path) != normpath(path)
    ensures forall e :: e in h && normpath(e.path) != normpath(path) ==> e in r
  {
    Filter(h, (e: HistoryEntry) => normpath(e.path) != normpath(path))
  }

  /** The groups after `rename_tab_group(oldName, newName)`. */
  function RenamedGroups(gs: seq<TabGroup>, oldName: string, newName: string): seq<TabGroup> {
    match FindGroup(gs, oldName)
    case Some(i) => gs[i := gs[i].(name := newName)]
    case None => gs
  }

  /** The names in use. */
  function GroupNameSet(gs: seq<TabGroup>): set<string> {
    set g | g in gs :: g.name
  }

  /** `not name or not name.strip()`. */
  predicate IsBlank(name: string) {
    name == [] || Strip(name) == []
  }

  /** The first-match loop over the history. */
  method IndexOfEntry(h: seq<HistoryEntry>, target: string, normpath: string -> string) returns (r: Option<nat>)
    ensures r == FindEntry(h, target, normpath)
  {
    var i := 0;
    while i < |h|
      invariant i <= |h|
      invariant forall k :: 0 <= k < i ==> normpath(h[k].path) != target
    {
      if normpath(h[i].path) == target {
        return Some(i);
      }
      i := i + 1;
    }
    return None;
  }

  /** `get_tab_group`'s loop: the position of the first group called `name`. */
  method IndexOfGroup(gs: seq<TabGroup>, name: string) returns (r: Option<nat>)
    ensures r == FindGroup(gs, name)
  {
    var i := 0;
    while i < |gs|
      invariant i <= |gs|
      invariant forall k :: 0 <= k < i ==> gs[k].name != name
    {
      if gs[i].name == name {
        return Some(i);
      }
      i := i + 1;
    }
    return None;
  }

  // ---------------------------------------------------------------------
  // What the history operations promise

  /** Adding a path that is already in the history touches the first entry
    * with that normalized path and nothing else: the list keeps its length
    * and order, and the use count rises by one. */
  lemma AddExistingTouchesFirst(h: seq<HistoryEntry>, path: string, now: string, normpath: string -> string, k: nat)
    requires k < |h| && normpath(h[k].path) == Normalized(path, normpath)
    ensures var r := AddedHistory(h, path, now, normpath);
            var i := FindEntry(h, Normalized(path, normpath), normpath).value;
            && i <= k
            && |r| == |h|
            && r[i].path == h[i].path && r[i].pinned == h[i].pinned
            && r[i].useCount == h[i].useCount + 1 && r[i].lastUsed == now
            && (forall j :: 0 <= j < |h| && j != i ==> r[j] == h[j])
  {
  }

  /** A new path is appended as an unpinned entry used once at `now`. */
  lemma AddNewAppends(h: seq<HistoryEntry>, path: string, now: string, normpath: string -> string)
    requires forall k :: 0 <= k < |h| ==> normpath(h[k].path) != Normalized(path, normpath)
    requires |h| < HISTORY_MAX
    ensures AddedHistory(h, path, now, normpath)
            == h + [HistoryEntry(Normalized(path, normpath), false, now, 1)]
  {
  }

  /** Whether an entry is pinned does not affect which entry a path finds. */
  lemma {:induction false} FindEntryIgnoresPins(h: seq<HistoryEntry>, i: nat, e: HistoryEntry, target: string, normpath: string -> string)
    requires i < |h| && e.path == h[i].path
    ensures FindEntry(h[i := e], target, normpath) == FindEntry(h, target, normpath)
  {
    if h != [] && i > 0 {
      assert h[i := e][1..] == h[1..][i - 1 := e];
      FindEntryIgnoresPins(h[1..], i - 1, e, target, normpath);
    }
  }

  /** Toggling a pin twice restores the history. */
  lemma ToggleTwice(h: seq<HistoryEntry>, path: string, normpath: string -> string)
    ensures ToggledHistory(ToggledHistory(h, path, normpath), path, normpath) == h
  {
    var f := FindEntry(h, normpath(path), normpath);
    if f.Some? {
      var i := f.value;
      FindEntryIgnoresPins(h, i, h[i].(pinned := !h[i].pinned), normpath(path), normpath);
    }
  }

  // ---------------------------------------------------------------------
  // What the tab-group operations promise

  /** Renaming changes the name of the first group called `oldName` and
    * nothing else; there is no check that `newName` is free. */
  lemma RenameFirstOnly(gs: seq<TabGroup>, oldName: string, newName: string)
    ensures |RenamedGroups(gs, oldName, newName)| == |gs|
    ensures var f := FindGroup(gs, oldName);
            forall j :: 0 <= j < |gs| ==>
              RenamedGroups(gs, oldName, newName)[j] == (if f == Some(j) then gs[j].(name := newName) else gs[j])
  {
  }

  /** Deleting removes every group with that name and keeps the others in
    * order. */
  lemma DeleteRemovesAll(gs: seq<TabGroup>, name: string)
    ensures forall g :: g in Filter(gs, (g: TabGroup) => g.name != name) ==> g.name != name
    ensures Filter(gs, (g: TabGroup) => g.name != name) == gs <==> forall k :: 0 <= k < |gs| ==> gs[k].name != name
  {
    if forall k :: 0 <= k < |gs| ==> gs[k].name != name {
      FilterAll(gs, (g: TabGroup) => g.name != name);
    }
  }

  class ConfigManager {
    var data: AppConfig

    constructor ()
      ensures data == DefaultConfig()
    {
      data := DefaultConfig();
    }

    // --- History operations

    method AddHistory(path: string, now: string, normpath: string -> string)
      modifies this
      ensures data == old(data).(history := AddedHistory(old(data.history), path, now, normpath))
    {
      var normalized := normpath(StripQuotes(Strip(path)));
      var found := IndexOfEntry(data.history, normalized, normpath);
      if found.Some? {
        var i := found.value;
        data := data.(history := data.history[i := Touch(data.history[i], now)]);
        return;
      }
      var entry := Touch(NewEntry(normalized), now);
      data := data.(history := data.history + [entry]);
      TrimHistory();
    }

    method RemoveHistory(path: string, normpath: string -> string)
      modifies this
      ensures data == old(data).(history := RemovedHistory(old(data.history), path, normpath))
    {
      data := data.(history := RemovedHistory(data.history, path, normpath));
    }

    method ClearHistory(keepPinned: bool)
      modifies this
      ensures data == old(data).(history := if keepPinned then Pinned(old(data.history)) else [])
    {
      if keepPinned {
        data := data.(history := Pinned(data.history));
      } else {
        data := data.(history := []);
      }
    }

    method TogglePin(path: string, normpath: string -> string)
      modifies this
      ensures data == old(data).(history := ToggledHistory(old(data.history), path, normpath))
    {
      var found := IndexOfEntry(data.history, normpath(path), normpath);
      if found.Some? {
        var i := found.value;
        var e := data.history[i];
        data := data.(history := data.history[i := e.(pinned := !e.pinned)]);
      }
    }

    method GetSortedHistory() returns (r: seq<HistoryEntry>)
      ensures r == SortedHistory(data.history)
    {
      r := SortNewestFirst(Pinned(data.history)) + SortNewestFirst(Unpinned(data.history));
    }

    method TrimHistory()
      modifies this
      ensures data == old(data).(history := Trim(old(data.history)))
    {
      if |data.history| <= HISTORY_MAX {
        return;
      }
      var pinned := Pinned(data.history);
      var unpinned := Unpinned(data.history);
      var keepCount := if HISTORY_MAX >= |pinned| then HISTORY_MAX - |pinned| else 0;
      PinnedSplit(data.history);
      unpinned := SortNewestFirst(unpinned);
      data := data.(history := pinned + unpinned[..keepCount]);
    }

    // --- Tab group operations

    method AddTabGroup(name: string) returns (r: Option<TabGroup>)
      modifies this
      ensures IsBlank(name) ==> r.None? && data == old(data)
      ensures !IsBlank(name) && FindGroup(old(data.tabGroups), name).Some? ==> r.None? && data == old(data)
      ensures !IsBlank(name) && FindGroup(old(data.tabGroups), name).None? ==>
                r == Some(NewGroup(name)) && data == old(data).(tabGroups := old(data.tabGroups) + [NewGroup(name)])
    {
      if name == [] || Strip(name) == [] {
        return None;
      }
      var existing := GetTabGroup(name);
      if existing.Some? {
        return None;
      }
      var group := NewGroup(name);
      data := data.(tabGroups := data.tabGroups + [group]);
      return Some(group);
    }

    method DeleteTabGroup(name: string)
      modifies this
      ensures data == old(data).(tabGroups := Filter(old(data.tabGroups), (g: TabGroup) => g.name != name))
    {
      data := data.(tabGroups := Filter(data.tabGroups, (g: TabGroup) => g.name != name));
    }

    method RenameTabGroup(oldName: string, newName: string)
      modifies this
      ensures data == old(data).(tabGroups := RenamedGroups(old(data.tabGroups), oldName, newName))
    {
      var found := IndexOfGroup(data.tabGroups, oldName);
      if found.Some? {
        var i := found.value;
        data := data.(tabGroups := data.tabGroups[i := data.tabGroups[i].(name := newName)]);
      }
    }

    /** The first group called `name`, if any. */
    method GetTabGroup(name: string) returns (r: Option<TabGroup>)
      ensures r.None? <==> forall k :: 0 <= k < |data.tabGroups| ==> data.tabGroups[k].name != name
      ensures r.Some? ==> r.value.name == name && r.value == data.tabGroups[FindGroup(data.tabGroups, name).value]
    {
      var found := IndexOfGroup(data.tabGroups, name);
      if found.Some? {
        return Some(data.tabGroups[found.value]);
      }
      return None;
    }

    method AddPathToGroup(groupName: string, path: string, normpath: string -> string)
      modifies this
      ensures FindGroup(old(data.tabGroups), groupName).None? ==> data == old(data)
      ensures FindGroup(old(data.tabGroups), groupName).Some? ==>
                var i := FindGroup(old(data.tabGroups), groupName).value;
                var g := old(data.tabGroups)[i];
                data == old(data).(tabGroups := old(data.tabGroups)[i := g.(paths := g.paths + [normpath(path)])])
    {
      var found := IndexOfGroup(data.tabGroups, groupName);
      if found.Some? {
        var i := found.value;
        var g := data.tabGroups[i];
        data := data.(tabGroups := data.tabGroups[i := g.(paths := g.paths + [normpath(path)])]);
      }
    }

    method RemovePathFromGroup(groupName: string, index: int)
      modifies this
      ensures var f := FindGroup(old(data.tabGroups), groupName);
              (f.None? || !(0 <= index < |old(data.tabGroups)[f.value].paths|)) ==> data == old(data)
      ensures var f := FindGroup(old(data.tabGroups), groupName);
              f.Some? && 0 <= index < |old(data.tabGroups)[f.value].paths| ==>
                var g := old(data.tabGroups)[f.value];
                data == old(data).(tabGroups := old(data.tabGroups)[f.value := g.(paths := RemoveAt(g.paths, index))])
    {
      var found := IndexOfGroup(data.tabGroups, groupName);
      if found.Some? {
        var i := found.value;
        var g := data.tabGroups[i];
        if 0 <= index < |g.paths| {
          data := data.(tabGroups := data.tabGroups[i := g.(paths := RemoveAt(g.paths, index))]);
        }
      }
    }

    method MoveTabGroup(oldIndex: int, newIndex: int)
      modifies this
      ensures var n := |old(data.tabGroups)|;
              data == if 0 <= oldIndex < n && 0 <= newIndex < n
                      then old(data).(tabGroups := MoveItem(old(data.tabGroups), oldIndex, newIndex))
                      else old(data)
    {
      var groups := data.tabGroups;
      if 0 <= oldIndex < |groups| && 0 <= newIndex < |groups| {
        data := data.(tabGroups := MoveItem(groups, oldIndex, newIndex));
      }
    }

    method CopyTabGroup(name: string) returns (r: Option<TabGroup>)
      modifies this
      ensures FindGroup(old(data.tabGroups), name).None? ==> r.None? && data == old(data)
      ensures FindGroup(old(data.tabGroups), name).Some? ==>
                var source := old(data.tabGroups)[FindGroup(old(data.tabGroups), name).value];
                && r.Some?
                && data == old(data).(tabGroups := old(data.tabGroups) + [r.value])
                && r.value == source.(name := r.value.name)
                && (exists k: nat :: k >= 1 && r.value.name == CopyName(BaseName(name), k)
                      && (forall j :: 1 <= j < k ==> CopyName(BaseName(name), j) in GroupNameSet(old(data.tabGroups))))
                && r.value.name !in GroupNameSet(old(data.tabGroups))
    {
      var source := GetTabGroup(name);
      if source.None? {
        return None;
      }
      var base := BaseName(name);
      var existing := GroupNameSet(data.tabGroups);
      var suffix := NextFreeSuffix(base, existing);
      var copy := TabGroup(CopyName(base, suffix), source.value.paths,
        source.value.windowX, source.value.windowY, source.value.windowWidth, source.value.windowHeight);
      data := data.(tabGroups := data.tabGroups + [copy]);
      return Some(copy);
    }

    method MovePathInGroup(groupName: string, oldIndex: int, newIndex: int)
      modifies this
      ensures var f := FindGroup(old(data.tabGroups), groupName);
              (f.None? || !(0 <= oldIndex < |old(data.tabGroups)[f.value].paths|)
                       || !(0 <= newIndex < |old(data.tabGroups)[f.value].paths|)) ==> data == old(data)
      ensures var f := FindGroup(old(data.tabGroups), groupName);
              f.Some? && 0 <= oldIndex < |old(data.tabGroups)[f.value].paths|
                && 0 <= newIndex < |old(data.tabGroups)[f.value].paths| ==>
                var g := old(data.tabGroups)[f.value];
                data == old(data).(tabGroups := old(data.tabGroups)[f.value := g.(paths := MoveItem(g.paths, oldIndex, newIndex))])
    {
      var found := IndexOfGroup(data.tabGroups, groupName);
      if found.Some? {
        var i := found.value;
        var g := data.tabGroups[i];
        if 0 <= oldIndex < |g.paths| && 0 <= newIndex < |g.paths| {
          data := data.(tabGroups := data.tabGroups[i := g.(paths := MoveItem(g.paths, oldIndex, newIndex))]);
        }
      }
    }
  }
}
