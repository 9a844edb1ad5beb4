/**
 * The history section of the window: the dropdown that lists the history
 * with a pin marker in front of each path, reading the chosen path back out
 * of the entry field, and the Pin button, which adds the path to the
 * history when it is new and then flips its pin.
 */
module HistorySection {
  import opened Wrappers
  import opened PyStr
  import opened ConfigData
  import opened HistoryOrder
  import opened Config

  /** The marker in front of a pinned path: a pushpin and a space. */
  const PIN_PREFIX: string := "📌 "
  /** The marker in front of an unpinned path: three spaces. */
  const UNPIN_PREFIX: string := "   "

  /** The dropdown line for one history entry. */
  function DisplayValue(e: HistoryEntry): (v: string)
    ensures e.pinned ==> StartsWith(v, PIN_PREFIX) && v[|PIN_PREFIX|..] == e.path
    ensures !e.pinned ==> StartsWith(v, UNPIN_PREFIX) && v[|UNPIN_PREFIX|..] == e.path
  {
    (if e.pinned then PIN_PREFIX else UNPIN_PREFIX) + e.path
  }

  /** Drop one display marker from the front of `value`, the pin marker
    * taking precedence. */
  function RemoveDisplayPrefix(value: string): (r: string)
    ensures |r| <= |value| && r == value[|value| - |r|..]
    ensures |r| == |value| || value[..|value| - |r|] == PIN_PREFIX || value[..|value| - |r|] == UNPIN_PREFIX
  {
    if StartsWith(value, PIN_PREFIX) then value[|PIN_PREFIX|..]
    else if StartsWith(value, UNPIN_PREFIX) then value[|UNPIN_PREFIX|..]
    else value
  }

  /** The path the entry field holds: nothing while the placeholder is
    * shown, otherwise the text stripped, cleared of one marker and
    * stripped again. */
  function SelectedPath(placeholderActive: bool, text: string): (r: string)
    ensures IsStripped(r)
    ensures placeholderActive ==> r == []
  {
    if placeholderActive then [] else Strip(RemoveDisplayPrefix(Strip(text)))
  }

  // ---------------------------------------------------------------------
  // What the dropdown promises

  /** Every dropdown line gives back exactly its entry's path once its
    * marker is removed. */
  lemma DisplayRoundTrip(e: HistoryEntry)
    ensures RemoveDisplayPrefix(DisplayValue(e)) == e.path
  {
    var v := DisplayValue(e);
    if !e.pinned {
      assert v[0] == ' ';
      assert !StartsWith(v, PIN_PREFIX) by { assert PIN_PREFIX[0] != ' '; }
    }
  }

  /** Text read from the entry field is stripped first, so the unpinned
    * marker, being all spaces, is never found there. */
  lemma SelectedTextNeverUnpinned(text: string)
    ensures !StartsWith(Strip(text), UNPIN_PREFIX)
  {
    var s := Strip(text);
    if |s| >= |UNPIN_PREFIX| {
      assert s[..|UNPIN_PREFIX|][0] == s[0] && !IsSpace(s[0]);
    }
  }

  /** Choosing a dropdown line and then reading the entry field yields the
    * entry's path, when that path has no surrounding spaces and does not
    * itself begin with the pin marker. */
  lemma SelectThenRead(e: HistoryEntry)
    requires IsStripped(e.path) && !StartsWith(e.path, PIN_PREFIX)
    ensures SelectedPath(false, RemoveDisplayPrefix(DisplayValue(e))) == e.path
  {
    DisplayRoundTrip(e);
    StripOfStripped(e.path);
    assert RemoveDisplayPrefix(e.path) == e.path by {
      SelectedTextNeverUnpinned(e.path);
    }
  }

  /** Typing a pinned line straight into the entry field also yields the
    * entry's path. */
  lemma TypedPinnedLineReads(e: HistoryEntry)
    requires e.pinned && e.path != [] && IsStripped(e.path)
    ensures SelectedPath(false, DisplayValue(e)) == e.path
  {
    var v := DisplayValue(e);
    assert v == PIN_PREFIX + e.path;
    assert !IsSpace(v[0]) && v[|v| - 1] == e.path[|e.path| - 1];
    StripOfStripped(v);
    StripOfStripped(e.path);
  }

  /** An unpinned path that itself begins with the pin marker loses it on
    * the way back: the requirement in `SelectThenRead` is needed. */
  lemma MarkerInsidePathIsLost(e: HistoryEntry, rest: string)
    requires !e.pinned && e.path == PIN_PREFIX + rest
    requires rest != [] && IsStripped(rest)
    ensures SelectedPath(false, RemoveDisplayPrefix(DisplayValue(e))) == rest != e.path
  {
    var v := DisplayValue(e);
    var t := PIN_PREFIX + rest;
    assert IsStripped(t) by { assert t[0] == PIN_PREFIX[0] && t[|t| - 1] == rest[|rest| - 1]; }
    DisplayRoundTrip(e);
    StripOfStripped(t);
    assert t[..|PIN_PREFIX|] == PIN_PREFIX;
    StripOfStripped(rest);
  }

  // ---------------------------------------------------------------------
  // The Pin button

  /** The history after the Pin button as the handler is written: the
    * dropdown lookup and the pin toggle use the text without its quotes
    * stripped, while `add_history` strips them. */
  function PinnedHistoryAsWritten(h: seq<HistoryEntry>, selected: string, now: string,
                                  normpath: string -> string, expanduser: string -> string): (r: seq<HistoryEntry>)
    ensures |r| <= |h| + 1
  {
    if selected == [] then h
    else
      var expanded := expanduser(selected);
      var normalized := normpath(expanded);
      var added := if FindEntry(h, normalized, normpath).None? then AddedHistory(h, expanded, now, normpath) else h;
      ToggledHistory(added, normalized, normpath)
  }

  /** The history after the Pin button with the lookup key made the same
    * normalized form that `add_history` stores, quotes stripped first as the
    * Open button does. */
  function PinnedHistory(h: seq<HistoryEntry>, selected: string, now: string,
                         normpath: string -> string, expanduser: string -> string): (r: seq<HistoryEntry>)
    ensures |r| <= |h| + 1
  {
    var path := StripQuotes(selected);
    if path == [] then h
    else
      var expanded := expanduser(path);
      var key := Normalized(expanded, normpath);
      var added := if FindEntry(h, key, normpath).None? then AddedHistory(h, expanded, now, normpath) else h;
      ToggledHistory(added, key, normpath)
  }

  /** Appending an entry leaves earlier matches first and is found only
    * when nothing before it matches. */
  lemma FindEntryAppend(h: seq<HistoryEntry>, e: HistoryEntry, target: string, normpath: string -> string)
    ensures FindEntry(h, target, normpath).Some? ==> FindEntry(h + [e], target, normpath) == FindEntry(h, target, normpath)
    ensures FindEntry(h, target, normpath).None? && normpath(e.path) == target ==> FindEntry(h + [e], target, normpath) == Some(|h|)
    ensures FindEntry(h, target, normpath).None? && normpath(e.path) != target ==> FindEntry(h + [e], target, normpath).None?
  {
    var g := h + [e];
    assert forall k :: 0 <= k < |h| ==> g[k] == h[k];
    assert g[|h|] == e;
  }

  /** The Pin button flips the pin of the entry the selected path names, or,
    * when there is none and the history has room, appends that path as a
    * pinned entry used once at `now`; with an empty selection nothing
    * changes. Lookups rely on `normpath` being idempotent, as
    * `os.path.normpath` is. */
  lemma PinTogglesEntry(h: seq<HistoryEntry>, selected: string, now: string,
                        normpath: string -> string, expanduser: string -> string)
    requires forall s :: normpath(normpath(s)) == normpath(s)
    ensures StripQuotes(selected) == [] ==> PinnedHistory(h, selected, now, normpath, expanduser) == h
    ensures var key := Normalized(expanduser(StripQuotes(selected)), normpath);
            var r := PinnedHistory(h, selected, now, normpath, expanduser);
            StripQuotes(selected) != [] ==>
              && (FindEntry(h, key, normpath).Some? ==>
                    var i := FindEntry(h, key, normpath).value;
                    r == h[i := h[i].(pinned := !h[i].pinned)])
              && (FindEntry(h, key, normpath).None? && |h| < HISTORY_MAX ==>
                    r == h + [HistoryEntry(key, true, now, 1)])
  {
    var path := StripQuotes(selected);
    if path != [] {
      var expanded := expanduser(path);
      var key := Normalized(expanded, normpath);
      assert normpath(key) == key;
      var f := FindEntry(h, key, normpath);
      if f.None? && |h| < HISTORY_MAX {
        var e := HistoryEntry(key, false, now, 1);
        AddNewAppends(h, expanded, now, normpath);
        FindEntryAppend(h, e, key, normpath);
        assert (h + [e])[|h| := e.(pinned := true)] == h + [HistoryEntry(key, true, now, 1)];
      }
    }
  }

  /** When neither the selection nor its expansion carries quotes or
    * surrounding spaces, the handler as written and the corrected one
    * agree: the discrepancy is confined to quoted input. */
  lemma PinAgreesWithoutQuotes(h: seq<HistoryEntry>, selected: string, now: string,
                               normpath: string -> string, expanduser: string -> string)
    requires StripQuotes(selected) == selected
    requires Strip(expanduser(selected)) == expanduser(selected)
    requires StripQuotes(expanduser(selected)) == expanduser(selected)
    ensures PinnedHistoryAsWritten(h, selected, now, normpath, expanduser)
            == PinnedHistory(h, selected, now, normpath, expanduser)
  {
    if selected != [] {
      assert Normalized(expanduser(selected), normpath) == normpath(expanduser(selected));
    }
  }

  /** With the text `"/a"` typed, quotes included, into an empty history,
    * the handler as written adds `/a` but leaves it unpinned: the toggle
    * looks for the quoted text and finds nothing. The corrected handler
    * pins it. */
  lemma QuotedPinAsWritten(now: string)
    ensures PinnedHistoryAsWritten([], "\"/a\"", now, s => s, s => s) == [HistoryEntry("/a", false, now, 1)]
    ensures PinnedHistory([], "\"/a\"", now, s => s, s => s) == [HistoryEntry("/a", true, now, 1)]
  {
    var id: string -> string := s => s;
    var q := "\"/a\"";
    assert StripQuotes(q) == "/a";
    assert Strip(q) == q by { StripOfStripped(q); }
    var e := HistoryEntry("/a", false, now, 1);
    AddNewAppends([], q, now, id);
    assert AddedHistory([], q, now, id) == [e];
    assert FindEntry([e], q, id).None? by { assert e.path != q; }
    assert Strip("/a") == "/a" by { StripOfStripped("/a"); }
    assert Normalized(id(StripQuotes(q)), id) == "/a";
    PinTogglesEntry([], q, now, id, id);
  }

  /** The handler's search loop: whether some entry's normalized path is
    * `key`. */
  method AnyEntryMatches(h: seq<HistoryEntry>, key: string, normpath: string -> string) returns (found: bool)
    ensures found <==> FindEntry(h, key, normpath).Some?
  {
    found := false;
    var i := 0;
    while i < |h|
      invariant 0 <= i <= |h|
      invariant forall k :: 0 <= k < i ==> normpath(h[k].path) != key
    {
      if normpath(h[i].path) == key {
        found := true;
        return;
      }
      i := i + 1;
    }
  }

  // ---------------------------------------------------------------------
  // The section as an object

  /** The history section: the entry field's text and whether it shows the
    * placeholder, over the shared configuration store. */
  class Section {
    const config: ConfigManager
    var entryText: string
    var placeholderActive: bool

    constructor (config: ConfigManager)
      ensures this.config == config && entryText == [] && placeholderActive
    {
      this.config := config;
      entryText := [];
      placeholderActive := true;
    }

    /** `_get_dropdown_values`: one line per entry of the sorted history, in
      * the same order, each giving back its entry's path. */
    method DropdownValues() returns (values: seq<string>)
      ensures |values| == |SortedHistory(config.data.history)|
      ensures forall k :: 0 <= k < |values| ==> values[k] == DisplayValue(SortedHistory(config.data.history)[k])
      ensures forall k :: 0 <= k < |values| ==> RemoveDisplayPrefix(values[k]) == SortedHistory(config.data.history)[k].path
    {
      var history := config.GetSortedHistory();
      values := [];
      var i := 0;
      while i < |history|
        invariant 0 <= i <= |history|
        invariant |values| == i
        invariant forall k :: 0 <= k < i ==> values[k] == DisplayValue(history[k])
      {
        var prefix := if history[i].pinned then PIN_PREFIX else UNPIN_PREFIX;
        assert prefix + history[i].path == DisplayValue(history[i]);
        values := values + [prefix + history[i].path];
        i := i + 1;
      }
      forall k | 0 <= k < |values|
        ensures RemoveDisplayPrefix(values[k]) == history[k].path
      {
        DisplayRoundTrip(history[k]);
      }
    }

    /** `_on_dropdown_select`: with no line chosen nothing happens; otherwise
      * the entry field is replaced by the chosen line without its marker. */
    method OnDropdownSelect(chosen: Option<string>)
      modifies this
      ensures chosen.None? ==> entryText == old(entryText)
      ensures chosen.Some? ==> entryText == RemoveDisplayPrefix(chosen.value)
      ensures placeholderActive == old(placeholderActive)
    {
      if chosen.None? {
        return;
      }
      var value := chosen.value;
      if StartsWith(value, PIN_PREFIX) {
        value := value[|PIN_PREFIX|..];
      } else if StartsWith(value, UNPIN_PREFIX) {
        value := value[|UNPIN_PREFIX|..];
      }
      entryText := value;
    }

    /** `_get_selected_path`. */
    method GetSelectedPath() returns (path: string)
      ensures path == SelectedPath(placeholderActive, entryText)
    {
      if placeholderActive {
        return [];
      }
      path := RemoveDisplayPrefix(Strip(entryText));
      path := Strip(path);
    }

    /** `_on_pin`: add the selected path when no entry has its normalized
      * form, then toggle that entry's pin. */
    method OnPin(now: string, normpath: string -> string, expanduser: string -> string)
      modifies config
      ensures config.data == old(config.data).(history :=
                PinnedHistory(old(config.data.history), SelectedPath(placeholderActive, entryText), now, normpath, expanduser))
    {
      var selected := GetSelectedPath();
      var path := StripQuotes(selected);
      if path == [] {
        return;
      }
      var expanded := expanduser(path);
      var key := normpath(StripQuotes(Strip(expanded)));
      assert key == Normalized(expanded, normpath);
      var found := AnyEntryMatches(config.data.history, key, normpath);
      if !found {
        config.AddHistory(expanded, now, normpath);
      }
      config.TogglePin(key, normpath);
    }
  }
}
