/**
 * `ConfigManager._to_dict` / `_from_dict`: the configuration as the JSON
 * object the file stores, and back. Reading tolerates missing keys (each
 * takes its default), accepts the legacy `"folders"` key for a group's
 * paths, and merges saved settings over the default settings.
 */
module ConfigJson {
  import opened Wrappers
  import opened ConfigData

  /** `d.get(key, default)`. */
  function Get(m: map<string, Json>, key: string, default: Json): Json {
    if key in m then m[key] else default
  }

  function OptIntToJson(v: Option<int>): Json {
    match v
    case None => JNull
    case Some(i) => JInt(i)
  }

  function StringsToJson(ps: seq<string>): (r: seq<Json>)
    ensures |r| == |ps|
  {
    if ps == [] then [] else [JStr(ps[0])] + StringsToJson(ps[1..])
  }

  function EntryToJson(e: HistoryEntry): Json {
    JObj(map[
      "path" := JStr(e.path),
      "pinned" := JBool(e.pinned),
      "last_used" := JStr(e.lastUsed),
      "use_count" := JInt(e.useCount)])
  }

  function GroupToJson(g: TabGroup): Json {
    JObj(map[
      "name" := JStr(g.name),
      "paths" := JList(StringsToJson(g.paths)),
      "window_x" := OptIntToJson(g.windowX),
      "window_y" := OptIntToJson(g.windowY),
      "window_width" := OptIntToJson(g.windowWidth),
      "window_height" := OptIntToJson(g.windowHeight)])
  }

  function EntriesToJson(h: seq<HistoryEntry>): (r: seq<Json>)
    ensures |r| == |h|
  {
    if h == [] then [] else [EntryToJson(h[0])] + EntriesToJson(h[1..])
  }

  function GroupsToJson(gs: seq<TabGroup>): (r: seq<Json>)
    ensures |r| == |gs|
  {
    if gs == [] then [] else [GroupToJson(gs[0])] + GroupsToJson(gs[1..])
  }

  /** The fields `_to_dict` writes. */
  function DictFields(c: AppConfig): map<string, Json> {
    map[
      "config_version" := JInt(c.configVersion),
      "history" := JList(EntriesToJson(c.history)),
      "tab_groups" := JList(GroupsToJson(c.tabGroups)),
      "window_geometry" := JStr(c.windowGeometry),
      "settings" := JObj(c.settings)]
  }

  /** `_to_dict`: what it writes, `FromDict` reads back as the
    * configuration with its settings merged over the defaults. */
  function ToDict(c: AppConfig): (r: Json)
    ensures FromDict(r) == Some(c.(settings := DEFAULT_SETTINGS + c.settings))
  {
    FieldsReadBack(c);
    JObj(DictFields(c))
  }

  // ---------------------------------------------------------------------
  // Reading. A value of a JSON type the field cannot hold makes the whole
  // read fail (`None`).

  function AsString(j: Json): Option<string> {
    if j.JStr? then Some(j.s) else None
  }

  function AsOptInt(j: Json): Option<Option<int>> {
    match j
    case JNull => Some(None)
    case JInt(i) => Some(Some(i))
    case _ => None
  }

  function StringsFromJson(items: seq<Json>): (r: Option<seq<string>>)
    ensures r.Some? ==> |r.value| == |items|
  {
    if items == [] then Some([])
    else if !items[0].JStr? then None
    else
      match StringsFromJson(items[1..])
      case None => None
      case Some(rest) => Some([items[0].s] + rest)
  }

  function EntryFromJson(j: Json): Option<HistoryEntry> {
    if !j.JObj? then None
    else
      var path := Get(j.fields, "path", JStr(""));
      var pinned := Get(j.fields, "pinned", JBool(false));
      var lastUsed := Get(j.fields, "last_used", JStr(""));
      var useCount := Get(j.fields, "use_count", JInt(0));
      if path.JStr? && pinned.JBool? && lastUsed.JStr? && useCount.JInt? then
        Some(HistoryEntry(path.s, pinned.b, lastUsed.s, useCount.i))
      else None
  }

  /** A group's paths: `item.get("paths", item.get("folders", []))`. */
  function GroupPaths(f: map<string, Json>): Json {
    Get(f, "paths", Get(f, "folders", JList([])))
  }

  /** `list(s)` of a string: its characters, each a string of its own. */
  function Chars(s: string): (r: seq<string>)
    ensures |r| == |s| && forall k :: 0 <= k < |s| ==> r[k] == [s[k]]
  {
    seq(|s|, k requires 0 <= k < |s| => [s[k]])
  }

  /** `list(paths)`: a list of strings as it is, a string split into its
    * characters. */
  function PathList(paths: Json): Option<seq<string>> {
    match paths
    case JList(items) => StringsFromJson(items)
    case JStr(s) => Some(Chars(s))
    case _ => None
  }

  function GroupFromJson(j: Json): Option<TabGroup> {
    if !j.JObj? then None
    else
      var name := Get(j.fields, "name", JStr(""));
      var paths := PathList(GroupPaths(j.fields));
      var x := AsOptInt(Get(j.fields, "window_x", JNull));
      var y := AsOptInt(Get(j.fields, "window_y", JNull));
      var w := AsOptInt(Get(j.fields, "window_width", JNull));
      var h := AsOptInt(Get(j.fields, "window_height", JNull));
      if name.JStr? && paths.Some? && x.Some? && y.Some? && w.Some? && h.Some? then
        Some(TabGroup(name.s, paths.value, x.value, y.value, w.value, h.value))
      else None
  }

  function EntriesFromJson(items: seq<Json>): (r: Option<seq<HistoryEntry>>)
    ensures r.Some? ==> |r.value| == |items|
  {
    if items == [] then Some([])
    else
      match (EntryFromJson(items[0]), EntriesFromJson(items[1..]))
      case (Some(e), Some(rest)) => Some([e] + rest)
      case _ => None
  }

  function GroupsFromJson(items: seq<Json>): (r: Option<seq<TabGroup>>)
    ensures r.Some? ==> |r.value| == |items|
  {
    if items == [] then Some([])
    else
      match (GroupFromJson(items[0]), GroupsFromJson(items[1..]))
      case (Some(g), Some(rest)) => Some([g] + rest)
      case _ => None
  }

  /** `_from_dict`: a configuration read has one entry per history item and
    * one group per group item, and its settings hold every default key. */
  function FromDict(d: Json): (r: Option<AppConfig>)
    ensures r.Some? ==> d.JObj?
    ensures r.Some? && "history" in d.fields ==>
              d.fields["history"].JList? && |r.value.history| == |d.fields["history"].items|
    ensures r.Some? && "tab_groups" in d.fields ==>
              d.fields["tab_groups"].JList? && |r.value.tabGroups| == |d.fields["tab_groups"].items|
    ensures r.Some? ==> DEFAULT_SETTINGS.Keys <= r.value.settings.Keys
  {
    if !d.JObj? then None
    else
      var version := Get(d.fields, "config_version", JInt(CONFIG_VERSION));
      var history := Get(d.fields, "history", JList([]));
      var groups := Get(d.fields, "tab_groups", JList([]));
      var geometry := Get(d.fields, "window_geometry", JStr(DEFAULT_GEOMETRY));
      var settings := Get(d.fields, "settings", JObj(map[]));
      if version.JInt? && history.JList? && groups.JList? && geometry.JStr? && settings.JObj? then
        match (EntriesFromJson(history.items), GroupsFromJson(groups.items))
        case (Some(h), Some(gs)) =>
          Some(AppConfig(version.i, h, gs, geometry.s, DEFAULT_SETTINGS + settings.fields))
        case _ => None
      else None
  }

  // ---------------------------------------------------------------------

  lemma {:induction false} StringsRoundTrip(ps: seq<string>)
    ensures StringsFromJson(StringsToJson(ps)) == Some(ps)
  {
    if ps != [] {
      var js := StringsToJson(ps);
      StringsRoundTrip(ps[1..]);
      assert js[0] == JStr(ps[0]) && js[1..] == StringsToJson(ps[1..]);
      assert StringsFromJson(js) == Some([ps[0]] + ps[1..]);
      assert [ps[0]] + ps[1..] == ps;
    }
  }

  lemma FieldsReadBack(c: AppConfig)
    ensures FromDict(JObj(DictFields(c))) == Some(c.(settings := DEFAULT_SETTINGS + c.settings))
  {
    EntriesRoundTrip(c.history);
    GroupsRoundTrip(c.tabGroups);
    DictFieldsGet(c);
    ReadFields(DictFields(c), EntriesToJson(c.history), GroupsToJson(c.tabGroups), c.settings,
               c.(settings := DEFAULT_SETTINGS + c.settings));
  }

  lemma DictFieldsGet(c: AppConfig)
    ensures Get(DictFields(c), "config_version", JInt(CONFIG_VERSION)) == JInt(c.configVersion)
    ensures Get(DictFields(c), "history", JList([])) == JList(EntriesToJson(c.history))
    ensures Get(DictFields(c), "tab_groups", JList([])) == JList(GroupsToJson(c.tabGroups))
    ensures Get(DictFields(c), "window_geometry", JStr(DEFAULT_GEOMETRY)) == JStr(c.windowGeometry)
    ensures Get(DictFields(c), "settings", JObj(map[])) == JObj(c.settings)
  {
  }

  lemma ReadFields(f: map<string, Json>, hs: seq<Json>, gs: seq<Json>, s: map<string, Json>,
                   cfg: AppConfig)
    requires Get(f, "config_version", JInt(CONFIG_VERSION)) == JInt(cfg.configVersion)
    requires Get(f, "history", JList([])) == JList(hs) && EntriesFromJson(hs) == Some(cfg.history)
    requires Get(f, "tab_groups", JList([])) == JList(gs) && GroupsFromJson(gs) == Some(cfg.tabGroups)
    requires Get(f, "window_geometry", JStr(DEFAULT_GEOMETRY)) == JStr(cfg.windowGeometry)
    requires Get(f, "settings", JObj(map[])) == JObj(s) && cfg.settings == DEFAULT_SETTINGS + s
    ensures FromDict(JObj(f)) == Some(cfg)
  {
  }

  lemma {:induction false} EntriesRoundTrip(h: seq<HistoryEntry>)
    ensures EntriesFromJson(EntriesToJson(h)) == Some(h)
  {
    if h != [] {
      var js := EntriesToJson(h);
      EntriesRoundTrip(h[1..]);
      EntryRoundTrip(h[0]);
      assert js[0] == EntryToJson(h[0]) && js[1..] == EntriesToJson(h[1..]);
      assert EntriesFromJson(js) == Some([h[0]] + h[1..]);
      assert [h[0]] + h[1..] == h;
    }
  }

  lemma EntryRoundTrip(e: HistoryEntry)
    ensures EntryFromJson(EntryToJson(e)) == Some(e)
  {
  }

  lemma GroupRoundTrip(g: TabGroup)
    ensures GroupFromJson(GroupToJson(g)) == Some(g)
  {
    var f := GroupToJson(g).fields;
    assert Get(f, "name", JStr("")) == JStr(g.name);
    assert GroupPaths(f) == JList(StringsToJson(g.paths));
    StringsRoundTrip(g.paths);
    assert PathList(GroupPaths(f)) == Some(g.paths);
    assert AsOptInt(Get(f, "window_x", JNull)) == Some(g.windowX) by { OptIntRoundTrip(g.windowX); }
    assert AsOptInt(Get(f, "window_y", JNull)) == Some(g.windowY) by { OptIntRoundTrip(g.windowY); }
    assert AsOptInt(Get(f, "window_width", JNull)) == Some(g.windowWidth) by { OptIntRoundTrip(g.windowWidth); }
    assert AsOptInt(Get(f, "window_height", JNull)) == Some(g.windowHeight) by { OptIntRoundTrip(g.windowHeight); }
  }

  lemma OptIntRoundTrip(v: Option<int>)
    ensures AsOptInt(OptIntToJson(v)) == Some(v)
  {
  }

  lemma {:induction false} GroupsRoundTrip(gs: seq<TabGroup>)
    ensures GroupsFromJson(GroupsToJson(gs)) == Some(gs)
  {
    if gs != [] {
      GroupsRoundTrip(gs[1..]);
      assert GroupsToJson(gs)[1..] == GroupsToJson(gs[1..]);
      GroupRoundTrip(gs[0]);
      assert gs == [gs[0]] + gs[1..];
    }
  }

  /** When the settings hold every default key, the round trip is exact. */
  lemma RoundTripExact(c: AppConfig)
    requires DEFAULT_SETTINGS.Keys <= c.settings.Keys
    ensures FromDict(ToDict(c)) == Some(c)
  {
    assert DEFAULT_SETTINGS + c.settings == c.settings;
  }

  /** An empty object reads as the default configuration. */
  lemma EmptyObjectIsDefault()
    ensures FromDict(JObj(map[])) == Some(DefaultConfig())
  {
    assert DEFAULT_SETTINGS + map[] == DEFAULT_SETTINGS;
  }

  /** A history item with only a path takes the defaults for the rest. */
  lemma EntryDefaults(p: string)
    ensures EntryFromJson(JObj(map["path" := JStr(p)])) == Some(NewEntry(p))
  {
  }

  /** `"folders"` stands in for a missing `"paths"`; `"paths"` wins when both
    * are there. */
  lemma FoldersAlias(n: string, ps: seq<string>, other: seq<string>)
    ensures GroupFromJson(JObj(map["name" := JStr(n), "folders" := JList(StringsToJson(ps))]))
            == Some(TabGroup(n, ps, None, None, None, None))
    ensures GroupFromJson(JObj(map["name" := JStr(n), "paths" := JList(StringsToJson(ps)),
                                   "folders" := JList(StringsToJson(other))]))
            == Some(TabGroup(n, ps, None, None, None, None))
  {
    StringsRoundTrip(ps);
  }

  /** A string where the paths belong is split into its characters, one
    * path each, as `list(paths)` does. */
  lemma PathsStringSplits(n: string, p: string)
    ensures GroupFromJson(JObj(map["name" := JStr(n), "paths" := JStr(p)]))
            == Some(TabGroup(n, Chars(p), None, None, None, None))
    ensures |p| == 2 ==> GroupFromJson(JObj(map["paths" := JStr(p)])).value.paths == [[p[0]], [p[1]]]
  {
  }

  /** Writing what was read and reading it again gives the same
    * configuration: after one read, the settings hold every default key. */
  lemma ReadWriteRead(d: Json)
    requires FromDict(d).Some?
    ensures FromDict(ToDict(FromDict(d).value)) == FromDict(d)
  {
    RoundTripExact(FromDict(d).value);
  }

  /** Saved settings override the defaults key by key, and a default
    * missing from the file is filled in. */
  lemma SettingsMerge(d: Json, k: string)
    requires FromDict(d).Some?
    ensures var s := Get(d.fields, "settings", JObj(map[])).fields;
            var merged := FromDict(d).value.settings;
            && merged.Keys == DEFAULT_SETTINGS.Keys + s.Keys
            && (k in s ==> merged[k] == s[k])
            && (k !in s && k in DEFAULT_SETTINGS ==> merged[k] == DEFAULT_SETTINGS[k])
  {
  }
}
