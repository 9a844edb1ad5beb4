/**
 * The records the configuration file holds: history entries, tab groups
 * and the application configuration, with their defaults, plus the quote
 * stripping applied to pasted paths.
 */
module ConfigData {
  import opened Wrappers

  /** Most history entries kept once unpinned ones start being dropped. */
  const HISTORY_MAX: nat := 50

  /** Version number written into a fresh configuration. */
  const CONFIG_VERSION: int := 1

  /** Main-window size used when the file names none. */
  const DEFAULT_GEOMETRY: string := "800x600"

  /** One remembered folder. `lastUsed` is an ISO-8601 timestamp string,
    * compared as text; `useCount` counts the times it was opened. */
  datatype HistoryEntry = HistoryEntry(path: string, pinned: bool, lastUsed: string, useCount: int)

  /** A named, ordered list of folders, with an optional remembered
    * window position and size for each coordinate. */
  datatype TabGroup = TabGroup(
    name: string,
    paths: seq<string>,
    windowX: Option<int>,
    windowY: Option<int>,
    windowWidth: Option<int>,
    windowHeight: Option<int>)

  /** A JSON value as `json.loads` returns it (floating-point numbers
    * are not modelled). */
  datatype Json =
    | JNull
    | JBool(b: bool)
    | JInt(i: int)
    | JStr(s: string)
    | JList(items: seq<Json>)
    | JObj(fields: map<string, Json>)

  datatype AppConfig = AppConfig(
    configVersion: int,
    history: seq<HistoryEntry>,
    tabGroups: seq<TabGroup>,
    windowGeometry: string,
    settings: map<string, Json>)

  /** `{"use_custom_tk": True}`. */
  const DEFAULT_SETTINGS: map<string, Json> := map["use_custom_tk" := JBool(true)]

  /** A history entry as created for a new path. */
  function NewEntry(path: string): (e: HistoryEntry)
    ensures e.path == path && !e.pinned && e.lastUsed == "" && e.useCount == 0
  {
    HistoryEntry(path, false, "", 0)
  }

  /** A tab group as created from a name alone. */
  function NewGroup(name: string): (g: TabGroup)
    ensures g.name == name && g.paths == []
    ensures g.windowX.None? && g.windowY.None? && g.windowWidth.None? && g.windowHeight.None?
  {
    TabGroup(name, [], None, None, None, None)
  }

  /** The configuration used when there is no file. */
  function DefaultConfig(): (c: AppConfig)
    ensures c.configVersion == 1 && c.history == [] && c.tabGroups == []
    ensures c.windowGeometry == "800x600" && c.settings == DEFAULT_SETTINGS
  {
    AppConfig(CONFIG_VERSION, [], [], DEFAULT_GEOMETRY, DEFAULT_SETTINGS)
  }

  /** `HistoryEntry.touch`: record a use at time `now` (the clock reading is
    * a parameter). */
  function Touch(e: HistoryEntry, now: string): (r: HistoryEntry)
    ensures r.path == e.path && r.pinned == e.pinned
    ensures r.lastUsed == now && r.useCount == e.useCount + 1
  {
    e.(lastUsed := now, useCount := e.useCount + 1)
  }

  predicate IsQuote(c: char) { c == '"' || c == '\'' }

  /** `strip_quotes`: drop one pair of matching `"` or `'` around the text. */
  function StripQuotes(text: string): (r: string)
    ensures |text| >= 2 && IsQuote(text[0]) && text[0] == text[|text| - 1] ==> r == text[1..|text| - 1]
    ensures !(|text| >= 2 && IsQuote(text[0]) && text[0] == text[|text| - 1]) ==> r == text
  {
    if |text| >= 2 && text[0] == '"' && text[|text| - 1] == '"' then text[1..|text| - 1]
    else if |text| >= 2 && text[0] == '\'' && text[|text| - 1] == '\'' then text[1..|text| - 1]
    else text
  }

  /** Quoting a text and stripping the quotes again gives the text back;
    * only one pair is removed even when the text is itself quoted. */
  lemma StripQuotesOfQuoted(q: char, s: string)
    requires IsQuote(q)
    ensures StripQuotes([q] + s + [q]) == s
  {
    assert ([q] + s + [q])[1..|s| + 1] == s;
  }

  /** The edge cases: a lone quote stays, an empty pair becomes empty,
    * three quotes lose the outer pair, mismatched quotes stay. */
  lemma StripQuotesEdgeCases()
    ensures StripQuotes("\"") == "\""
    ensures StripQuotes("\"\"") == ""
    ensures StripQuotes("\"\"\"") == "\""
    ensures StripQuotes("'/a\"") == "'/a\""
    ensures StripQuotes("'/a'") == "/a"
  {
  }
}
