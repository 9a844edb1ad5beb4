# File Tab Opener, modelled in Dafny

File Tab Opener is a small desktop tool that remembers folders and opens
several of them at once as tabs of one Finder window (macOS) or one Explorer
window (Windows). The user keeps a history of recently used folders, some of
them pinned, and named *tab groups*, each an ordered list of folders with an
optional window position and size.

This project models the logic of that tool and proves what it promises:

- the configuration store: the history with its pins, use counts, trimming
  and sorting; the tab groups with their add, rename, copy, move and remove
  operations; and the conversion to and from the JSON dictionary that is
  written to disk (`config_data.dfy`, `history_order.dfy`,
  `group_names.dfy`, `config.dfy`, `config_json.dfy`);
- path validation before opening (`validate.dfy`);
- the macOS opener: AppleScript escaping, the generated Finder scripts and
  the fall-back from tabs to separate windows (`opener_mac.dfy`);
- the Windows opener: keyboard event records and UTF-16 typing
  (`win_input.dfy`), and window discovery, rectangle conversion, the three
  tiers (pywinauto, `SendInput`, separate windows) and their per-path
  progress and error reporting (`opener_win.dfy`);
- the tab bar's name and selection state, its greedy row wrapping, its
  scrolled height, touchpad delta decoding and text width estimation
  (`widgets.dfy`);
- the tab-group section: geometry entry parsing and clamping, the
  window rectangle, the re-entrancy guard of "Open as Tabs", and moving the
  current tab left and right (`tab_group.dfy`);
- the history section: the pin markers of the dropdown, reading the selected
  path back, and the Pin button (`history.dfy`);
- translation lookup with its fallbacks and placeholder formatting
  (`i18n.dfy`).

`wrappers.dfy` (an `Option` type and the rectangle record), `pystr.dfy`
(the Python `str` and `int` builtins the code uses) and `seqs.dfy` (list
removal, insertion, moves, filtering and de-duplication) are shared
support.

Everything the program gets from the operating system or the standard
library is a parameter of the model: `os.path.normpath`,
`os.path.expanduser`, `Path.is_dir`, `unicodedata.east_asian_width`, the
locale reading, the clock (`now`), the answers of `osascript`, `explorer.exe`,
`EnumWindows`, `GetWindowRect` and pywinauto. Where the program keeps an
object whose fields change (the configuration manager, the tab bar, the two
sections, the current language) the model has a class with those fields;
its methods are proved against pure functions of the old state, and the
properties are lemmas about those functions.

Where the accompanying tests and the code disagree, the model follows the
code:

- `_esc_applescript` does not remove line breaks; they are kept
  (`OpenerMac.EscNewlineExample`).
- The macOS `open_folders_as_tabs` does not de-duplicate paths; only the
  Windows one does.
- The tab script has no `prevId` wait loop; it retries `set target`.
- The dictionary written to disk holds `config_version`.
- Only English and Japanese exist; other languages fall back to English.
- `validate_paths` has no UNC-path case (`is_unc_path`, imported by the
  tab-group and history sections, is not defined in the package).
- The translation table has no `error.accessibility_required` key, so the
  permission error on macOS is shown as that key itself
  (`I18n.TranslateAccessibilityKey`, `OpenerMac.ErrorMessageCases`).

## Model

| member | source | states |
|---|---|---|
| ConfigData.NewEntry | file_tab_opener/config.py:53-59 | a new entry has the path, is unpinned, has an empty timestamp and a use count of 0 |
| ConfigData.NewGroup | file_tab_opener/config.py:68-76 | a new group has the name, no paths and no geometry |
| ConfigData.DefaultConfig | file_tab_opener/config.py:80-87 | the default configuration: version 1, empty history and groups, geometry `800x600`, the default settings |
| ConfigData.Touch | file_tab_opener/config.py:61-64 | touching keeps path and pin, stamps the time and adds exactly one use |
| ConfigData.StripQuotes | file_tab_opener/config.py:23-31 | one matching pair of `"` or `'` around a text of length at least 2 is removed; anything else is unchanged |
| ConfigData.StripQuotesOfQuoted | file_tab_opener/config.py:23-31 | quoting then stripping gives the text back, removing only one pair |
| ConfigData.StripQuotesEdgeCases | file_tab_opener/config.py:23-31 | a lone quote stays, `""` becomes empty, `"""` becomes `"`, mismatched quotes stay |
| Config.FindEntry | file_tab_opener/config.py:199-200 | the first entry whose normalized path is the target, or none exactly when no entry matches |
| Config.FindGroup | file_tab_opener/config.py:295-300 | the first group with the name, or none exactly when no group has it |
| Config.IndexOfEntry | file_tab_opener/config.py:199-203 | the first-match loop returns what `FindEntry` specifies |
| Config.IndexOfGroup | file_tab_opener/config.py:297-300 | the first-match loop returns what `FindGroup` specifies |
| Config.AddExistingTouchesFirst | file_tab_opener/config.py:195-203 | adding a known path touches only the first matching entry: same length and order, pin kept, use count plus one, time stamped |
| Config.AddNewAppends | file_tab_opener/config.py:204-207 | a new path is appended as an unpinned entry used once, stored in normalized, quote-stripped form |
| Config.AddedHistory | file_tab_opener/config.py:195-208 | adding makes the history at most one entry longer, and never longer than `HISTORY_MAX` unless it already was, since trimming never drops a pinned entry |
| Config.FindEntryIgnoresPins | file_tab_opener/config.py:227-235 | changing an entry's pin does not change which entry a path finds |
| Config.ToggleTwice | file_tab_opener/config.py:227-235 | toggling a pin twice restores the history |
| Config.ToggledHistory | file_tab_opener/config.py:227-235 | toggling flips only the first matching entry's pin, keeps every path in its place, and changes nothing when no entry matches |
| Config.RemovedHistory | file_tab_opener/config.py:210-216 | no entry with the removed normalized path remains, and every other entry does |
| Config.RenameFirstOnly | file_tab_opener/config.py:286-293 | only the first group with the old name is renamed; with no such group nothing changes |
| Config.DeleteRemovesAll | file_tab_opener/config.py:281-284 | every group with the name goes, and the list is unchanged exactly when none had it |
| Config.ConfigManager.constructor | file_tab_opener/config.py:93-95 | the manager starts with the default configuration |
| Config.ConfigManager.AddHistory | file_tab_opener/config.py:195-208 | the history becomes `AddedHistory` of the old one; nothing else changes |
| Config.ConfigManager.RemoveHistory | file_tab_opener/config.py:210-216 | the history becomes `RemovedHistory` of the old one |
| Config.ConfigManager.ClearHistory | file_tab_opener/config.py:218-225 | the history keeps only its pinned entries, or becomes empty |
| Config.ConfigManager.TogglePin | file_tab_opener/config.py:227-235 | the history becomes `ToggledHistory` of the old one |
| Config.ConfigManager.GetSortedHistory | file_tab_opener/config.py:237-249 | returns `SortedHistory` of the history |
| Config.ConfigManager.TrimHistory | file_tab_opener/config.py:251-264 | the history becomes `Trim` of the old one |
| Config.ConfigManager.AddTabGroup | file_tab_opener/config.py:268-279 | a blank or existing name returns nothing and changes nothing; any other name appends and returns a new empty group |
| Config.ConfigManager.DeleteTabGroup | file_tab_opener/config.py:281-284 | the groups become the old ones without that name |
| Config.ConfigManager.RenameTabGroup | file_tab_opener/config.py:286-293 | the groups become `RenamedGroups` of the old ones |
| Config.ConfigManager.GetTabGroup | file_tab_opener/config.py:295-300 | nothing exactly when no group has the name; otherwise the first group with it |
| Config.ConfigManager.AddPathToGroup | file_tab_opener/config.py:302-308 | the first group with the name gets the normalized path appended; with no such group nothing changes |
| Config.ConfigManager.RemovePathFromGroup | file_tab_opener/config.py:310-315 | an index in range is removed from the first group with the name; otherwise nothing changes |
| Config.ConfigManager.MoveTabGroup | file_tab_opener/config.py:317-322 | with both indices in range the group is popped and re-inserted; otherwise nothing changes |
| Config.ConfigManager.CopyTabGroup | file_tab_opener/config.py:324-355 | a missing source returns nothing; otherwise one copy with the same paths and geometry is appended, named `base k` for the least `k` from 1 whose name is free |
| Config.ConfigManager.MovePathInGroup | file_tab_opener/config.py:357-362 | with both indices in range the path moves within the first group with the name; otherwise nothing changes |
| HistoryOrder.InsertNewestFirst | file_tab_opener/config.py:239-248 | adds exactly the one entry, and a list that was newest first stays newest first |
| HistoryOrder.SortNewestFirst | file_tab_opener/config.py:239-248 | the descending sort by `last_used` is a permutation of its input |
| HistoryOrder.SortIsNewestFirst | file_tab_opener/config.py:239-248 | the sorted list is newest first |
| HistoryOrder.SortIsStable | file_tab_opener/config.py:239-248 | entries with equal timestamps keep their order, as Python's stable sort does |
| HistoryOrder.SortedHistory | file_tab_opener/config.py:237-249 | the sorted history is a permutation of the history, of the same length |
| HistoryOrder.Pinned | file_tab_opener/config.py:240 | every entry kept is pinned; together with PinnedSplit, the comprehension keeps exactly the pinned entries, and Unpinned is its mirror |
| HistoryOrder.PinnedSplit | file_tab_opener/config.py:259-260 | the pinned and unpinned lists together are the history, as a multiset and in length |
| HistoryOrder.SortedHistoryProperties | file_tab_opener/config.py:237-249 | the sorted history is a permutation of the history, every pinned entry precedes every unpinned one, and each block is newest first |
| HistoryOrder.SortedHistoryStable | file_tab_opener/config.py:237-249 | within each block, entries with equal timestamps keep their history order |
| HistoryOrder.Trim | file_tab_opener/config.py:257-258 | up to `HISTORY_MAX` entries nothing changes |
| HistoryOrder.TrimKeepsPinned | file_tab_opener/config.py:259-264 | an over-long history keeps every pinned entry, in order, at its front |
| HistoryOrder.TrimLength | file_tab_opener/config.py:261-264 | an over-long history is cut to `max(#pinned, HISTORY_MAX)` entries |
| HistoryOrder.TrimRemovesOnly | file_tab_opener/config.py:259-264 | what trimming keeps and drops together is the history, as a multiset |
| HistoryOrder.TrimKeepsNewest | file_tab_opener/config.py:261-264 | every unpinned entry kept is at least as recent as every one dropped |
| GroupNames.BaseName | file_tab_opener/config.py:337-339 | when `^(.*?)\s+(\d+)$` matches, the name is the base, then a non-empty run of whitespace, then a non-empty run of digits, then at most a final newline; the base holds no newline and does not end in whitespace, since `.*?` is the shortest; otherwise the base is the name |
| GroupNames.BaseOfCopyName | file_tab_opener/config.py:337-344 | the base of a copy name `base k` is `base`, when the base has no newline and no trailing blank |
| GroupNames.BaseNameExample | file_tab_opener/config.py:329-331 | `テスト 3` has base `テスト` |
| GroupNames.BaseNameLastNumber | file_tab_opener/config.py:338 | only the last number is removed |
| GroupNames.BaseNameUnnumbered | file_tab_opener/config.py:338-339 | a name with no number suffix is its own base |
| GroupNames.BaseNameWideGap | file_tab_opener/config.py:338 | several blanks before the number all go; a newline before them defeats the match |
| GroupNames.CopyNameInjective | file_tab_opener/config.py:344 | different numbers give different copy names |
| GroupNames.NextFreeSuffix | file_tab_opener/config.py:340-343 | the loop stops, at the least number from 1 whose copy name is not taken |
| ConfigJson.ToDict | file_tab_opener/config.py:132-158 | what `_to_dict` writes reads back as the configuration with its settings merged over the defaults |
| ConfigJson.FromDict | file_tab_opener/config.py:161-191 | a successful read has one entry per history item and one group per group item, and its settings hold every default key |
| ConfigJson.RoundTripExact | file_tab_opener/config.py:132-191 | when the settings hold every default key the round trip is exact |
| ConfigJson.EmptyObjectIsDefault | file_tab_opener/config.py:161-191 | an empty dictionary reads as the default configuration |
| ConfigJson.EntryDefaults | file_tab_opener/config.py:164-170 | a history item with only a path takes the defaults for the other fields |
| ConfigJson.FoldersAlias | file_tab_opener/config.py:174-175 | `folders` stands in for a missing `paths`, and `paths` wins when both are present |
| ConfigJson.PathsStringSplits | file_tab_opener/config.py:175-178 | a string where the paths belong becomes one path per character, as `list(paths)` makes it |
| ConfigJson.SettingsMerge | file_tab_opener/config.py:190 | saved settings override the defaults key by key, and a missing default is filled in |
| ConfigJson.ReadWriteRead | file_tab_opener/config.py:132-191 | writing what was read and reading it again gives the same configuration |
| ConfigJson.StringsRoundTrip | file_tab_opener/config.py:148 | a path list survives being written and read back |
| ConfigJson.EntriesRoundTrip | file_tab_opener/config.py:136-144 | the history list survives being written and read back |
| ConfigJson.GroupsRoundTrip | file_tab_opener/config.py:145-155 | the group list survives being written and read back |
| Validate.ValidatePaths | file_tab_opener/__init__.py:16-26 | the loop returns the expansions of the directory paths and the rejected inputs as written, both in input order |
| Validate.SplitSizes | file_tab_opener/__init__.py:20-25 | every input lands in exactly one of the two lists |
| Validate.InvalidMembers | file_tab_opener/__init__.py:24-25 | a path is reported invalid exactly when its expansion is not a directory, unexpanded |
| Validate.ValidMembers | file_tab_opener/__init__.py:21-23 | the valid list holds exactly the expansions of the directory inputs |
| Validate.SplitConcat | file_tab_opener/__init__.py:20-25 | validation goes path by path: order is kept and repeats are not merged |
| Validate.AllValid | file_tab_opener/__init__.py:16-26 | when every path is a directory, the result is the expanded input and nothing is invalid; the empty input gives two empty lists |
| OpenerMac.Esc | file_tab_opener/opener_mac.py:28-30 | a path without backslashes or double quotes is unchanged; together with EscIsEscEach, every backslash and every double quote gets a backslash before it and nothing else changes |
| OpenerMac.EscIsEscEach | file_tab_opener/opener_mac.py:28-30 | the two whole-string replacements, backslashes first, escape each character exactly once |
| OpenerMac.EscRoundTrip | file_tab_opener/opener_mac.py:28-30 | decoding the escaped text as an AppleScript string literal gives the path back exactly |
| OpenerMac.EscInjective | file_tab_opener/opener_mac.py:28-30 | different paths escape to different literals |
| OpenerMac.EscBackslashExample | file_tab_opener/opener_mac.py:30 | a backslash is doubled |
| OpenerMac.EscQuoteExample | file_tab_opener/opener_mac.py:30 | a double quote gets a backslash before it |
| OpenerMac.EscNewlineExample | file_tab_opener/opener_mac.py:30 | a line break is kept as it is |
| OpenerMac.HeaderLines | file_tab_opener/opener_mac.py:138-144 | the first Finder block: tell, activate, make the window for the first path, the bounds when a rectangle is given, end tell |
| OpenerMac.TabBlock | file_tab_opener/opener_mac.py:147-167 | one tab block: the System Events keystroke, then the `set target` retry loop for that path |
| OpenerMac.TabBlocks | file_tab_opener/opener_mac.py:147-167 | the tab blocks of the further paths, one after the other |
| OpenerMac.BuildAppleScript | file_tab_opener/opener_mac.py:125-169 | the loop builds exactly the lines of the header followed by the tab blocks, joined with line breaks |
| OpenerMac.SinglePathScript | file_tab_opener/opener_mac.py:33-48 | the one-window script is the tab script of that single path |
| OpenerMac.OpenWindowScriptText | file_tab_opener/opener_mac.py:39-47 | the one-window script's text as concatenated, each line but the last ending in a line break |
| OpenerMac.ScriptLayout | file_tab_opener/opener_mac.py:146-167 | block `i` follows the header and the blocks before it, and holds the `set target` of path `i + 1` |
| OpenerMac.ScriptCounts | file_tab_opener/opener_mac.py:146-167 | `n` paths give exactly `n - 1` System Events tells, keystrokes and retry loops; one path gives none |
| OpenerMac.SystemEventsTextCount | file_tab_opener/opener_mac.py:150 | the script text of `n` paths has exactly `n - 1` lines reading `tell application "System Events"` |
| OpenerMac.BoundsPlacement | file_tab_opener/opener_mac.py:141-143 | the bounds appear exactly when a rectangle is given, once, in the first Finder block |
| OpenerMac.BoundsExample | file_tab_opener/opener_mac.py:143 | `(100, 200, 800, 600)` becomes `{100, 200, 900, 800}` |
| OpenerMac.RepeatRetryText | file_tab_opener/opener_mac.py:156 | the retry line reads `repeat 30 times` |
| OpenerMac.RunAppleScript | file_tab_opener/opener_mac.py:172-185 | success is exit code 0 with the stripped error text; a timeout and a missing `osascript` are failures with fixed messages; other exceptions pass through |
| OpenerMac.ErrorMessageCases | file_tab_opener/opener_mac.py:109-114 | a message containing a permission keyword in any case is reported by its translation key, anything else after `AppleScript error: ` |
| OpenerMac.AccessibilityUpperExample | file_tab_opener/opener_mac.py:110 | the keyword is matched after lower-casing the message |
| OpenerMac.NoAccessibilityExample | file_tab_opener/opener_mac.py:110 | a message with no keyword is not a permission error |
| OpenerMac.Expanded | file_tab_opener/opener_mac.py:95 | every path is expanded, in order, without de-duplication |
| OpenerMac.OpenSeparate | file_tab_opener/opener_mac.py:188-207 | the loop produces the events of `SeparateEvents` and returns true |
| OpenerMac.SeparateProgress | file_tab_opener/opener_mac.py:195-201 | progress `(i, n, p)` is reported exactly for a path whose window was launched |
| OpenerMac.SeparateErrors | file_tab_opener/opener_mac.py:203-206 | an error is reported exactly for a path whose launch raised, with the exception text |
| OpenerMac.SeparateLaunches | file_tab_opener/opener_mac.py:197-198 | a window script is launched exactly for each path whose launch did not raise |
| OpenerMac.OpenFoldersAsTabs | file_tab_opener/opener_mac.py:76-122 | the call returns and reports what `TabsTrace` specifies |
| OpenerMac.TabsTrace | file_tab_opener/opener_mac.py:76-122 | the result is true exactly when there are paths; no paths means no events, and otherwise the tab script of the expanded paths runs first |
| OpenerMac.TabsSuccess | file_tab_opener/opener_mac.py:100-106 | on success the result is true, progress `(i, n, expanded[i - 1])` comes for every path in order, and no separate window opens |
| OpenerMac.TabsFailure | file_tab_opener/opener_mac.py:107-122 | on failure or exception exactly one error naming the first path is reported, then every path gets its own window and the result is true |
| WinInput.MakeKeyInput | file_tab_opener/opener_win.py:65-71 | a keyboard record with the virtual key, no scan code, and the key-up flag exactly for a release |
| WinInput.KeyCombo | file_tab_opener/opener_win.py:90-97 | modifier down, key down, key up, modifier up |
| WinInput.PressKey | file_tab_opener/opener_win.py:109-117 | key down, then key up |
| WinInput.Utf16RoundTrip | file_tab_opener/opener_win.py:100-106 | decoding the UTF-16 form of a text gives the text back |
| WinInput.TypeString | file_tab_opener/opener_win.py:100-106 | the corrected typing loop sends `TypedInputs` of the text |
| WinInput.TypedInputsShape | file_tab_opener/opener_win.py:100-106 | two events per code unit, pressed then released in order; `2 * len(text)` events for text without characters above U+FFFF |
| WinInput.TypedInputsSpellText | file_tab_opener/opener_win.py:100-106 | the units pressed spell the text when decoded as UTF-16 |
| WinInput.AsWrittenAgreesOnBmp | file_tab_opener/opener_win.py:74-81 | the code as written agrees with the corrected one on text without characters above U+FFFF |
| WinInput.MakeUnicodeInputAsWritten | file_tab_opener/opener_win.py:74-81 | a Unicode key event with no virtual key, the key-up flag exactly for a release, and the character as its scan code only when it is at most U+FFFF; above that the stored unit differs from the character |
| WinInput.AsWrittenTruncatesAstral | file_tab_opener/opener_win.py:74-81 | as written, U+1F4C1 is typed as the single unit U+F4C1, which does not decode to the character |
| OpenerWin.ExplorerHandles | file_tab_opener/opener_win.py:119-132 | at most one handle per window; membership, order and the first handle are the three lemmas below |
| OpenerWin.ExplorerHandlesConcat | file_tab_opener/opener_win.py:119-132 | listing distributes over concatenation of the window list, so the handles come in enumeration order |
| OpenerWin.ExplorerHandlesFirst | file_tab_opener/opener_win.py:186-191 | the first handle listed is that of the first window of class `CabinetWClass`, the window `hwnds[0]` picks |
| OpenerWin.ExplorerHandlesMembers | file_tab_opener/opener_win.py:124-129 | a handle is listed exactly when some window of class `CabinetWClass` has it |
| OpenerWin.EnumExplorerHwnds | file_tab_opener/opener_win.py:119-132 | the callback loop collects `ExplorerHandles` |
| OpenerWin.FirstOutside | file_tab_opener/opener_win.py:143-145 | the first handle not seen before, or none exactly when all were |
| OpenerWin.FirstNewSpec | file_tab_opener/opener_win.py:135-149 | a found handle is an Explorer window of some poll that was not there before; none is found exactly when every Explorer window of every poll was |
| OpenerWin.FindNewExplorerHwnd | file_tab_opener/opener_win.py:135-149 | the polling loop returns `FirstNew` |
| OpenerWin.RectOf | file_tab_opener/opener_win.py:196-197 | `(left, top, right - left, bottom - top)` |
| OpenerWin.RectRoundTrip | file_tab_opener/opener_win.py:196-197 | the conversion loses nothing in either direction |
| OpenerWin.FrontmostExplorerRect | file_tab_opener/opener_win.py:172-201 | the foreground window's rectangle when it is an Explorer window, else the first Explorer window's; none when `GetWindowRect` fails |
| OpenerWin.NoExplorerNoRect | file_tab_opener/opener_win.py:172-201 | without an Explorer window there is no rectangle |
| OpenerWin.AttemptsSpec | file_tab_opener/opener_win.py:371-415 | one to three attempts; every attempt before the last failed to verify, and the last one stopped the loop unless it was the third |
| OpenerWin.RetrySetPath | file_tab_opener/opener_win.py:371-418 | the retry loop sends Ctrl+L and the text for each attempt, and reports whether a read-back ended it |
| OpenerWin.UiaActionsShape | file_tab_opener/opener_win.py:366-422 | a tab gets Ctrl+T first, one Ctrl+L per attempt (one to three), and Enter exactly once, last |
| OpenerWin.CtypesTabInputs | file_tab_opener/opener_win.py:475-485 | Ctrl+T, Ctrl+L, the normalized path typed as its UTF-16 code units (the corrected `_type_string`, see Findings), Enter |
| OpenerWin.UiaTrace | file_tab_opener/opener_win.py:306-438 | the pywinauto tier: launch, find the window or raise, report the first path, return for one path, else attach, add the tabs and move the window |
| OpenerWin.CtypesTrace | file_tab_opener/opener_win.py:441-497 | the `SendInput` tier, typing with the corrected `_type_string`: launch, report the first path, return for one path, else find the window or raise, add the tabs and move the window |
| OpenerWin.AddTab | file_tab_opener/opener_win.py:361-433 | one pass of the tab loop produces `TabStep`: the tab and progress, or the error |
| OpenerWin.TabLoop | file_tab_opener/opener_win.py:472-492 | the tab loop produces `TabLoopEvents` over the further paths |
| OpenerWin.OpenTabsUia | file_tab_opener/opener_win.py:306-438 | the method returns `UiaTrace` |
| OpenerWin.OpenTabsCtypes | file_tab_opener/opener_win.py:441-497 | the method returns `CtypesTrace` |
| OpenerWin.OpenWindow | file_tab_opener/opener_win.py:507-520 | one pass of the separate tier produces `SeparateStep` |
| OpenerWin.OpenTabsSeparate | file_tab_opener/opener_win.py:500-521 | the separate tier produces `SeparateEvents` and returns true |
| OpenerWin.SeparateMove | file_tab_opener/opener_win.py:509-514 | every event it adds is a window move |
| OpenerWin.SeparateMoveSpec | file_tab_opener/opener_win.py:509-514 | at most one move, made exactly when a rectangle is given and a truthy new Explorer window is found; it moves that window, which was not there before the launch |
| OpenerWin.OpenFoldersAsTabs | file_tab_opener/opener_win.py:256-294 | the call returns and reports what `TabsTrace` specifies |
| OpenerWin.TabsTrace | file_tab_opener/opener_win.py:256-294 | no paths: false and nothing happens; any paths: true, whichever tier ends the call |
| OpenerWin.TabLoopProgress | file_tab_opener/opener_win.py:427-428 | progress `(i, n, ps[i - 1])` is reported exactly for a later path whose tab was added |
| OpenerWin.TabLoopErrors | file_tab_opener/opener_win.py:430-433 | an error is reported exactly for a later path whose tab addition raised, with its text; the loop goes on |
| OpenerWin.TierShape | file_tab_opener/opener_win.py:329-343 | a tab tier that returns launched and reported the first path, and with more paths found and filled the window |
| OpenerWin.TierProgress | file_tab_opener/opener_win.py:339-428 | a returning tab tier reports `(1, n, ps[0])` first and `(i, n, ps[i - 1])` for each added tab, nothing else |
| OpenerWin.TierErrors | file_tab_opener/opener_win.py:430-433 | a returning tab tier reports an error exactly for a tab addition that raised |
| OpenerWin.TierSinglePath | file_tab_opener/opener_win.py:342-343 | with one path a returning tab tier launched and reported it and did nothing more |
| OpenerWin.TierLaunchFails | file_tab_opener/opener_win.py:329-330 | a tab tier that cannot launch the first path raises before anything else |
| OpenerWin.TierWindowMissing | file_tab_opener/opener_win.py:336-337 | pywinauto raises when the new window does not show up; `SendInput` does too when there is a second path |
| OpenerWin.SeparateProgress | file_tab_opener/opener_win.py:515-516 | the separate tier reports `(i, n, p)` exactly when path `p` was launched |
| OpenerWin.SeparateErrors | file_tab_opener/opener_win.py:518-520 | the separate tier reports an error exactly for a path whose launch raised |
| OpenerWin.SeparateLaunches | file_tab_opener/opener_win.py:510 | `explorer.exe` is launched exactly for the normalized paths whose launch did not raise |
| OpenerWin.NoUiaWithoutPywinauto | file_tab_opener/opener_win.py:278-290 | without pywinauto no address-bar text is set through UI Automation |
| OpenerWin.TabsTierOrder | file_tab_opener/opener_win.py:278-290 | a tier that returns ends the call; when pywinauto raises or is missing, the `SendInput` tier runs after what the first tier did |
| OpenerWin.TabsFallBackToWindows | file_tab_opener/opener_win.py:271-294 | when both tab tiers raise, every de-duplicated path gets its own window, with progress exactly when launched |
| Seqs.Dedup | file_tab_opener/opener_win.py:271 | the distinct elements, no repeats, the same element set |
| Seqs.DedupOrder | file_tab_opener/opener_win.py:271 | elements keep the order of their first occurrence |
| Seqs.DedupOfNoDup | file_tab_opener/opener_win.py:271 | a list without repeats is unchanged |
| Seqs.MoveItem | file_tab_opener/config.py:320-322 | pop then insert: same length and elements, the moved one at its new index |
| Seqs.MoveItemBack | file_tab_opener/config.py:320-322 | a move and the move back are inverse |
| Seqs.MoveItemAdjacent | file_tab_opener/tab_group.py:351 | a move by one place swaps neighbours and leaves every other position alone |
| Seqs.MoveItemNoDup | file_tab_opener/widgets.py:266-268 | moving keeps the elements distinct |
| Seqs.RemoveAt | file_tab_opener/config.py:313-314 | `pop(i)` removes exactly the `i`-th element |
| Seqs.Filter | file_tab_opener/config.py:283 | the elements kept are exactly those that pass, and none occurs more often than in the input |
| Seqs.FilterCount | file_tab_opener/config.py:283 | each passing element is kept exactly as often as it occurs, and no other element is |
| Seqs.FilterConcat | file_tab_opener/config.py:283 | filtering distributes over concatenation, so the kept elements stay in input order |
| Widgets.Rebuilt | file_tab_opener/widgets.py:311-317 | with names, a missing, empty or unknown current tab becomes the first name; otherwise nothing changes |
| Widgets.AddSpec | file_tab_opener/widgets.py:212-217 | an existing name changes nothing; a new one is appended and becomes current when first; the names stay distinct |
| Widgets.DeleteSpec | file_tab_opener/widgets.py:219-236 | the name goes and the rest keep their order; a deleted current tab passes to `names[min(idx, len - 1)]`, or to none when it was alone |
| Widgets.RenameSpec | file_tab_opener/widgets.py:238-246 | a missing old name or a taken new name changes nothing; otherwise the name is replaced in place and the current tab follows |
| Widgets.SetCurrentSpec | file_tab_opener/widgets.py:252-256 | an unknown name is ignored; a known one becomes current |
| Widgets.MoveSpec | file_tab_opener/widgets.py:264-269 | a move in range permutes the names, puts the moved one at its new index and keeps the current tab; out of range nothing changes |
| Widgets.TabView.constructor | file_tab_opener/widgets.py:160-162 | a tab bar starts with no names and no current tab |
| Widgets.TabView.Rebuild | file_tab_opener/widgets.py:306-326 | the state becomes `Rebuilt` of the old one |
| Widgets.TabView.AddTab | file_tab_opener/widgets.py:212-217 | the state becomes `AfterAdd` of the old one |
| Widgets.TabView.DeleteTab | file_tab_opener/widgets.py:219-236 | the state becomes `AfterDelete` of the old one |
| Widgets.TabView.RenameTab | file_tab_opener/widgets.py:238-246 | the state becomes `AfterRename` of the old one |
| Widgets.TabView.SetCurrentTab | file_tab_opener/widgets.py:252-262 | the state becomes `AfterSetCurrent` of the old one |
| Widgets.TabView.MoveTab | file_tab_opener/widgets.py:264-269 | the state becomes `AfterMove` of the old one |
| Widgets.TabView.CurrentTabName | file_tab_opener/widgets.py:248-250 | returns the current tab |
| Widgets.TabView.TabNames | file_tab_opener/widgets.py:271-273 | returns the names |
| Widgets.Available | file_tab_opener/widgets.py:446-448 | the canvas width, or 10000 when it is at most 1 |
| Widgets.Rows | file_tab_opener/widgets.py:456-471 | the rows hold every button once, in order, and there are no rows exactly when there are no buttons |
| Widgets.RowsSpec | file_tab_opener/widgets.py:456-471 | the rows are non-empty, hold the names in order, fit unless a row is a lone button, and break only where the next button would not fit |
| Widgets.SplitRows | file_tab_opener/widgets.py:456-471 | the greedy loop builds the rows of `Rows` |
| Widgets.ScrollHeight | file_tab_opener/widgets.py:501-506 | the height is `max(min(rows, 3), 1) * 34` |
| Widgets.ScrollHeightRange | file_tab_opener/widgets.py:501-506 | between 34 and 102 pixels, growing with the rows up to three |
| Widgets.DecodeDy | file_tab_opener/widgets.py:428-431 | a signed 16-bit number congruent to the raw delta modulo 65536 |
| Widgets.DecodePacked | file_tab_opener/widgets.py:421-431 | every signed 16-bit Δy is recovered from the packed delta, whatever Δx is |
| Widgets.DisplayWidth | file_tab_opener/widgets.py:100-106 | the width lies between `len(text)` and `2 * len(text)` |
| Widgets.TextDisplayWidth | file_tab_opener/widgets.py:100-106 | the accumulating loop returns `DisplayWidth` |
| Widgets.DisplayWidthConcat | file_tab_opener/widgets.py:100-106 | the width of a concatenation is the sum of the widths |
| TabGroupSection.ParseIntOrNone | file_tab_opener/tab_group.py:560-565 | the text is parsed as Python's `int` parses it after stripping, or gives none |
| TabGroupSection.ParseIntOrNoneRoundTrip | file_tab_opener/tab_group.py:560-565 | `str(i)` reads back as `i`, and the empty text as none |
| TabGroupSection.ClampMin | file_tab_opener/tab_group.py:568-572 | none stays none; a value becomes `max(value, minimum)` |
| TabGroupSection.ClampMinIdempotent | file_tab_opener/tab_group.py:568-572 | clamping twice is clamping once |
| TabGroupSection.UpdatedEntryReadsBack | file_tab_opener/tab_group.py:575-582 | the updated entry reads back as the value, and an entry that already says so keeps its text |
| TabGroupSection.SavedGeometry | file_tab_opener/tab_group.py:546-553 | x and y as parsed; width at least 528 and height at least 308 when present; name and paths unchanged |
| TabGroupSection.SaveGeometryStable | file_tab_opener/tab_group.py:536-556 | saving again what a save left on screen changes nothing |
| TabGroupSection.SaveOutcomeSpec | file_tab_opener/tab_group.py:536-556 | a save changes only the first group of the current tab's name, and leaves width and height entries that read back as what it stored |
| TabGroupSection.WindowRect | file_tab_opener/tab_group.py:592-595 | a rectangle exactly when all four fields are set |
| TabGroupSection.SavedRect | file_tab_opener/tab_group.py:584-595 | after the save there is a rectangle exactly when all four entries parse, and then its size is at least 528 by 308 |
| TabGroupSection.FindGroupAfterUpdate | file_tab_opener/tab_group.py:543-553 | replacing the first group of a name by one of that name keeps it first |
| TabGroupSection.Step | file_tab_opener/tab_group.py:597-619 | a press while open is ignored; a ready press raises the flag and calls once; a reset lowers the flag |
| TabGroupSection.AtMostOneOpenBetweenResets | file_tab_opener/tab_group.py:597-619 | between two resets the callback is called at most once, and not at all while a run is going |
| TabGroupSection.PathsToOpen | file_tab_opener/tab_group.py:602-612 | none without a current tab, a group of its name, or paths; otherwise that group's paths |
| TabGroupSection.OpenSpec | file_tab_opener/tab_group.py:597-615 | ignored while open; a missing tab or paths only adds a message; otherwise the flag rises and one request carries the paths and the saved rectangle |
| TabGroupSection.Section.constructor | file_tab_opener/tab_group.py:57-60 | the section starts with no current tab, the flag down, and no messages or requests |
| TabGroupSection.Section.SaveGeometry | file_tab_opener/tab_group.py:536-557 | the groups and entries become those of `SaveOutcome` |
| TabGroupSection.Section.GetWindowRect | file_tab_opener/tab_group.py:584-595 | the groups are saved, and the result is the current group's rectangle when all four fields are set |
| TabGroupSection.Section.OnOpenAsTabs | file_tab_opener/tab_group.py:597-615 | the state becomes `AfterOpen` of the old one |
| TabGroupSection.Section.ResetOpening | file_tab_opener/tab_group.py:617-619 | the flag goes down and nothing else changes |
| TabGroupSection.Section.MoveTabLeft | file_tab_opener/tab_group.py:342-353 | the tab bar and the groups make the same left move of the current tab |
| TabGroupSection.Section.MoveTabRight | file_tab_opener/tab_group.py:355-366 | the tab bar and the groups make the same right move of the current tab |
| TabGroupSection.LeftMove | file_tab_opener/tab_group.py:344-351 | no move without a current tab or for the first tab; otherwise from its index one place left |
| TabGroupSection.RightMove | file_tab_opener/tab_group.py:357-364 | no move without a current tab or for the last tab; otherwise from its index one place right |
| TabGroupSection.MoveLeftSpec | file_tab_opener/tab_group.py:342-353 | the tab bar stays valid and the tab stays current; nothing happens exactly at the boundary; otherwise it swaps with its left neighbour, and moving right again restores the bar |
| TabGroupSection.MoveRightSpec | file_tab_opener/tab_group.py:355-366 | the mirror image of the left move |
| TabGroupSection.MovedGroupsBack | file_tab_opener/config.py:317-322 | moving a group there and back restores the configuration |
| HistorySection.DisplayValue | file_tab_opener/history.py:227-234 | a pinned entry shows `📌 ` before its path, an unpinned one three spaces |
| HistorySection.RemoveDisplayPrefix | file_tab_opener/history.py:218-222 | the result is the value without at most one marker at its front |
| HistorySection.DisplayRoundTrip | file_tab_opener/history.py:218-234 | removing the marker of any dropdown line gives back exactly its entry's path |
| HistorySection.SelectedPath | file_tab_opener/history.py:236-245 | empty while the placeholder is shown; always without surrounding whitespace |
| PyStr.Strip | file_tab_opener/history.py:240-243 | `str.strip()`: the text with the whitespace at both ends removed, and no whitespace left at either end |
| PyStr.ParseInt | file_tab_opener/tab_group.py:562 | after stripping, `int()` accepts exactly an optional sign followed by digits, where single underscores may separate two digits; the value is that of the digits, negated by a leading `-`, and only a leading `-` gives a negative value |
| HistorySection.SelectedTextNeverUnpinned | file_tab_opener/history.py:240-243 | stripped text never starts with the all-space marker |
| HistorySection.SelectThenRead | file_tab_opener/history.py:210-245 | choosing a line and reading the field gives the entry's path, for a stripped path not starting with the pin marker |
| HistorySection.TypedPinnedLineReads | file_tab_opener/history.py:236-245 | a pinned line typed into the field reads as its path |
| HistorySection.MarkerInsidePathIsLost | file_tab_opener/history.py:236-245 | a path that itself starts with the pin marker loses it when read back |
| HistorySection.PinnedHistoryAsWritten | file_tab_opener/history.py:268-284 | the Pin button as written, looking up and toggling the text with its quotes kept, makes the history at most one entry longer |
| HistorySection.PinnedHistory | file_tab_opener/history.py:268-284 | the corrected Pin button, looking up and toggling the quote-stripped form `add_history` stores, makes the history at most one entry longer |
| HistorySection.Section.DropdownValues | file_tab_opener/history.py:227-234 | one line per sorted history entry, in order, each giving back its entry's path |
| HistorySection.Section.OnDropdownSelect | file_tab_opener/history.py:210-225 | no selection changes nothing; otherwise the field holds the chosen line without its marker |
| HistorySection.Section.GetSelectedPath | file_tab_opener/history.py:236-245 | returns `SelectedPath` of the field |
| HistorySection.AnyEntryMatches | file_tab_opener/history.py:274-278 | the search loop finds a match exactly when `FindEntry` does |
| HistorySection.Section.OnPin | file_tab_opener/history.py:268-284 | the history becomes `PinnedHistory` of the old one for the selected path: the corrected handler, which strips quotes from the key before the lookup and the toggle (see Findings) |
| HistorySection.PinTogglesEntry | file_tab_opener/history.py:268-284 | an empty selection changes nothing; a known path has its entry's pin flipped; a new path is appended pinned, used once |
| HistorySection.PinAgreesWithoutQuotes | file_tab_opener/history.py:268-284 | without quotes or surrounding spaces the handler as written and the corrected one agree |
| HistorySection.QuotedPinAsWritten | file_tab_opener/history.py:274-283 | as written, pinning `"/a"` typed into an empty history adds `/a` unpinned; corrected, it is pinned |
| I18n.ChosenLanguage | file_tab_opener/i18n.py:200-208 | a supported language is taken; anything else becomes English |
| I18n.EntryText | file_tab_opener/i18n.py:228 | the text for the language unless it is missing or empty, else the English text |
| I18n.Format | file_tab_opener/i18n.py:229-233 | a `KeyError` names a keyword field that was not given |
| I18n.FormatPlain | file_tab_opener/i18n.py:229-233 | text without braces formats to itself |
| I18n.FormatOneField | file_tab_opener/i18n.py:229-233 | one field is substituted when its keyword is given, and is a `KeyError` when not |
| I18n.TableComplete | file_tab_opener/i18n.py:30-182 | every key has a non-empty English and Japanese text |
| I18n.Translate | file_tab_opener/i18n.py:216-234 | a key missing from the table is its own text; without keywords a key gets its Japanese text when the language is Japanese and its English text for any other language |
| I18n.TranslateFormatted | file_tab_opener/i18n.py:229-233 | with keywords, the text is formatted when formatting succeeds |
| I18n.TranslateUnformatted | file_tab_opener/i18n.py:229-233 | when a keyword is missing, the template comes back unformatted |
| I18n.TranslateInvalidPath | file_tab_opener/i18n.py:66-69 | the invalid-path message gets its `{path}` filled in |
| I18n.TranslateInvalidPathMissing | file_tab_opener/i18n.py:66-69 | with no `path` keyword the template comes back as it is |
| I18n.TranslateAccessibilityKey | file_tab_opener/i18n.py:223-226 | `error.accessibility_required` is not in the table and translates to itself |
| I18n.DetectSystemLanguage | file_tab_opener/i18n.py:188-197 | Japanese exactly when the lower-cased locale code starts with `ja`; English otherwise, also when the lookup fails |
| I18n.DetectExamples | file_tab_opener/i18n.py:188-197 | `ja_JP` gives Japanese; `en_US`, no code and a failed lookup give English |
| I18n.Translator.constructor | file_tab_opener/i18n.py:185 | the current language starts as English |
| I18n.Translator.SetLanguage | file_tab_opener/i18n.py:200-208 | the current language becomes `ChosenLanguage` of the argument |
| I18n.Translator.GetLanguage | file_tab_opener/i18n.py:211-213 | returns the current language |
| I18n.Translator.Init | file_tab_opener/i18n.py:237-240 | the current language becomes the detected one |

## Left out

- File I/O: `get_config_path`, `ConfigManager.load` and `ConfigManager.save` (the JSON text, atomic rename and fallback write). Only the dictionary conversion `_to_dict`/`_from_dict` is modelled, over a JSON value type without floating-point numbers.
- ConfigJson.FromDict: returns nothing where Python would store a value of the wrong JSON type unchanged (`"pinned": "yes"`, `"use_count": "3"`), where `list(paths)` would take the keys of an object, and where Python raises. For example, a history or group item that is not an object raises `AttributeError`, which `load` does not catch. A `settings` value or a paths value that cannot be merged or listed raises `TypeError`, which `load` answers with the default configuration. The model's records are typed, so it cannot hold such values. A string in place of the paths is modelled: it is split into characters.
- Every call to `config.save()` inside the section handlers is left out. So are logging, `time.sleep` and the polling deadlines. Polling is a finite list of oracle readings.
- The operating system and pywinauto are oracles. This covers `subprocess.Popen`/`run`, `SendInput`, `EnumWindows`, `GetClassNameW`, `GetWindowRect`, `MoveWindow`, `SetForegroundWindow` and the UI Automation calls; moving and focusing a window are recorded as events. An exception inside one tab addition is one oracle answer, so keys sent before it are not recorded. `_check_pywinauto` is a boolean parameter.
- `_wait_for_navigation`, the float timeouts and `MainWindow` are left out. They are timing, threads and Tk.
- `open_single_folder` (both platforms) is left out. It is one fire-and-forget launch and is not part of the tab logic.
- All Tk and customtkinter drawing is left out: widget factories, canvas scrolling, `scroll_to_current`, button highlighting, `_estimate_btn_width`. Button widths are inputs of the row split.
- Message boxes are recorded as notices in the tab-group section.
- `_setup_placeholder` and its focus events are left out. The placeholder state is a field of the history section.
- The tab-group section's `_load_tabs_from_config` (creating `Tab 1` for an empty configuration and filling the tab bar) and `_build_widgets` are left out. The model's section starts with an empty tab state; `Widgets.TabView.AddTab` and `Config.ConfigManager.AddTabGroup` model the calls those functions make.
- The history section's `_on_open` and `_on_clear`, and the tab-group section's handlers beyond `_save_geometry`, `_get_window_rect`, the open guard and the tab moves, are not part of this model. `_on_open` also depends on `is_unc_path`, which the package does not define.
- HistorySection.Section.OnPin: follows the corrected handler `PinnedHistory`, not the code as written. The code as written is `PinnedHistoryAsWritten`; the two agree on text without quotes or surrounding spaces (`PinAgreesWithoutQuotes`) and differ on quoted text (`QuotedPinAsWritten`).
- OpenerWin.CtypesTabInputs: types the path with the corrected `TypedInputs` (UTF-16 code units), not the truncating `TypedInputsAsWritten` of the code. `CtypesTabInput`, `CtypesTrace`, `OpenTabsCtypes`, `TabsTrace` and `OpenerWin.OpenFoldersAsTabs` therefore describe the corrected `SendInput` tier. The two agree on paths without characters above U+FFFF (`AsWrittenAgreesOnBmp`).
- ExplorerHandles: its own ensures only bounds the length. That the list holds exactly the `CabinetWClass` handles, in enumeration order, and that its first handle is the first such window's is stated by the lemmas `OpenerWin.ExplorerHandlesMembers`, `OpenerWin.ExplorerHandlesConcat` and `OpenerWin.ExplorerHandlesFirst`. Every trace of the Windows opener calls this function, and as ensures these facts make those trace proofs too expensive.
- SeparateMove: its own ensures says only that every event is a move. When a move happens, and which window it moves, is stated by the lemma `OpenerWin.SeparateMoveSpec`, for the same reason as for `ExplorerHandles`: the separate-window trace lemmas unfold this function.
- Filter: the ensures of `Seqs.Filter` gives membership, that each kept element passes, and a sub-multiset bound. Exact multiplicities are stated by `Seqs.FilterCount` and the order by `Seqs.FilterConcat`, because these facts as ensures make the other filter lemmas too expensive to check.
- Os: in the Windows opener, the oracles that answer launches, polls and tab additions are keyed by tier and normalized path. Two inputs that differ as raw text but normalize to the same path, such as `C:/a` and `C:\a`, both survive `dict.fromkeys` and are launched one after the other. The model gives both the same answers, while the real system may answer differently. No lemma depends on the answers differing.
- `str.lower()` is modelled by ASCII lower-casing (`PyStr.AsciiLower`) in `OpenerMac.MentionsAccessibility` and `I18n.DetectSystemLanguage`. For the ASCII permission keywords and the `ja` prefix the results are the same.
- An exception raised by the `on_progress` or `on_error` callbacks is not modelled. Inside the try blocks of the macOS `open_folders_as_tabs` and the Windows per-tab loop, such an exception would be caught and reported as a failure; the model's callbacks are flags that only record events.
- Python's Unicode-aware `\s`, `\d` and `int()` parsing are modelled on ASCII digits. Whitespace is Python's `str.isspace` set.
- `I18n.Format` models only templates of literal text, doubled braces and keyword fields. Any other `str.format` syntax is `Unsupported` and leaves the text as it is, whereas Python would raise. No template in the table uses such syntax.
- The entry-level English fallback `entry.get("en", key)` cannot be reached, because every table entry has both languages. The model stores the two texts as a record.
- TabGroupSection.Section.MoveTabLeft: requires the tab bar's invariant `Widgets.Valid` (distinct names, a current tab exactly when there are names). Every tab bar operation keeps that invariant. The handler would raise `ValueError` on a current name missing from the bar, which the invariant rules out.
- TabGroupSection.Section.MoveTabRight: requires `Widgets.Valid`, as for `MoveTabLeft`.
- TabGroupSection.Section.SaveGeometry: states its new state through the value function `SaveOutcome`. The group is replaced in the configuration's list rather than updated through a shared reference, so aliasing between a returned `TabGroup` and the list is not modelled. The same holds for `Config.ConfigManager.GetTabGroup`.
- HistorySection.PinTogglesEntry: assumes `normpath` is idempotent, as `os.path.normpath` is. It states the appended pinned entry only when the history has room, because at `HISTORY_MAX` entries the trim may drop the new entry, depending on the opaque timestamps.
- HistorySection.SelectThenRead: states the round trip only for paths without surrounding whitespace that do not begin with the pin marker. `MarkerInsidePathIsLost` shows that the second condition is needed.

## Findings

| source | as written | input that shows it | evidently intended | confidence | as-written member | corrected member |
|---|---|---|---|---|---|---|
| file_tab_opener/opener_win.py:74-81 | `_make_unicode_input` stores `ord(char)` into the 16-bit `wScan` field, so a character above U+FFFF loses its high bits, and `_type_string` sends one event pair per Python character | typing a path containing `📁` (U+1F4C1) sends the unit U+F4C1, a different character | each character is sent as its UTF-16 code units, a surrogate pair for characters above U+FFFF | not executed | WinInput.AsWrittenTruncatesAstral | WinInput.TypedInputsSpellText |
| file_tab_opener/history.py:268-284 | `_on_pin` looks up and toggles `normpath(expanduser(text))` without stripping quotes, while `add_history` stores the quote-stripped form | the text `"/a"`, quotes included, in an empty history: `/a` is added but stays unpinned, and every later press only touches it again | the key used for the lookup and the toggle is the form `add_history` stores, with quotes stripped as the Open button does | not executed | HistorySection.QuotedPinAsWritten | HistorySection.PinTogglesEntry |
