/**
 * The macOS opener: escaping for AppleScript string literals, the Finder
 * scripts that open one window or one window with tabs, and the two-tier
 * control flow of opening folders (tabs driven through System Events,
 * else one window per folder).
 *
 * Running `osascript` is an oracle: `run` says how `subprocess.run` ended
 * for a script, `launch` whether `subprocess.Popen` raised for one. Both
 * are keyed by the script's lines, whose text is `ScriptText`. What the
 * callbacks receive, and which scripts were run or launched, is recorded
 * as a sequence of events.
 */
module OpenerMac {
  import opened Wrappers
  import opened PyStr
  import opened Seqs
  import I18n

  const APPLESCRIPT_TIMEOUT: nat := 30
  const RETRY_MAX: nat := 30
  /** `_RETRY_DELAY` as an f-string renders the float 0.1. */
  const RETRY_DELAY_TEXT: string := "0.1"
  /** Substrings of a lowered error message that mean the Accessibility
    * permission is missing. */
  const ACCESSIBILITY_KEYWORDS: seq<string> := ["assistive", "アクセシビリティ", "辅助功能", "보조"]

  // ---------------------------------------------------------------------
  // Escaping

  /** `_esc_applescript`: backslashes doubled first, then every double
    * quote prefixed with a backslash. */
  function Esc(p: string): (r: string)
    ensures '\\' !in p && '"' !in p ==> r == p
  {
    ReplaceChar(ReplaceChar(p, '\\', "\\\\"), '"', "\\\"")
  }

  /** The escape of one character. */
  function EscChar(c: char): string {
    if c == '\\' then "\\\\" else if c == '"' then "\\\"" else [c]
  }

  /** Escaping character by character: the reference `Esc` is held to. */
  function EscEach(p: string): (r: string)
    ensures |r| >= |p|
  {
    if p == [] then [] else EscChar(p[0]) + EscEach(p[1..])
  }

  /** The two whole-string replacements, backslashes first, escape each
    * character exactly once. */
  lemma {:induction false} EscIsEscEach(p: string)
    ensures Esc(p) == EscEach(p)
  {
    if p != [] {
      var c := p[0];
      var tail := p[1..];
      assert p == [c] + tail;
      assert [c][1..] == [];
      ReplaceCharConcat([c], tail, '\\', "\\\\");
      var inner := ReplaceChar([c], '\\', "\\\\");
      ReplaceCharConcat(inner, ReplaceChar(tail, '\\', "\\\\"), '"', "\\\"");
      EscIsEscEach(tail);
      if c == '\\' {
        assert inner == "\\\\";
      } else {
        assert inner == [c];
      }
    }
  }

  /** The character an AppleScript escape `\d` stands for. */
  function EscapedChar(d: char): Option<char> {
    if d == '\\' then Some('\\')
    else if d == '"' then Some('"')
    else if d == 'n' then Some('\n')
    else if d == 't' then Some('\t')
    else if d == 'r' then Some('\r')
    else None
  }

  function PrependChar(c: char, o: Option<string>): Option<string> {
    if o.Some? then Some([c] + o.value) else None
  }

  /** Reads the body of an AppleScript string literal back into the text it
    * denotes. A bare `"` would end the literal and a trailing or unknown
    * escape is not accepted; both give `None`. */
  function Unescape(s: string): Option<string>
    decreases |s|
  {
    if s == [] then Some([])
    else if s[0] == '"' then None
    else if s[0] == '\\' then
      if |s| < 2 then None
      else
        var d := EscapedChar(s[1]);
        if d.None? then None else PrependChar(d.value, Unescape(s[2..]))
    else PrependChar(s[0], Unescape(s[1..]))
  }

  lemma {:induction false} UnescapeEscEach(p: string)
    ensures Unescape(EscEach(p)) == Some(p)
  {
    if p != [] {
      var c := p[0];
      var rest := EscEach(p[1..]);
      UnescapeEscEach(p[1..]);
      assert EscEach(p) == EscChar(c) + rest;
      if c == '\\' || c == '"' {
        assert (EscChar(c) + rest)[2..] == rest;
      } else {
        assert (EscChar(c) + rest)[1..] == rest;
      }
      assert [c] + p[1..] == p;
    }
  }

  /** An escaped path, put between double quotes, denotes exactly the
    * path: no quote ends the literal early and no escape is lost. */
  lemma EscRoundTrip(p: string)
    ensures Unescape(Esc(p)) == Some(p)
  {
    EscIsEscEach(p);
    UnescapeEscEach(p);
  }

  /** Different paths never escape to the same literal. */
  lemma EscInjective(a: string, b: string)
    requires Esc(a) == Esc(b)
    ensures a == b
  {
    EscRoundTrip(a);
    EscRoundTrip(b);
  }

  /** A backslash is doubled. */
  lemma EscBackslashExample()
    ensures Esc("a\\b") == "a\\\\b"
  {
    EscIsEscEach("a\\b");
    assert "a\\b"[1..] == "\\b" && "\\b"[1..] == "b" && "b"[1..] == [];
    assert EscEach("b") == "b";
    assert EscEach("\\b") == "\\\\" + "b";
    assert EscEach("a\\b") == "a" + "\\\\b";
  }

  /** A double quote gets a backslash before it. */
  lemma EscQuoteExample()
    ensures Esc("a\"b") == "a\\\"b"
  {
    EscIsEscEach("a\"b");
    assert "a\"b"[1..] == "\"b" && "\"b"[1..] == "b" && "b"[1..] == [];
    assert EscEach("b") == "b";
    assert EscEach("\"b") == "\\\"" + "b";
    assert EscEach("a\"b") == "a" + "\\\"b";
  }

  /** A line break is kept as it is. */
  lemma EscNewlineExample()
    ensures Esc("a\nb") == "a\nb"
  {
    var s := "a\nb";
    assert forall k :: 0 <= k < |s| ==> s[k] != '\\' && s[k] != '"';
    assert '\\' !in s && '"' !in s;
  }

  // ---------------------------------------------------------------------
  // Script lines

  /** The lines the script builders emit. Each line's text is `Render`;
    * the lines that name a folder hold the folder unescaped. */
  datatype Line =
    | FinderTell                // tell application "Finder"
    | Activate                  //   activate
    | MakeWindow(path: string)  //   make new Finder window to POSIX file "…" as alias
    | Bounds(rect: Rect)        //   set bounds of front Finder window to {…}
    | EndTell                   // end tell
    | Blank
    | SystemEventsTell          // tell application "System Events"
    | ProcessTell               //   tell process "Finder"
    | Keystroke                 //     keystroke "t" using command down
    | EndProcessTell            //   end tell
    | RepeatRetry               // repeat 30 times
    | Try                       //   try
    | RetryFinderTell           //     tell application "Finder"
    | SetTarget(path: string)   //       set target of front Finder window to POSIX file "…" as alias
    | RetryEndTell              //     end tell
    | ExitRepeat                //     exit repeat
    | OnError                   //   on error
    | Delay                     //     delay 0.1
    | EndTry                    //   end try
    | EndRepeat                 // end repeat

  const BOUNDS_PREFIX: string := "  set bounds of front Finder window to {"

  /** `(x, y, w, h)` as the bounds `{x, y, x + w, y + h}`. */
  function BoundsText(r: Rect): string {
    BOUNDS_PREFIX
    + (IntToString(r.x) + ", " + IntToString(r.y) + ", "
       + IntToString(r.x + r.width) + ", " + IntToString(r.y + r.height) + "}")
  }

  function Render(l: Line): string {
    match l
    case FinderTell => "tell application \"Finder\""
    case Activate => "  activate"
    case MakeWindow(p) => "  make new Finder window to POSIX file \"" + (Esc(p) + "\" as alias")
    case Bounds(r) => BoundsText(r)
    case EndTell => "end tell"
    case Blank => ""
    case SystemEventsTell => "tell application \"System Events\""
    case ProcessTell => "  tell process \"Finder\""
    case Keystroke => "    keystroke \"t\" using command down"
    case EndProcessTell => "  end tell"
    case RepeatRetry => "repeat " + NatToString(RETRY_MAX) + " times"
    case Try => "  try"
    case RetryFinderTell => "    tell application \"Finder\""
    case SetTarget(p) => "      set target of front Finder window to POSIX file \"" + (Esc(p) + "\" as alias")
    case RetryEndTell => "    end tell"
    case ExitRepeat => "    exit repeat"
    case OnError => "  on error"
    case Delay => "    delay " + RETRY_DELAY_TEXT
    case EndTry => "  end try"
    case EndRepeat => "end repeat"
  }

  /** The text of each line. */
  function RenderAll(lines: seq<Line>): (r: seq<string>)
    ensures |r| == |lines|
    ensures forall k :: 0 <= k < |lines| ==> r[k] == Render(lines[k])
  {
    seq(|lines|, k requires 0 <= k < |lines| => Render(lines[k]))
  }

  /** `"\n".join` of the lines' texts. */
  function ScriptText(lines: seq<Line>): string {
    Join(RenderAll(lines), "\n")
  }

  /** The Finder block that opens the first folder in a new window. */
  function HeaderLines(p: string, rect: Option<Rect>): (r: seq<Line>)
    ensures |r| == HeaderSize(rect)
  {
    [FinderTell, Activate, MakeWindow(p)]
    + (if rect.Some? then [Bounds(rect.value)] else [])
    + [EndTell]
  }

  function HeaderSize(rect: Option<Rect>): nat { if rect.Some? then 5 else 4 }

  /** ⌘T through System Events, then `set target` retried up to
    * `_RETRY_MAX` times until the new tab is ready. */
  function TabBlock(p: string): (r: seq<Line>)
    ensures |r| == 17
  {
    TAB_BLOCK_HEAD + [SetTarget(p)] + TAB_BLOCK_TAIL
  }

  const TAB_BLOCK_HEAD: seq<Line> :=
    [Blank, SystemEventsTell, ProcessTell, Keystroke, EndProcessTell, EndTell,
     Blank, RepeatRetry, Try, RetryFinderTell]

  const TAB_BLOCK_TAIL: seq<Line> :=
    [RetryEndTell, ExitRepeat, OnError, Delay, EndTry, EndRepeat]

  /** The tab blocks of `ps`, in order. */
  function TabBlocks(ps: seq<string>): (r: seq<Line>)
    ensures |r| == 17 * |ps|
  {
    if ps == [] then [] else TabBlocks(ps[..|ps| - 1]) + TabBlock(ps[|ps| - 1])
  }

  /** The lines `_build_applescript` joins. */
  function ScriptLines(paths: seq<string>, rect: Option<Rect>): seq<Line>
    requires |paths| >= 1
  {
    HeaderLines(paths[0], rect) + TabBlocks(paths[1..])
  }

  /** `_build_open_window_script`: the first Finder block alone. */
  function OpenWindowScript(p: string, rect: Option<Rect>): string {
    ScriptText(HeaderLines(p, rect))
  }

  /** `_build_applescript`: the header for the first path, then one tab
    * block per further path, joined with line breaks. */
  method BuildAppleScript(paths: seq<string>, rect: Option<Rect>) returns (script: string)
    requires |paths| >= 1
    ensures script == ScriptText(ScriptLines(paths, rect))
  {
    var lines := [FinderTell, Activate, MakeWindow(paths[0])];
    if rect.Some? {
      lines := lines + [Bounds(rect.value)];
    }
    lines := lines + [EndTell];
    var i := 1;
    while i < |paths|
      invariant 1 <= i <= |paths|
      invariant lines == HeaderLines(paths[0], rect) + TabBlocks(paths[1..i])
    {
      assert paths[1..i + 1][..i - 1] == paths[1..i];
      lines := lines + TabBlock(paths[i]);
      i := i + 1;
    }
    assert paths[1..i] == paths[1..];
    script := ScriptText(lines);
  }

  /** The one-window script is the tab script of a single path. */
  lemma SinglePathScript(p: string, rect: Option<Rect>)
    ensures ScriptText(ScriptLines([p], rect)) == OpenWindowScript(p, rect)
  {
    assert [p][1..] == [];
    assert ScriptLines([p], rect) == HeaderLines(p, rect) + [];
    assert HeaderLines(p, rect) + [] == HeaderLines(p, rect);
  }

  /** The one-window script as `_build_open_window_script` concatenates
    * it: every line but the last ends in a line break. */
  lemma OpenWindowScriptText(p: string, rect: Option<Rect>)
    ensures var h := HeaderLines(p, rect);
      OpenWindowScript(p, rect)
      == Render(h[0]) + "\n" + Render(h[1]) + "\n" + Render(h[2]) + "\n"
         + (if rect.Some? then Render(h[3]) + "\n" else "")
         + Render(h[|h| - 1])
  {
    if rect.Some? {
      RenderFive(HeaderLines(p, rect));
    } else {
      RenderFour(HeaderLines(p, rect));
    }
  }

  /** The lines of the one-window script, in order. */
  lemma HeaderLayout(p: string, rect: Option<Rect>)
    ensures var h := HeaderLines(p, rect);
      && h[0] == FinderTell && h[1] == Activate && h[2] == MakeWindow(p)
      && (rect.Some? ==> h[3] == Bounds(rect.value)) && h[|h| - 1] == EndTell
  {
  }

  lemma RenderFour(lines: seq<Line>)
    requires |lines| == 4
    ensures ScriptText(lines)
            == Render(lines[0]) + "\n" + Render(lines[1]) + "\n" + Render(lines[2]) + "\n" + Render(lines[3])
  {
    var t := RenderAll(lines);
    assert t == [t[0], t[1], t[2], t[3]];
    Join4(t[0], t[1], t[2], t[3], "\n");
  }

  lemma RenderFive(lines: seq<Line>)
    requires |lines| == 5
    ensures ScriptText(lines)
            == Render(lines[0]) + "\n" + Render(lines[1]) + "\n" + Render(lines[2]) + "\n"
               + Render(lines[3]) + "\n" + Render(lines[4])
  {
    var t := RenderAll(lines);
    assert t == [t[0], t[1], t[2], t[3], t[4]];
    Join5(t[0], t[1], t[2], t[3], t[4], "\n");
  }

  /** Tab block `i` sits at lines `17 i .. 17 i + 16`. */
  lemma {:induction false} TabBlocksIndex(ps: seq<string>, i: nat, j: nat)
    requires i < |ps| && j < 17
    ensures TabBlocks(ps)[17 * i + j] == TabBlock(ps[i])[j]
  {
    var init := ps[..|ps| - 1];
    if i < |init| {
      TabBlocksIndex(init, i, j);
    }
  }

  /** Where the lines of each further path stand: block `i` begins right
    * after the header and the blocks before it, and holds `paths[i + 1]`'s
    * `set target`. */
  lemma ScriptLayout(paths: seq<string>, rect: Option<Rect>, i: nat)
    requires |paths| >= 1 && i < |paths| - 1
    ensures |ScriptLines(paths, rect)| == HeaderSize(rect) + 17 * (|paths| - 1)
    ensures ScriptLines(paths, rect)[..HeaderSize(rect)] == HeaderLines(paths[0], rect)
    ensures ScriptLines(paths, rect)[HeaderSize(rect) + 17 * i + 1] == SystemEventsTell
    ensures ScriptLines(paths, rect)[HeaderSize(rect) + 17 * i + 3] == Keystroke
    ensures ScriptLines(paths, rect)[HeaderSize(rect) + 17 * i + 7] == RepeatRetry
    ensures ScriptLines(paths, rect)[HeaderSize(rect) + 17 * i + 10] == SetTarget(paths[i + 1])
  {
    ScriptLineAt(paths, rect, i, 1);
    ScriptLineAt(paths, rect, i, 3);
    ScriptLineAt(paths, rect, i, 7);
    ScriptLineAt(paths, rect, i, 10);
    TabBlockLines(paths[i + 1]);
  }

  lemma ScriptLineAt(paths: seq<string>, rect: Option<Rect>, i: nat, j: nat)
    requires |paths| >= 1 && i < |paths| - 1 && j < 17
    ensures HeaderSize(rect) + 17 * i + j < |ScriptLines(paths, rect)|
    ensures ScriptLines(paths, rect)[HeaderSize(rect) + 17 * i + j] == TabBlock(paths[i + 1])[j]
  {
    TabBlocksIndex(paths[1..], i, j);
  }

  lemma TabBlockLines(p: string)
    ensures TabBlock(p)[1] == SystemEventsTell && TabBlock(p)[3] == Keystroke
    ensures TabBlock(p)[7] == RepeatRetry && TabBlock(p)[10] == SetTarget(p)
  {
  }

  /** The fixed lines of a tab block hold one System Events `tell`, one
    * keystroke and one retry loop. */
  lemma SystemEventsInBlock()
    ensures Count(TAB_BLOCK_HEAD, SystemEventsTell) == 1 && Count(TAB_BLOCK_TAIL, SystemEventsTell) == 0
  {
    CountAbsent(TAB_BLOCK_TAIL, SystemEventsTell);
    HeadCountSystemEventsTell();
  }

  lemma HeadCountSystemEventsTell()
    ensures Count(TAB_BLOCK_HEAD, SystemEventsTell) == 1
  {
  }

  lemma KeystrokeInBlock()
    ensures Count(TAB_BLOCK_HEAD, Keystroke) == 1 && Count(TAB_BLOCK_TAIL, Keystroke) == 0
  {
    CountAbsent(TAB_BLOCK_TAIL, Keystroke);
    HeadCountKeystroke();
  }

  lemma HeadCountKeystroke()
    ensures Count(TAB_BLOCK_HEAD, Keystroke) == 1
  {
  }

  lemma RepeatInBlock()
    ensures Count(TAB_BLOCK_HEAD, RepeatRetry) == 1 && Count(TAB_BLOCK_TAIL, RepeatRetry) == 0
  {
    CountAbsent(TAB_BLOCK_TAIL, RepeatRetry);
    HeadCountRepeatRetry();
  }

  lemma HeadCountRepeatRetry()
    ensures Count(TAB_BLOCK_HEAD, RepeatRetry) == 1
  {
  }

  lemma HeaderCount(p: string, rect: Option<Rect>, line: Line)
    requires line == SystemEventsTell || line == Keystroke || line == RepeatRetry
    ensures Count(HeaderLines(p, rect), line) == 0
  {
    CountAbsent(HeaderLines(p, rect), line);
  }

  lemma BlockCount(p: string, line: Line)
    requires Count(TAB_BLOCK_HEAD, line) == 1 && Count(TAB_BLOCK_TAIL, line) == 0
    requires !line.SetTarget?
    ensures Count(TabBlock(p), line) == 1
  {
    var head, tail := TAB_BLOCK_HEAD, TAB_BLOCK_TAIL;
    CountConcat(head, [SetTarget(p)], line);
    CountConcat(head + [SetTarget(p)], tail, line);
  }

  lemma {:induction false} BlocksCount(ps: seq<string>, line: Line)
    requires Count(TAB_BLOCK_HEAD, line) == 1 && Count(TAB_BLOCK_TAIL, line) == 0
    requires !line.SetTarget?
    ensures Count(TabBlocks(ps), line) == |ps|
  {
    if ps != [] {
      var init := ps[..|ps| - 1];
      BlocksCount(init, line);
      BlockCount(ps[|ps| - 1], line);
      CountConcat(TabBlocks(init), TabBlock(ps[|ps| - 1]), line);
    }
  }

  /** `n` paths give exactly `n - 1` System Events blocks, keystrokes and
    * retry loops; a single path gives none. */
  lemma ScriptCounts(paths: seq<string>, rect: Option<Rect>)
    requires |paths| >= 1
    ensures Count(ScriptLines(paths, rect), SystemEventsTell) == |paths| - 1
    ensures Count(ScriptLines(paths, rect), Keystroke) == |paths| - 1
    ensures Count(ScriptLines(paths, rect), RepeatRetry) == |paths| - 1
  {
    var ps := paths[1..];
    var h := HeaderLines(paths[0], rect);
    SystemEventsInBlock();
    KeystrokeInBlock();
    RepeatInBlock();
    HeaderCount(paths[0], rect, SystemEventsTell);
    HeaderCount(paths[0], rect, Keystroke);
    HeaderCount(paths[0], rect, RepeatRetry);
    BlocksCount(ps, SystemEventsTell);
    BlocksCount(ps, Keystroke);
    BlocksCount(ps, RepeatRetry);
    CountConcat(h, TabBlocks(ps), SystemEventsTell);
    CountConcat(h, TabBlocks(ps), Keystroke);
    CountConcat(h, TabBlocks(ps), RepeatRetry);
  }

  /** The window bounds appear exactly when a rectangle is given, once, as
    * the fourth line of the first Finder block. */
  lemma BoundsPlacement(paths: seq<string>, rect: Option<Rect>, k: nat)
    requires |paths| >= 1 && k < |ScriptLines(paths, rect)|
    ensures ScriptLines(paths, rect)[k].Bounds? <==> rect.Some? && k == 3
    ensures rect.Some? && k == 3 ==> ScriptLines(paths, rect)[k] == Bounds(rect.value)
  {
    var h := HeaderSize(rect);
    if k >= h {
      var i, j := (k - h) / 17, (k - h) % 17;
      TabBlocksIndex(paths[1..], i, j);
      assert TAB_BLOCK_HEAD[..] + [SetTarget(paths[1..][i])] + TAB_BLOCK_TAIL == TabBlock(paths[1..][i]);
    }
  }

  // ---------------------------------------------------------------------
  // From lines to text

  lemma DiffersAt(a: string, b: string, k: nat)
    requires k < |a| && k < |b| && a[k] != b[k]
    ensures a != b
  {
  }

  /** The retry line reads `repeat 30 times`. */
  lemma RepeatRetryText()
    ensures Render(RepeatRetry) == "repeat 30 times"
  {
    assert NatToString(30) == NatToString(3) + [DigitChar(0)];
  }

  /** A line that is not filled in from a path, a rectangle or a number. */
  predicate FixedLine(l: Line) {
    !(l.MakeWindow? || l.Bounds? || l.SetTarget? || l.RepeatRetry?)
  }

  lemma FixedLineShort(l: Line)
    requires FixedLine(l)
    ensures |Render(l)| <= 36
  {
  }

  lemma FixedLineNotSystemEvents(l: Line)
    requires FixedLine(l) && l != SystemEventsTell
    ensures |Render(l)| != |Render(SystemEventsTell)|
  {
  }

  /** The three lines filled in from values begin differently from the
    * System Events line; only the bounds line begins with the bounds
    * command. */
  lemma MakeWindowTextDiffers(p: string)
    ensures Render(MakeWindow(p)) != Render(SystemEventsTell)
    ensures !StartsWith(Render(MakeWindow(p)), BOUNDS_PREFIX)
  {
    var a, b := "  make new Finder window to POSIX file \"", Esc(p) + "\" as alias";
    PrefixDiffers(a, b, Render(SystemEventsTell), 0);
    PrefixDiffers(a, b, BOUNDS_PREFIX, 2);
  }

  lemma SetTargetTextDiffers(p: string)
    ensures Render(SetTarget(p)) != Render(SystemEventsTell)
    ensures !StartsWith(Render(SetTarget(p)), BOUNDS_PREFIX)
  {
    SetTargetNotSystemEvents(p);
    SetTargetNotBounds(p);
  }

  lemma SetTargetNotSystemEvents(p: string)
    ensures Render(SetTarget(p)) != Render(SystemEventsTell)
  {
    var a, b := "      set target of front Finder window to POSIX file \"", Esc(p) + "\" as alias";
    PrefixDiffers(a, b, Render(SystemEventsTell), 31);
  }

  lemma SetTargetNotBounds(p: string)
    ensures !StartsWith(Render(SetTarget(p)), BOUNDS_PREFIX)
  {
    var a, b := "      set target of front Finder window to POSIX file \"", Esc(p) + "\" as alias";
    PrefixDiffers(a, b, BOUNDS_PREFIX, 39);
  }

  lemma BoundsTextDiffers(r: Rect)
    ensures Render(Bounds(r)) != Render(SystemEventsTell)
    ensures StartsWith(Render(Bounds(r)), BOUNDS_PREFIX)
  {
    var rest := Render(Bounds(r))[|BOUNDS_PREFIX|..];
    PrefixDiffers(BOUNDS_PREFIX, rest, Render(SystemEventsTell), 0);
    PrefixOfConcat(BOUNDS_PREFIX, rest);
  }

  /** Only the System Events line reads `tell application "System
    * Events"`, so counting lines and counting that text agree. */
  lemma SystemEventsTextOnlyThere(l: Line)
    ensures Render(l) == Render(SystemEventsTell) <==> l == SystemEventsTell
  {
    if FixedLine(l) {
      if l != SystemEventsTell {
        FixedLineNotSystemEvents(l);
      }
    } else if l.MakeWindow? {
      MakeWindowTextDiffers(l.path);
    } else if l.SetTarget? {
      SetTargetTextDiffers(l.path);
    } else if l.Bounds? {
      BoundsTextDiffers(l.rect);
    } else {
      RepeatRetryText();
    }
  }

  lemma {:induction false} CountRendered(lines: seq<Line>)
    ensures Count(RenderAll(lines), Render(SystemEventsTell)) == Count(lines, SystemEventsTell)
  {
    if lines != [] {
      SystemEventsTextOnlyThere(lines[0]);
      assert RenderAll(lines)[1..] == RenderAll(lines[1..]);
      CountRendered(lines[1..]);
    }
  }

  /** The script text of `n` paths holds `n - 1` lines reading
    * `tell application "System Events"`. */
  lemma SystemEventsTextCount(paths: seq<string>, rect: Option<Rect>)
    requires |paths| >= 1
    ensures Count(RenderAll(ScriptLines(paths, rect)), "tell application \"System Events\"") == |paths| - 1
  {
    ScriptCounts(paths, rect);
    CountRendered(ScriptLines(paths, rect));
  }

  lemma PrefixDiffers(a: string, b: string, c: string, k: nat)
    requires k < |a| && k < |c| && a[k] != c[k]
    ensures !StartsWith(a + b, c) && a + b != c
  {
    assert (a + b)[k] == a[k];
    if |c| <= |a + b| {
      assert (a + b)[..|c|][k] == a[k];
    }
  }

  lemma PrefixOfConcat(a: string, b: string)
    ensures StartsWith(a + b, a)
  {
    assert (a + b)[..|a|] == a;
  }

  /** Only the bounds line begins with the bounds command. */
  lemma BoundsTextOnlyThere(l: Line)
    ensures StartsWith(Render(l), BOUNDS_PREFIX) <==> l.Bounds?
  {
    if FixedLine(l) {
      FixedLineShort(l);
    } else if l.MakeWindow? {
      MakeWindowTextDiffers(l.path);
    } else if l.SetTarget? {
      SetTargetTextDiffers(l.path);
    } else if l.Bounds? {
      BoundsTextDiffers(l.rect);
    } else {
      RepeatRetryText();
    }
  }

  /** `(100, 200, 800, 600)` becomes the bounds `{100, 200, 900, 800}`. */
  lemma BoundsExample()
    ensures BoundsText(Rect(100, 200, 800, 600)) == BOUNDS_PREFIX + "100, 200, 900, 800}"
  {
    SmallNumberTexts();
    LargeNumberTexts();
  }

  lemma SmallNumberTexts()
    ensures IntToString(100) == "100" && IntToString(200) == "200"
  {
    assert NatToString(100) == "100";
    assert NatToString(200) == "200";
  }

  lemma LargeNumberTexts()
    ensures IntToString(900) == "900" && IntToString(800) == "800"
  {
    assert NatToString(900) == "900";
    assert NatToString(800) == "800";
  }

  // ---------------------------------------------------------------------
  // Running scripts and opening folders

  /** What a callback received, or what was handed to `osascript`. */
  datatype Event =
    | RanScript(script: seq<Line>)  // `subprocess.run(["osascript", "-e", ScriptText(script)])`
    | Launched(script: seq<Line>)   // `subprocess.Popen(["osascript", "-e", ScriptText(script)])`
    | Progress(index: nat, total: nat, path: string)
    | Error(path: string, message: string)

  /** Whether `on_progress` and `on_error` were given. */
  datatype Callbacks = Callbacks(onProgress: bool, onError: bool)

  /** How `subprocess.run` ended: an exit code and standard error, the
    * timeout, `osascript` missing, or another exception with its text. */
  datatype RunOutcome =
    | Exited(code: int, stderr: string)
    | TimedOut
    | NoOsascript
    | Raised(error: string)

  /** `_run_applescript`'s `(success, error_message)`, or the exception it
    * lets through. */
  datatype RunResult = Ran(success: bool, message: string) | Threw(error: string)

  /** `_run_applescript`: success is exit code 0; the timeout and a missing
    * `osascript` are failures with fixed messages. */
  function RunAppleScript(outcome: RunOutcome): (r: RunResult)
    ensures r.Threw? <==> outcome.Raised?
    ensures r.Ran? && r.success <==> outcome.Exited? && outcome.code == 0
    ensures outcome.Exited? ==> r.message == Strip(outcome.stderr)
    ensures outcome.TimedOut? ==> r == Ran(false, "AppleScript execution timed out")
    ensures outcome.NoOsascript? ==> r == Ran(false, "osascript not found (not macOS?)")
  {
    match outcome
    case Exited(code, stderr) => Ran(code == 0, Strip(stderr))
    case TimedOut => Ran(false, "AppleScript execution timed out")
    case NoOsascript => Ran(false, "osascript not found (not macOS?)")
    case Raised(e) => Threw(e)
  }

  predicate MentionsAccessibility(msg: string) {
    exists k :: 0 <= k < |ACCESSIBILITY_KEYWORDS| && Contains(AsciiLower(msg), ACCESSIBILITY_KEYWORDS[k])
  }

  /** The text `on_error` gets when System Events failed. */
  function ErrorMessage(msg: string, lang: string): string {
    if MentionsAccessibility(msg) then I18n.Translate(lang, "error.accessibility_required", map[])
    else "AppleScript error: " + msg
  }

  /** A permission error is reported by its translation key, which the
    * table lacks, so the key itself is shown; any other error is shown
    * after a fixed prefix. */
  lemma ErrorMessageCases(msg: string, lang: string)
    ensures MentionsAccessibility(msg) ==> ErrorMessage(msg, lang) == "error.accessibility_required"
    ensures !MentionsAccessibility(msg) ==> ErrorMessage(msg, lang) == "AppleScript error: " + msg
  {
    I18n.TranslateAccessibilityKey(lang);
  }

  /** `"assistive"` in any letter case marks a permission error. */
  lemma AccessibilityLowerExample()
    ensures MentionsAccessibility("assistive access required")
  {
    assert StartsWith(AsciiLower("assistive access required"), "assistive");
    assert Contains(AsciiLower("assistive access required"), ACCESSIBILITY_KEYWORDS[0]);
  }

  lemma AccessibilityUpperExample()
    ensures MentionsAccessibility("Not Allowed ASSISTIVE access")
  {
    var low := AsciiLower("Not Allowed ASSISTIVE access");
    assert low[12..][..9] == "assistive";
    ContainsAt(low, "assistive", 12);
    assert Contains(low, ACCESSIBILITY_KEYWORDS[0]);
  }

  /** An error without any keyword is not a permission error. */
  lemma NoAccessibilityExample()
    ensures !MentionsAccessibility("test error")
  {
    var te := AsciiLower("test error");
    assert te == "test error";
    forall k | 0 <= k < |ACCESSIBILITY_KEYWORDS|
      ensures !Contains(te, ACCESSIBILITY_KEYWORDS[k])
    {
      HeadAbsentNotContains(te, ACCESSIBILITY_KEYWORDS[k]);
    }
  }

  lemma {:induction false} ContainsAt(s: string, sub: string, k: nat)
    requires k + |sub| <= |s| && s[k..][..|sub|] == sub
    ensures Contains(s, sub)
    decreases k
  {
    if k > 0 {
      assert s[1..][k - 1..] == s[k..];
      ContainsAt(s[1..], sub, k - 1);
    }
  }

  /** A text without the first character of `sub` does not contain it. */
  lemma {:induction false} HeadAbsentNotContains(s: string, sub: string)
    requires sub != [] && sub[0] !in s
    ensures !Contains(s, sub)
    decreases |s|
  {
    if s != [] {
      assert s[0] in s;
      HeadAbsentNotContains(s[1..], sub);
    }
  }

  /** `[os.path.expanduser(p) for p in paths]`. */
  function Expanded(paths: seq<string>, expand: string -> string): (r: seq<string>)
    ensures |r| == |paths|
    ensures forall k :: 0 <= k < |paths| ==> r[k] == expand(paths[k])
  {
    seq(|paths|, k requires 0 <= k < |paths| => expand(paths[k]))
  }

  /** `on_progress(i, n, p)` for the first `m` paths, `i` counting from 1. */
  function ProgressEvents(ps: seq<string>, m: nat): (r: seq<Event>)
    requires m <= |ps|
    ensures |r| == m
  {
    if m == 0 then [] else ProgressEvents(ps, m - 1) + [Progress(m, |ps|, ps[m - 1])]
  }

  lemma {:induction false} ProgressEventsAt(ps: seq<string>, m: nat, k: nat)
    requires k < m <= |ps|
    ensures ProgressEvents(ps, m)[k] == Progress(k + 1, |ps|, ps[k])
  {
    if k < m - 1 {
      ProgressEventsAt(ps, m - 1, k);
    }
  }

  /** One iteration of `_open_separate` for path number `i` of `n`: the
    * window script is launched and progress reported, or the launch
    * raises and the error is reported. */
  function PathEvents(i: nat, n: nat, p: string, rect: Option<Rect>,
                      launch: seq<Line> -> Option<string>, cb: Callbacks): seq<Event> {
    var script := HeaderLines(p, rect);
    match launch(script)
    case None => [Launched(script)] + (if cb.onProgress then [Progress(i, n, p)] else [])
    case Some(e) => if cb.onError then [Error(p, e)] else []
  }

  /** The events of `_open_separate` for the first `m` paths. */
  function SeparateEvents(ps: seq<string>, m: nat, rect: Option<Rect>,
                          launch: seq<Line> -> Option<string>, cb: Callbacks): seq<Event>
    requires m <= |ps|
  {
    if m == 0 then []
    else SeparateEvents(ps, m - 1, rect, launch, cb) + PathEvents(m, |ps|, ps[m - 1], rect, launch, cb)
  }

  /** `_open_separate`: every path is tried in turn, and the result is
    * always true. */
  method OpenSeparate(paths: seq<string>, rect: Option<Rect>, launch: seq<Line> -> Option<string>, cb: Callbacks)
    returns (ok: bool, events: seq<Event>)
    ensures ok
    ensures events == SeparateEvents(paths, |paths|, rect, launch, cb)
  {
    events := [];
    var i := 0;
    while i < |paths|
      invariant 0 <= i <= |paths|
      invariant events == SeparateEvents(paths, i, rect, launch, cb)
    {
      var path := paths[i];
      var script := HeaderLines(path, rect);
      var failure := launch(script);
      if failure.None? {
        events := events + [Launched(script)];
        if cb.onProgress {
          events := events + [Progress(i + 1, |paths|, path)];
        }
      } else if cb.onError {
        events := events + [Error(path, failure.value)];
      }
      i := i + 1;
    }
    ok := true;
  }

  /** Progress is reported for a path exactly when its window was
    * launched, with its own position and the total. */
  lemma {:induction false} SeparateProgress(ps: seq<string>, m: nat, rect: Option<Rect>,
                                            launch: seq<Line> -> Option<string>, cb: Callbacks,
                                            i: nat, n: nat, p: string)
    requires m <= |ps|
    ensures Progress(i, n, p) in SeparateEvents(ps, m, rect, launch, cb)
            <==> && 1 <= i <= m && n == |ps| && p == ps[i - 1] && cb.onProgress
                 && launch(HeaderLines(p, rect)).None?
  {
    if m > 0 {
      SeparateProgress(ps, m - 1, rect, launch, cb, i, n, p);
    }
  }

  /** An error is reported for a path exactly when launching its window
    * raised, with the exception's text. */
  lemma {:induction false} SeparateErrors(ps: seq<string>, m: nat, rect: Option<Rect>,
                                          launch: seq<Line> -> Option<string>, cb: Callbacks,
                                          p: string, e: string)
    requires m <= |ps|
    ensures Error(p, e) in SeparateEvents(ps, m, rect, launch, cb)
            <==> && cb.onError && launch(HeaderLines(p, rect)) == Some(e)
                 && exists k :: 0 <= k < m && ps[k] == p
  {
    if m > 0 {
      SeparateErrors(ps, m - 1, rect, launch, cb, p, e);
      if ps[m - 1] == p && cb.onError && launch(HeaderLines(p, rect)) == Some(e) {
        assert Error(p, e) in PathEvents(m, |ps|, ps[m - 1], rect, launch, cb);
      }
    }
  }

  /** A window is launched exactly for the one-window script of a path
    * whose launch did not raise. */
  lemma {:induction false} SeparateLaunches(ps: seq<string>, m: nat, rect: Option<Rect>,
                                            launch: seq<Line> -> Option<string>, cb: Callbacks,
                                            script: seq<Line>)
    requires m <= |ps|
    ensures Launched(script) in SeparateEvents(ps, m, rect, launch, cb)
            <==> launch(script).None? && exists k :: 0 <= k < m && script == HeaderLines(ps[k], rect)
  {
    if m > 0 {
      SeparateLaunches(ps, m - 1, rect, launch, cb, script);
      if launch(script).None? && script == HeaderLines(ps[m - 1], rect) {
        assert Launched(script) in PathEvents(m, |ps|, ps[m - 1], rect, launch, cb);
      }
    }
  }

  /** The script `open_folders_as_tabs` runs for `paths`. */
  function TabsScript(paths: seq<string>, expand: string -> string, rect: Option<Rect>): seq<Line>
    requires |paths| >= 1
  {
    ScriptLines(Expanded(paths, expand), rect)
  }

  /** The one error `open_folders_as_tabs` reports when the tab script
    * failed, against the first path. */
  function FailureReport(first: string, result: RunResult, cb: Callbacks, lang: string): seq<Event> {
    if !cb.onError then []
    else [Error(first, if result.Ran? then ErrorMessage(result.message, lang) else result.error)]
  }

  /** The result and events of `open_folders_as_tabs`. */
  function TabsTrace(paths: seq<string>, expand: string -> string, run: seq<Line> -> RunOutcome,
                     launch: seq<Line> -> Option<string>, cb: Callbacks, rect: Option<Rect>,
                     lang: string): (r: (bool, seq<Event>))
    ensures r.0 <==> paths != []
    ensures r.1 == [] <==> paths == []
    ensures paths != [] ==> r.1[0] == RanScript(TabsScript(paths, expand, rect))
  {
    if paths == [] then (false, [])
    else
      var ex := Expanded(paths, expand);
      var script := ScriptLines(ex, rect);
      var result := RunAppleScript(run(script));
      if result.Ran? && result.success then
        (true, [RanScript(script)] + (if cb.onProgress then ProgressEvents(ex, |ex|) else []))
      else
        (true, [RanScript(script)] + FailureReport(ex[0], result, cb, lang)
               + SeparateEvents(ex, |ex|, rect, launch, cb))
  }

  /** `open_folders_as_tabs`: nothing for no paths; else the tab script is
    * run, and on success progress is reported for every path, while on
    * failure the error is reported once and every path gets its own
    * window. */
  method OpenFoldersAsTabs(paths: seq<string>, expand: string -> string, run: seq<Line> -> RunOutcome,
                           launch: seq<Line> -> Option<string>, cb: Callbacks, rect: Option<Rect>,
                           lang: string)
    returns (ok: bool, events: seq<Event>)
    ensures (ok, events) == TabsTrace(paths, expand, run, launch, cb, rect, lang)
  {
    if paths == [] {
      return false, [];
    }
    var expanded := Expanded(paths, expand);
    var script := ScriptLines(expanded, rect);
    events := [RanScript(script)];
    var result := RunAppleScript(run(script));
    if result.Ran? && result.success {
      if cb.onProgress {
        var i := 1;
        while i <= |expanded|
          invariant 1 <= i <= |expanded| + 1
          invariant events == [RanScript(script)] + ProgressEvents(expanded, i - 1)
        {
          events := events + [Progress(i, |expanded|, expanded[i - 1])];
          i := i + 1;
        }
      }
      assert events == [RanScript(script)] + (if cb.onProgress then ProgressEvents(expanded, |expanded|) else []);
      return true, events;
    }
    if cb.onError {
      var message := if result.Ran? then ErrorMessage(result.message, lang) else result.error;
      events := events + [Error(expanded[0], message)];
    }
    assert events == [RanScript(script)] + FailureReport(expanded[0], result, cb, lang);
    var separate;
    ok, separate := OpenSeparate(expanded, rect, launch, cb);
    events := events + separate;
  }

  /** When the tab script succeeds, the result is true, progress `(i, n,
    * expanded[i - 1])` is reported for `i = 1 .. n` in order, and no
    * separate window is launched. */
  lemma TabsSuccess(paths: seq<string>, expand: string -> string, run: seq<Line> -> RunOutcome,
                    launch: seq<Line> -> Option<string>, cb: Callbacks, rect: Option<Rect>, lang: string)
    requires |paths| >= 1
    requires run(TabsScript(paths, expand, rect)).Exited? && run(TabsScript(paths, expand, rect)).code == 0
    ensures var (ok, events) := TabsTrace(paths, expand, run, launch, cb, rect, lang);
      && ok
      && events[0] == RanScript(TabsScript(paths, expand, rect))
      && |events| == 1 + (if cb.onProgress then |paths| else 0)
      && (cb.onProgress ==> forall k :: 0 <= k < |paths| ==> events[k + 1] == Progress(k + 1, |paths|, expand(paths[k])))
      && forall s :: Launched(s) !in events
  {
    var ex := Expanded(paths, expand);
    var progress := if cb.onProgress then ProgressEvents(ex, |ex|) else [];
    assert TabsTrace(paths, expand, run, launch, cb, rect, lang)
           == (true, [RanScript(TabsScript(paths, expand, rect))] + progress);
    forall k | 0 <= k < |progress|
      ensures progress[k] == Progress(k + 1, |paths|, expand(paths[k]))
    {
      ProgressEventsAt(ex, |ex|, k);
    }
  }

  /** When the tab script fails or raises, the result is true, exactly one
    * error naming the first path is reported (when `on_error` is given)
    * and then every path is opened in its own window. */
  lemma TabsFailure(paths: seq<string>, expand: string -> string, run: seq<Line> -> RunOutcome,
                    launch: seq<Line> -> Option<string>, cb: Callbacks, rect: Option<Rect>, lang: string)
    requires |paths| >= 1
    requires !(run(TabsScript(paths, expand, rect)).Exited? && run(TabsScript(paths, expand, rect)).code == 0)
    ensures var (ok, events) := TabsTrace(paths, expand, run, launch, cb, rect, lang);
      var ex := Expanded(paths, expand);
      var outcome := RunAppleScript(run(TabsScript(paths, expand, rect)));
      var message := if outcome.Ran? then ErrorMessage(outcome.message, lang) else outcome.error;
      && ok
      && events == [RanScript(TabsScript(paths, expand, rect))]
                   + (if cb.onError then [Error(expand(paths[0]), message)] else [])
                   + SeparateEvents(ex, |ex|, rect, launch, cb)
  {
  }
}
