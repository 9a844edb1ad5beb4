/**
 * Opening folders as tabs of one Windows Explorer window.
 *
 * Every call into Windows and into pywinauto is an oracle in `Os`: the
 * top-level windows `EnumWindows` reports, what `subprocess.Popen` raises,
 * what the address bar reads back, and so on. What the opener does to the
 * desktop is recorded as a trace of `Event`s in order, including the
 * calls to `on_progress` and `on_error`.
 */
module OpenerWin {
  import opened Wrappers
  import opened Seqs
  import opened WinInput

  /** The window class of an Explorer window. */
  const CABINET_CLASS := "CabinetWClass"
  const NOT_FOUND := "New Explorer window not found"

  /** A top-level window and its class name. */
  datatype Window = Window(hwnd: int, className: string)

  // ---------------------------------------------------------------------
  // Finding Explorer windows

  /** The handles of the Explorer windows among `windows`, in order. */
  function ExplorerHandles(windows: seq<Window>): (r: seq<int>)
    ensures |r| <= |windows|
  {
    if windows == [] then []
    else (if windows[0].className == CABINET_CLASS then [windows[0].hwnd] else [])
         + ExplorerHandles(windows[1..])
  }

  /** The first handle listed is that of the first window of class
    * `CabinetWClass`, which is what `hwnds[0]` picks. */
  lemma {:induction false} ExplorerHandlesFirst(windows: seq<Window>, i: nat)
    requires i < |windows| && windows[i].className == CABINET_CLASS
    requires forall j :: 0 <= j < i ==> windows[j].className != CABINET_CLASS
    ensures ExplorerHandles(windows) != [] && ExplorerHandles(windows)[0] == windows[i].hwnd
  {
    if i > 0 {
      assert windows[1..][i - 1] == windows[i];
      ExplorerHandlesFirst(windows[1..], i - 1);
    }
  }

  /** A handle is listed exactly when some window of class `CabinetWClass`
    * has it. */
  lemma {:induction false} ExplorerHandlesMembers(windows: seq<Window>, h: int)
    ensures h in ExplorerHandles(windows)
            <==> exists k :: 0 <= k < |windows| && windows[k].hwnd == h && windows[k].className == CABINET_CLASS
  {
    if windows != [] {
      ExplorerHandlesMembers(windows[1..], h);
      if h in ExplorerHandles(windows[1..]) {
        var k :| 1 <= k + 1 < |windows| && windows[1..][k].hwnd == h && windows[1..][k].className == CABINET_CLASS;
        assert windows[k + 1] == windows[1..][k];
      }
      if exists k :: 0 <= k < |windows| && windows[k].hwnd == h && windows[k].className == CABINET_CLASS {
        var k :| 0 <= k < |windows| && windows[k].hwnd == h && windows[k].className == CABINET_CLASS;
        if k > 0 {
          assert windows[1..][k - 1] == windows[k];
        }
      }
    }
  }

  lemma {:induction false} ExplorerHandlesConcat(a: seq<Window>, b: seq<Window>)
    ensures ExplorerHandles(a + b) == ExplorerHandles(a) + ExplorerHandles(b)
  {
    if a != [] {
      assert (a + b)[1..] == a[1..] + b;
      ExplorerHandlesConcat(a[1..], b);
    } else {
      assert a + b == b;
    }
  }

  /** `_enum_explorer_hwnds`: the enumeration callback appends the handle
    * of every window whose class is `CabinetWClass`. */
  method EnumExplorerHwnds(windows: seq<Window>) returns (hwnds: seq<int>)
    ensures hwnds == ExplorerHandles(windows)
  {
    hwnds := [];
    var i := 0;
    while i < |windows|
      invariant 0 <= i <= |windows|
      invariant hwnds == ExplorerHandles(windows[..i])
    {
      assert windows[..i + 1] == windows[..i] + [windows[i]];
      ExplorerHandlesConcat(windows[..i], [windows[i]]);
      if windows[i].className == CABINET_CLASS {
        hwnds := hwnds + [windows[i].hwnd];
      }
      i := i + 1;
    }
    assert windows[..i] == windows;
  }

  /** The first handle of `hs` that is not in `before`. */
  function FirstOutside(hs: seq<int>, before: seq<int>): (r: Option<int>)
    ensures r.Some? ==> r.value in hs && r.value !in before
    ensures r.None? <==> forall k :: 0 <= k < |hs| ==> hs[k] in before
  {
    if hs == [] then None
    else if hs[0] !in before then Some(hs[0])
    else
      assert forall k :: 1 <= k < |hs| ==> hs[k] == hs[1..][k - 1];
      FirstOutside(hs[1..], before)
  }

  /** What `_find_new_explorer_hwnd` returns when the enumerations made
    * before the timeout list `polls`, in order. */
  function FirstNew(before: seq<int>, polls: seq<seq<Window>>): Option<int> {
    if polls == [] then None
    else
      var found := FirstOutside(ExplorerHandles(polls[0]), before);
      if found.Some? then found else FirstNew(before, polls[1..])
  }

  /** A found handle is an Explorer window of some poll that was not there
    * before; nothing is found exactly when every Explorer window of every
    * poll was there before. */
  lemma {:induction false} FirstNewSpec(before: seq<int>, polls: seq<seq<Window>>)
    ensures var r := FirstNew(before, polls);
      && (r.Some? ==> r.value !in before && exists k :: 0 <= k < |polls| && r.value in ExplorerHandles(polls[k]))
      && (r.None? <==> forall k, h :: 0 <= k < |polls| && h in ExplorerHandles(polls[k]) ==> h in before)
  {
    if polls != [] {
      FirstNewSpec(before, polls[1..]);
      var hs := ExplorerHandles(polls[0]);
      var found := FirstOutside(hs, before);
      if found.None? {
        forall h | h in hs ensures h in before {
          var j :| 0 <= j < |hs| && hs[j] == h;
        }
        forall k, h | 0 <= k < |polls| && h in ExplorerHandles(polls[k]) && k > 0
          ensures h in ExplorerHandles(polls[1..][k - 1])
        {
          assert polls[1..][k - 1] == polls[k];
        }
        var r := FirstNew(before, polls);
        if r.Some? {
          var k :| 0 <= k < |polls[1..]| && r.value in ExplorerHandles(polls[1..][k]);
          assert polls[k + 1] == polls[1..][k];
        }
      } else {
        assert FirstNew(before, polls) == found;
        assert found.value in ExplorerHandles(polls[0]) && found.value !in before;
        var k, h := 0, found.value;
        assert 0 <= k < |polls| && h in ExplorerHandles(polls[k]) && h !in before;
      }
    }
  }

  /** `_find_new_explorer_hwnd`: each poll enumerates the Explorer windows
    * and returns the first one that was not there before. */
  method FindNewExplorerHwnd(before: seq<int>, polls: seq<seq<Window>>) returns (r: Option<int>)
    ensures r == FirstNew(before, polls)
  {
    var p := 0;
    while p < |polls|
      invariant 0 <= p <= |polls|
      invariant FirstNew(before, polls) == FirstNew(before, polls[p..])
    {
      var hwnds := EnumExplorerHwnds(polls[p]);
      var i := 0;
      while i < |hwnds|
        invariant 0 <= i <= |hwnds|
        invariant FirstOutside(hwnds, before) == FirstOutside(hwnds[i..], before)
      {
        if hwnds[i] !in before {
          assert FirstNew(before, polls[p..]) == FirstOutside(hwnds, before);
          return Some(hwnds[i]);
        }
        assert hwnds[i..][1..] == hwnds[i + 1..];
        i := i + 1;
      }
      assert polls[p..][1..] == polls[p + 1..];
      p := p + 1;
    }
    r := None;
  }

  /** Python's truth value of `hwnd`: found and not zero. */
  predicate Truthy(found: Option<int>) {
    found.Some? && found.value != 0
  }

  // ---------------------------------------------------------------------
  // The frontmost Explorer window

  /** A Win32 `RECT`. */
  datatype WinRect = WinRect(left: int, top: int, right: int, bottom: int)

  /** `(x, y, w, h)` of a `RECT`. */
  function RectOf(w: WinRect): (r: Rect)
    ensures r.x == w.left && r.y == w.top
    ensures r.x + r.width == w.right && r.y + r.height == w.bottom
  {
    Rect(w.left, w.top, w.right - w.left, w.bottom - w.top)
  }

  /** The `RECT` of `(x, y, w, h)`. */
  function WinRectOf(r: Rect): WinRect {
    WinRect(r.x, r.y, r.x + r.width, r.y + r.height)
  }

  /** The conversion loses nothing, in either direction. */
  lemma RectRoundTrip(w: WinRect, r: Rect)
    ensures WinRectOf(RectOf(w)) == w
    ensures RectOf(WinRectOf(r)) == r
  {
  }

  /** `get_frontmost_explorer_rect`: the foreground window when it is an
    * Explorer window, else the first Explorer window enumerated; `None`
    * when there is none or `GetWindowRect` fails. `foreground` is what
    * `GetForegroundWindow` returns, `classOf` what `GetClassNameW`
    * reports, `getRect` the `RECT` `GetWindowRect` fills in. */
  function FrontmostExplorerRect(foreground: int, classOf: int -> string, windows: seq<Window>,
                                 getRect: int -> Option<WinRect>): (r: Option<Rect>)
    ensures foreground != 0 && classOf(foreground) == CABINET_CLASS ==>
              r == (if getRect(foreground).Some? then Some(RectOf(getRect(foreground).value)) else None)
    ensures !(foreground != 0 && classOf(foreground) == CABINET_CLASS) ==>
              var hs := ExplorerHandles(windows);
              r == (if hs != [] && getRect(hs[0]).Some? then Some(RectOf(getRect(hs[0]).value)) else None)
  {
    var target :=
      if foreground != 0 && classOf(foreground) == CABINET_CLASS then Some(foreground)
      else
        var hs := ExplorerHandles(windows);
        if hs == [] then None else Some(hs[0]);
    if target.None? then None
    else match getRect(target.value)
      case None => None
      case Some(w) => Some(RectOf(w))
  }

  /** Without any Explorer window there is no rectangle. */
  lemma NoExplorerNoRect(foreground: int, classOf: int -> string, windows: seq<Window>,
                         getRect: int -> Option<WinRect>)
    requires foreground == 0 || classOf(foreground) != CABINET_CLASS
    requires forall k :: 0 <= k < |windows| ==> windows[k].className != CABINET_CLASS
    ensures FrontmostExplorerRect(foreground, classOf, windows, getRect) == None
  {
    var hs := ExplorerHandles(windows);
    if hs != [] {
      ExplorerHandlesMembers(windows, hs[0]);
    }
  }

  // ---------------------------------------------------------------------
  // The operating system, as oracles

  /** The three ways of opening the folders, in the order they are tried. */
  datatype Tier = Uia | Ctypes | Separate

  /** What `addr_edit.get_value()` gave: a text, or an exception. */
  datatype ReadBack = Value(text: string) | ReadFailed

  /** The answers of Windows and pywinauto. Launches are keyed by the tier
    * and by the normalized path handed to `explorer.exe`. */
  datatype Os = Os(
    normpath: string -> string,                  // `os.path.normpath`
    hasPywinauto: bool,                          // `_check_pywinauto()`
    windowsBefore: (Tier, string) -> seq<Window>, // `EnumWindows` just before the launch
    polls: (Tier, string) -> seq<seq<Window>>,   // `EnumWindows` on each poll after it
    popen: (Tier, string) -> Option<string>,     // what `subprocess.Popen` raises
    connect: int -> Option<string>,              // what connecting pywinauto raises
    tabError: (Tier, string) -> Option<string>,  // what adding the tab for a path raises
    setTextFails: (string, nat) -> bool,         // `set_edit_text` raises on that attempt
    readBack: (string, nat) -> ReadBack)         // `get_value()` on that attempt

  /** Whether `on_progress` and `on_error` were given. */
  datatype Callbacks = Callbacks(onProgress: bool, onError: bool)

  /** What pywinauto sends to the new tab. */
  datatype UiaAction = CtrlT | CtrlL | SetText(text: string) | TypeKeys(text: string) | Enter

  /** What happened, in order. */
  datatype Event =
    | Launched(path: string)              // `explorer.exe path`
    | Connected(hwnd: int)                // pywinauto attached and focused
    | UiaTab(actions: seq<UiaAction>)     // one tab's keys and address-bar text
    | Foreground(hwnd: int)               // `_bring_to_foreground`
    | Sent(inputs: seq<KeyInput>)         // one tab's `SendInput` events
    | Moved(hwnd: int, rect: Rect)        // `_apply_window_rect`
    | Progress(index: nat, total: nat, path: string)
    | Error(path: string, message: string)

  /** How a tier ended: its return value, or the exception it raised; the
    * events are what it did before. */
  datatype TierResult =
    | Returned(ok: bool, events: seq<Event>)
    | Raised(events: seq<Event>, message: string)

  // ---------------------------------------------------------------------
  // Setting the address bar, with retries

  /** Attempt `k` (from 0) ends the retries: the read-back is a non-empty
    * text that normalizes to the target, or reading it back raised. */
  predicate Stops(os: Os, target: string, k: nat) {
    match os.readBack(target, k)
    case ReadFailed => true
    case Value(t) => t != [] && os.normpath(t) == target
  }

  /** The number of attempts made from attempt `k` on. */
  function AttemptsFrom(os: Os, target: string, k: nat): nat
    requires k < 3
    decreases 3 - k
  {
    if k == 2 || Stops(os, target, k) then k + 1 else AttemptsFrom(os, target, k + 1)
  }

  /** The number of attempts `_open_tabs_pywinauto_uia` makes. */
  function Attempts(os: Os, target: string): nat {
    AttemptsFrom(os, target, 0)
  }

  /** At most three attempts are made; every attempt but the last failed
    * to stop, and the last one stops unless it is the third. */
  lemma {:induction false} AttemptsSpec(os: Os, target: string)
    ensures 1 <= Attempts(os, target) <= 3
    ensures forall j :: 0 <= j < Attempts(os, target) - 1 ==> !Stops(os, target, j)
    ensures Attempts(os, target) < 3 ==> Stops(os, target, Attempts(os, target) - 1)
  {
  }

  /** How the text is entered on attempt `k`: through the value pattern,
    * or typed when that raises. */
  function SetAction(os: Os, target: string, k: nat): UiaAction {
    if os.setTextFails(target, k) then TypeKeys(target) else SetText(target)
  }

  /** Ctrl+L and the text, for each of the first `m` attempts. */
  function SetActions(os: Os, target: string, m: nat): (r: seq<UiaAction>)
    ensures |r| == 2 * m
  {
    if m == 0 then [] else SetActions(os, target, m - 1) + [CtrlL, SetAction(os, target, m - 1)]
  }

  /** The retry loop of one tab: up to three rounds of Ctrl+L, setting the
    * text and reading it back; `pathSet` tells whether a read-back ended
    * the rounds. */
  method RetrySetPath(os: Os, target: string) returns (actions: seq<UiaAction>, pathSet: bool)
    ensures actions == SetActions(os, target, Attempts(os, target))
    ensures pathSet == Stops(os, target, Attempts(os, target) - 1)
  {
    actions := [];
    pathSet := false;
    var attempt := 0;
    while attempt < 3
      invariant 0 <= attempt <= 3
      invariant actions == SetActions(os, target, attempt)
      invariant attempt < 3 ==> Attempts(os, target) == AttemptsFrom(os, target, attempt)
      invariant attempt == 3 ==> Attempts(os, target) == 3 && !Stops(os, target, 2)
    {
      actions := actions + [CtrlL, SetAction(os, target, attempt)];
      if Stops(os, target, attempt) {
        pathSet := true;
        return;
      }
      attempt := attempt + 1;
    }
  }

  /** Everything pywinauto sends for one tab: Ctrl+T, the attempts, and
    * Enter. */
  function UiaActions(os: Os, target: string): seq<UiaAction> {
    [CtrlT] + SetActions(os, target, Attempts(os, target)) + [Enter]
  }

  lemma {:induction false} SetActionsCounts(os: Os, target: string, m: nat)
    ensures Count(SetActions(os, target, m), Enter) == 0
    ensures Count(SetActions(os, target, m), CtrlL) == m
    ensures Count(SetActions(os, target, m), CtrlT) == 0
  {
    if m > 0 {
      var a := SetActions(os, target, m - 1);
      var b := [CtrlL, SetAction(os, target, m - 1)];
      SetActionsCounts(os, target, m - 1);
      CountConcat(a, b, Enter);
      CountConcat(a, b, CtrlL);
      CountConcat(a, b, CtrlT);
      assert b[1..][1..] == [];
    }
  }

  /** A tab gets Ctrl+T first, then one Ctrl+L per attempt (one to three
    * of them), and Enter exactly once, last, whether or not the path was
    * verified. */
  lemma UiaActionsShape(os: Os, target: string)
    ensures var a := UiaActions(os, target);
      && a[0] == CtrlT && a[|a| - 1] == Enter
      && Count(a, Enter) == 1 && Count(a, CtrlT) == 1
      && 1 <= Count(a, CtrlL) <= 3 && Count(a, CtrlL) == Attempts(os, target)
  {
    var m := Attempts(os, target);
    var s := SetActions(os, target, m);
    AttemptsSpec(os, target);
    SetActionsCounts(os, target, m);
    CountConcat([CtrlT], s, Enter);
    CountConcat([CtrlT] + s, [Enter], Enter);
    CountConcat([CtrlT], s, CtrlT);
    CountConcat([CtrlT] + s, [Enter], CtrlT);
    CountConcat([CtrlT], s, CtrlL);
    CountConcat([CtrlT] + s, [Enter], CtrlL);
  }

  // ---------------------------------------------------------------------
  // The tab tiers

  /** The `SendInput` events of one tab: Ctrl+T, Ctrl+L, the path typed,
    * Enter. */
  function CtypesTabInputs(target: string): (r: seq<KeyInput>)
    ensures |r| == 10 + 2 * |Utf16(target)|
  {
    TypedInputsShape(target);
    KeyCombo(VK_CONTROL, VK_T) + KeyCombo(VK_CONTROL, VK_L) + TypedInputs(target) + PressKey(VK_RETURN)
  }

  /** What the tab of `target` receives in a tab tier. */
  function TabInput(tier: Tier, os: Os, target: string): Event {
    if tier == Uia then UiaTab(UiaActions(os, target)) else Sent(CtypesTabInputs(target))
  }

  /** The loop body for path number `i` of `n`: the tab is added and
    * progress reported, or adding it raises and the error is reported. */
  function TabStep(tier: Tier, i: nat, n: nat, p: string, os: Os, cb: Callbacks): seq<Event> {
    match os.tabError(tier, p)
    case Some(e) => if cb.onError then [Error(p, e)] else []
    case None => [TabInput(tier, os, os.normpath(p))] + (if cb.onProgress then [Progress(i, n, p)] else [])
  }

  /** The events of the tab loop over `ps[1..m]`. */
  function TabLoopEvents(tier: Tier, ps: seq<string>, m: nat, os: Os, cb: Callbacks): seq<Event>
    requires 1 <= m <= |ps|
  {
    if m == 1 then [] else TabLoopEvents(tier, ps, m - 1, os, cb) + TabStep(tier, m, |ps|, ps[m - 1], os, cb)
  }

  /** The first path's progress. */
  function FirstProgress(ps: seq<string>, cb: Callbacks): seq<Event>
    requires |ps| >= 1
  {
    if cb.onProgress then [Progress(1, |ps|, ps[0])] else []
  }

  function MoveEvents(hwnd: int, rect: Option<Rect>): seq<Event> {
    if rect.Some? then [Moved(hwnd, rect.value)] else []
  }

  /** What a tab tier does once it holds the new window `hwnd`: attach to
    * it or bring it to the front, add the tabs, move it. */
  function WindowEvents(tier: Tier, ps: seq<string>, os: Os, cb: Callbacks, rect: Option<Rect>, hwnd: int): seq<Event>
    requires |ps| >= 1
  {
    [if tier == Uia then Connected(hwnd) else Foreground(hwnd)] + TabLoopEvents(tier, ps, |ps|, os, cb)
    + MoveEvents(hwnd, rect)
  }

  /** The window a tab tier finds after launching the first path. */
  function FoundWindow(tier: Tier, ps: seq<string>, os: Os): Option<int>
    requires |ps| >= 1
  {
    var first := os.normpath(ps[0]);
    FirstNew(ExplorerHandles(os.windowsBefore(tier, first)), os.polls(tier, first))
  }

  /** `_open_tabs_pywinauto_uia`: launch the first path and wait for its
    * window, report it, attach pywinauto, then add a tab per further path
    * and finally move the window. */
  function UiaTrace(ps: seq<string>, os: Os, cb: Callbacks, rect: Option<Rect>): (r: TierResult)
    requires |ps| >= 1
    ensures r.Returned? ==> r.ok
  {
    var first := os.normpath(ps[0]);
    match os.popen(Uia, first)
    case Some(e) => Raised([], e)
    case None =>
      var found := FoundWindow(Uia, ps, os);
      if !Truthy(found) then Raised([Launched(first)], NOT_FOUND)
      else
        var pre := [Launched(first)] + FirstProgress(ps, cb);
        if |ps| == 1 then Returned(true, pre)
        else match os.connect(found.value)
          case Some(e) => Raised(pre, e)
          case None =>
            Returned(true, pre + WindowEvents(Uia, ps, os, cb, rect, found.value))
  }

  /** `_open_tabs_ctypes`: launch the first path and report it, then find
    * its window, bring it to the front, add a tab per further path by
    * keystrokes, and finally move the window. */
  function CtypesTrace(ps: seq<string>, os: Os, cb: Callbacks, rect: Option<Rect>): (r: TierResult)
    requires |ps| >= 1
    ensures r.Returned? ==> r.ok
  {
    var first := os.normpath(ps[0]);
    match os.popen(Ctypes, first)
    case Some(e) => Raised([], e)
    case None =>
      var pre := [Launched(first)] + FirstProgress(ps, cb);
      if |ps| == 1 then Returned(true, pre)
      else
        var found := FoundWindow(Ctypes, ps, os);
        if !Truthy(found) then Raised(pre, NOT_FOUND)
        else
          Returned(true, pre + WindowEvents(Ctypes, ps, os, cb, rect, found.value))
  }

  /** What pywinauto sends to the tab of `target`. */
  method UiaTabInput(os: Os, target: string) returns (e: Event)
    ensures e == TabInput(Uia, os, target)
  {
    var actions, _ := RetrySetPath(os, target);
    e := UiaTab([CtrlT] + actions + [Enter]);
  }

  /** What `SendInput` sends to the tab of `target`. */
  method CtypesTabInput(os: Os, target: string) returns (e: Event)
    ensures e == TabInput(Ctypes, os, target)
  {
    var typed := TypeString(target);
    e := Sent(KeyCombo(VK_CONTROL, VK_T) + KeyCombo(VK_CONTROL, VK_L) + typed + PressKey(VK_RETURN));
  }

  /** One pass of the tab loop, for path number `i` of `n`. */
  method AddTab(tier: Tier, i: nat, n: nat, path: string, os: Os, cb: Callbacks) returns (step: seq<Event>)
    requires tier != Separate
    ensures step == TabStep(tier, i, n, path, os, cb)
  {
    step := [];
    var failure := os.tabError(tier, path);
    if failure.Some? {
      if cb.onError {
        step := [Error(path, failure.value)];
      }
      return;
    }
    var input;
    if tier == Uia {
      input := UiaTabInput(os, os.normpath(path));
    } else {
      input := CtypesTabInput(os, os.normpath(path));
    }
    step := [input];
    if cb.onProgress {
      step := step + [Progress(i, n, path)];
    }
  }

  /** The tab loop of a tab tier, from the second path on. */
  method TabLoop(tier: Tier, ps: seq<string>, os: Os, cb: Callbacks) returns (events: seq<Event>)
    requires |ps| >= 1 && tier != Separate
    ensures events == TabLoopEvents(tier, ps, |ps|, os, cb)
  {
    events := [];
    var i := 2;
    while i <= |ps|
      invariant 2 <= i <= |ps| + 1
      invariant events == TabLoopEvents(tier, ps, i - 1, os, cb)
    {
      var step := AddTab(tier, i, |ps|, ps[i - 1], os, cb);
      assert TabLoopEvents(tier, ps, i, os, cb) == TabLoopEvents(tier, ps, i - 1, os, cb) + step;
      events := events + step;
      i := i + 1;
    }
  }

  /** The part of a tab tier after the window was found. */
  method FillWindow(tier: Tier, ps: seq<string>, os: Os, cb: Callbacks, rect: Option<Rect>, hwnd: int)
    returns (events: seq<Event>)
    requires |ps| >= 1 && tier != Separate
    ensures events == WindowEvents(tier, ps, os, cb, rect, hwnd)
  {
    events := [if tier == Uia then Connected(hwnd) else Foreground(hwnd)];
    var tabs := TabLoop(tier, ps, os, cb);
    events := events + tabs;
    if rect.Some? {
      events := events + [Moved(hwnd, rect.value)];
    }
  }

  method OpenTabsUia(ps: seq<string>, os: Os, cb: Callbacks, rect: Option<Rect>) returns (r: TierResult)
    requires |ps| >= 1
    ensures r == UiaTrace(ps, os, cb, rect)
  {
    var before := EnumExplorerHwnds(os.windowsBefore(Uia, os.normpath(ps[0])));
    var first := os.normpath(ps[0]);
    var failure := os.popen(Uia, first);
    if failure.Some? {
      return Raised([], failure.value);
    }
    var events := [Launched(first)];
    var hwnd := FindNewExplorerHwnd(before, os.polls(Uia, first));
    assert hwnd == FoundWindow(Uia, ps, os);
    if !Truthy(hwnd) {
      return Raised(events, NOT_FOUND);
    }
    if cb.onProgress {
      events := events + [Progress(1, |ps|, ps[0])];
    }
    if |ps| == 1 {
      return Returned(true, events);
    }
    var refused := os.connect(hwnd.value);
    if refused.Some? {
      return Raised(events, refused.value);
    }
    var rest := FillWindow(Uia, ps, os, cb, rect, hwnd.value);
    return Returned(true, events + rest);
  }

  method OpenTabsCtypes(ps: seq<string>, os: Os, cb: Callbacks, rect: Option<Rect>) returns (r: TierResult)
    requires |ps| >= 1
    ensures r == CtypesTrace(ps, os, cb, rect)
  {
    var before := EnumExplorerHwnds(os.windowsBefore(Ctypes, os.normpath(ps[0])));
    var first := os.normpath(ps[0]);
    var failure := os.popen(Ctypes, first);
    if failure.Some? {
      return Raised([], failure.value);
    }
    var events := [Launched(first)];
    if cb.onProgress {
      events := events + [Progress(1, |ps|, ps[0])];
    }
    if |ps| == 1 {
      return Returned(true, events);
    }
    var hwnd := FindNewExplorerHwnd(before, os.polls(Ctypes, first));
    assert hwnd == FoundWindow(Ctypes, ps, os);
    if !Truthy(hwnd) {
      return Raised(events, NOT_FOUND);
    }
    var rest := FillWindow(Ctypes, ps, os, cb, rect, hwnd.value);
    return Returned(true, events + rest);
  }

  // ---------------------------------------------------------------------
  // Separate windows

  /** Where the separate tier moves the window of `target`: only with a
    * rectangle and a new window found. */
  function SeparateMove(target: string, os: Os, rect: Option<Rect>): (r: seq<Event>)
    ensures forall k :: 0 <= k < |r| ==> r[k].Moved?
  {
    if rect.None? then []
    else
      var found := FirstNew(ExplorerHandles(os.windowsBefore(Separate, target)), os.polls(Separate, target));
      if Truthy(found) then [Moved(found.value, rect.value)] else []
  }

  /** The separate tier moves at most one window, exactly when a rectangle
    * is given and a new Explorer window turned up, and that window is one
    * that was not there before the launch. */
  lemma SeparateMoveSpec(target: string, os: Os, rect: Option<Rect>)
    ensures var r := SeparateMove(target, os, rect);
      var before := ExplorerHandles(os.windowsBefore(Separate, target));
      var found := FirstNew(before, os.polls(Separate, target));
      && |r| <= 1
      && (r != [] <==> rect.Some? && Truthy(found))
      && (r != [] ==> r[0] == Moved(found.value, rect.value) && found.value !in before)
  {
    FirstNewSpec(ExplorerHandles(os.windowsBefore(Separate, target)), os.polls(Separate, target));
  }

  /** The loop body of `_open_tabs_separate` for path number `i` of `n`. */
  function SeparateStep(i: nat, n: nat, p: string, os: Os, cb: Callbacks, rect: Option<Rect>): seq<Event> {
    var target := os.normpath(p);
    match os.popen(Separate, target)
    case Some(e) => if cb.onError then [Error(p, e)] else []
    case None =>
      [Launched(target)] + SeparateMove(target, os, rect) + (if cb.onProgress then [Progress(i, n, p)] else [])
  }

  /** A step reports progress only for its own path, once launched. */
  lemma SeparateStepProgress(i: nat, n: nat, p: string, os: Os, cb: Callbacks, rect: Option<Rect>, x: Event)
    requires x.Progress?
    ensures x in SeparateStep(i, n, p, os, cb, rect)
            <==> cb.onProgress && os.popen(Separate, os.normpath(p)).None? && x == Progress(i, n, p)
  {
    SeparateMoveOnly(os.normpath(p), os, rect, x);
  }

  /** A step reports an error only for its own path, when the launch raised. */
  lemma SeparateStepErrors(i: nat, n: nat, p: string, os: Os, cb: Callbacks, rect: Option<Rect>, x: Event)
    requires x.Error?
    ensures x in SeparateStep(i, n, p, os, cb, rect)
            <==> cb.onError && os.popen(Separate, os.normpath(p)) == Some(x.message) && x.path == p
  {
    SeparateMoveOnly(os.normpath(p), os, rect, x);
  }

  /** A step launches only its own normalized path. */
  lemma SeparateStepLaunches(i: nat, n: nat, p: string, os: Os, cb: Callbacks, rect: Option<Rect>, x: Event)
    requires x.Launched?
    ensures x in SeparateStep(i, n, p, os, cb, rect)
            <==> os.popen(Separate, os.normpath(p)).None? && x.path == os.normpath(p)
  {
    SeparateMoveOnly(os.normpath(p), os, rect, x);
  }

  lemma SeparateStepNoUia(i: nat, n: nat, p: string, os: Os, cb: Callbacks, rect: Option<Rect>, x: Event)
    requires x.UiaTab?
    ensures x !in SeparateStep(i, n, p, os, cb, rect)
  {
    SeparateMoveOnly(os.normpath(p), os, rect, x);
  }

  lemma SeparateMoveOnly(target: string, os: Os, rect: Option<Rect>, x: Event)
    requires !x.Moved?
    ensures x !in SeparateMove(target, os, rect)
  {
    var moves := SeparateMove(target, os, rect);
    assert forall k :: 0 <= k < |moves| ==> moves[k] != x;
  }

  /** The events of `_open_tabs_separate` for the first `m` paths. */
  function SeparateEvents(ps: seq<string>, m: nat, os: Os, cb: Callbacks, rect: Option<Rect>): seq<Event>
    requires m <= |ps|
  {
    if m == 0 then [] else SeparateEvents(ps, m - 1, os, cb, rect) + SeparateStep(m, |ps|, ps[m - 1], os, cb, rect)
  }

  /** One pass of `_open_tabs_separate`, for path number `i` of `n`. */
  method OpenWindow(i: nat, n: nat, path: string, os: Os, cb: Callbacks, rect: Option<Rect>) returns (step: seq<Event>)
    ensures step == SeparateStep(i, n, path, os, cb, rect)
  {
    var target := os.normpath(path);
    var before: seq<int> := [];
    if rect.Some? {
      before := EnumExplorerHwnds(os.windowsBefore(Separate, target));
    }
    var failure := os.popen(Separate, target);
    if failure.Some? {
      step := if cb.onError then [Error(path, failure.value)] else [];
      return;
    }
    step := [Launched(target)];
    if rect.Some? {
      var hwnd := FindNewExplorerHwnd(before, os.polls(Separate, target));
      if Truthy(hwnd) {
        step := step + [Moved(hwnd.value, rect.value)];
      }
    }
    if cb.onProgress {
      step := step + [Progress(i, n, path)];
    }
  }

  /** `_open_tabs_separate`: each path in a window of its own; always
    * true. */
  method OpenTabsSeparate(ps: seq<string>, os: Os, cb: Callbacks, rect: Option<Rect>)
    returns (ok: bool, events: seq<Event>)
    ensures ok
    ensures events == SeparateEvents(ps, |ps|, os, cb, rect)
  {
    events := [];
    var i := 1;
    while i <= |ps|
      invariant 1 <= i <= |ps| + 1
      invariant events == SeparateEvents(ps, i - 1, os, cb, rect)
    {
      var step := OpenWindow(i, |ps|, ps[i - 1], os, cb, rect);
      events := events + step;
      i := i + 1;
    }
    ok := true;
  }

  // ---------------------------------------------------------------------
  // Dispatch

  /** The result and events of `open_folders_as_tabs`. */
  function TabsTrace(paths: seq<string>, os: Os, cb: Callbacks, rect: Option<Rect>): (r: (bool, seq<Event>))
    ensures r.0 <==> paths != []
    ensures paths == [] ==> r.1 == []
  {
    if paths == [] then (false, [])
    else
      var ps := Dedup(paths);
      var uia := if os.hasPywinauto then UiaTrace(ps, os, cb, rect) else Raised([], "");
      if uia.Returned? then (uia.ok, uia.events)
      else
        var ctypes := CtypesTrace(ps, os, cb, rect);
        if ctypes.Returned? then (ctypes.ok, uia.events + ctypes.events)
        else (true, uia.events + ctypes.events + SeparateEvents(ps, |ps|, os, cb, rect))
  }

  /** `open_folders_as_tabs`: nothing for no paths; else the paths without
    * repeats are tried with pywinauto (when installed), then with
    * `SendInput`, then as separate windows, until one tier returns. */
  method OpenFoldersAsTabs(paths: seq<string>, os: Os, cb: Callbacks, rect: Option<Rect>)
    returns (ok: bool, events: seq<Event>)
    ensures (ok, events) == TabsTrace(paths, os, cb, rect)
  {
    if paths == [] {
      return false, [];
    }
    var ps := Dedup(paths);
    events := [];
    if os.hasPywinauto {
      var uia := OpenTabsUia(ps, os, cb, rect);
      if uia.Returned? {
        return uia.ok, uia.events;
      }
      events := uia.events;
    }
    var ctypes := OpenTabsCtypes(ps, os, cb, rect);
    if ctypes.Returned? {
      return ctypes.ok, events + ctypes.events;
    }
    events := events + ctypes.events;
    var separate;
    ok, separate := OpenTabsSeparate(ps, os, cb, rect);
    events := events + separate;
  }

  // ---------------------------------------------------------------------
  // Properties

  /** Every event of a tab step names that step's path. */
  lemma TabStepMentions(tier: Tier, i: nat, n: nat, p: string, os: Os, cb: Callbacks, x: Event)
    ensures x.Progress? ==>
              (x in TabStep(tier, i, n, p, os, cb)
               <==> cb.onProgress && os.tabError(tier, p).None? && x == Progress(i, n, p))
    ensures x.Error? ==>
              (x in TabStep(tier, i, n, p, os, cb)
               <==> cb.onError && os.tabError(tier, p) == Some(x.message) && x.path == p)
    ensures tier == Ctypes && x.UiaTab? ==> x !in TabStep(tier, i, n, p, os, cb)
  {
  }

  /** In the tab loop, progress `(i, n, p)` is reported exactly for a
    * later path `p = ps[i - 1]` whose tab was added. */
  lemma {:induction false} TabLoopProgress(tier: Tier, ps: seq<string>, m: nat, os: Os, cb: Callbacks,
                                           i: nat, n: nat, p: string)
    requires 1 <= m <= |ps|
    ensures Progress(i, n, p) in TabLoopEvents(tier, ps, m, os, cb)
            <==> && cb.onProgress && 2 <= i <= m && n == |ps| && p == ps[i - 1]
                 && os.tabError(tier, p).None?
  {
    if m > 1 {
      TabLoopProgress(tier, ps, m - 1, os, cb, i, n, p);
      TabStepMentions(tier, m, |ps|, ps[m - 1], os, cb, Progress(i, n, p));
    }
  }

  /** In the tab loop, an error is reported exactly for a later path
    * whose tab addition raised, with the exception's text. */
  lemma {:induction false} TabLoopErrors(tier: Tier, ps: seq<string>, m: nat, os: Os, cb: Callbacks,
                                         p: string, e: string)
    requires 1 <= m <= |ps|
    ensures Error(p, e) in TabLoopEvents(tier, ps, m, os, cb)
            <==> cb.onError && os.tabError(tier, p) == Some(e) && p in ps[1..m]
  {
    if m > 1 {
      TabLoopErrors(tier, ps, m - 1, os, cb, p, e);
      TabStepMentions(tier, m, |ps|, ps[m - 1], os, cb, Error(p, e));
      assert TabLoopEvents(tier, ps, m, os, cb)
             == TabLoopEvents(tier, ps, m - 1, os, cb) + TabStep(tier, m, |ps|, ps[m - 1], os, cb);
      assert ps[1..m] == ps[1..m - 1] + [ps[m - 1]];
    }
  }

  lemma {:induction false} NoUiaInTabLoop(ps: seq<string>, m: nat, os: Os, cb: Callbacks, a: seq<UiaAction>)
    requires 1 <= m <= |ps|
    ensures UiaTab(a) !in TabLoopEvents(Ctypes, ps, m, os, cb)
  {
    if m > 1 {
      NoUiaInTabLoop(ps, m - 1, os, cb, a);
      TabStepMentions(Ctypes, m, |ps|, ps[m - 1], os, cb, UiaTab(a));
    }
  }

  /** After the window is found, progress, errors and address-bar text
    * come from the tab loop alone. */
  lemma WindowEventsFromLoop(tier: Tier, ps: seq<string>, os: Os, cb: Callbacks, rect: Option<Rect>, hwnd: int, x: Event)
    requires |ps| >= 1
    requires x.Progress? || x.Error? || x.UiaTab?
    ensures x in WindowEvents(tier, ps, os, cb, rect, hwnd) <==> x in TabLoopEvents(tier, ps, |ps|, os, cb)
  {
  }

  /** A tab tier, either one. */
  function TierTrace(tier: Tier, ps: seq<string>, os: Os, cb: Callbacks, rect: Option<Rect>): TierResult
    requires |ps| >= 1
  {
    if tier == Uia then UiaTrace(ps, os, cb, rect) else CtypesTrace(ps, os, cb, rect)
  }

  /** A tab tier that returns has launched the first path and reported
    * it, and with further paths then found the window and filled it. */
  lemma TierShape(tier: Tier, ps: seq<string>, os: Os, cb: Callbacks, rect: Option<Rect>)
    requires |ps| >= 1 && tier != Separate
    requires TierTrace(tier, ps, os, cb, rect).Returned?
    ensures |ps| > 1 ==> Truthy(FoundWindow(tier, ps, os))
    ensures var pre := [Launched(os.normpath(ps[0]))] + FirstProgress(ps, cb);
      TierTrace(tier, ps, os, cb, rect).events
      == if |ps| == 1 then pre else pre + WindowEvents(tier, ps, os, cb, rect, FoundWindow(tier, ps, os).value)
  {
  }

  /** A tab tier that returns reports progress `(1, n, ps[0])` for the
    * first path and `(i, n, ps[i - 1])` for each later path whose tab was
    * added, and nothing else. */
  lemma TierProgress(tier: Tier, ps: seq<string>, os: Os, cb: Callbacks, rect: Option<Rect>,
                     i: nat, n: nat, p: string)
    requires |ps| >= 1 && tier != Separate
    requires TierTrace(tier, ps, os, cb, rect).Returned?
    ensures Progress(i, n, p) in TierTrace(tier, ps, os, cb, rect).events
            <==> && cb.onProgress && 1 <= i <= |ps| && n == |ps| && p == ps[i - 1]
                 && (i == 1 || os.tabError(tier, p).None?)
  {
    TierShape(tier, ps, os, cb, rect);
    TabLoopProgress(tier, ps, |ps|, os, cb, i, n, p);
    if |ps| > 1 {
      WindowEventsFromLoop(tier, ps, os, cb, rect, FoundWindow(tier, ps, os).value, Progress(i, n, p));
    }
  }

  /** A tab tier that returns reports an error exactly for a later path
    * whose tab addition raised. */
  lemma TierErrors(tier: Tier, ps: seq<string>, os: Os, cb: Callbacks, rect: Option<Rect>, p: string, e: string)
    requires |ps| >= 1 && tier != Separate
    requires TierTrace(tier, ps, os, cb, rect).Returned?
    ensures Error(p, e) in TierTrace(tier, ps, os, cb, rect).events
            <==> cb.onError && os.tabError(tier, p) == Some(e) && p in ps[1..]
  {
    TierShape(tier, ps, os, cb, rect);
    TabLoopErrors(tier, ps, |ps|, os, cb, p, e);
    var events := TierTrace(tier, ps, os, cb, rect).events;
    var pre := [Launched(os.normpath(ps[0]))] + FirstProgress(ps, cb);
    assert Error(p, e) !in pre;
    if |ps| > 1 {
      var w := WindowEvents(tier, ps, os, cb, rect, FoundWindow(tier, ps, os).value);
      WindowEventsFromLoop(tier, ps, os, cb, rect, FoundWindow(tier, ps, os).value, Error(p, e));
      assert events == pre + w;
    }
    assert ps[1..|ps|] == ps[1..];
  }

  /** With a single path a tab tier that returns has launched it and
    * reported it, and done nothing more. */
  lemma TierSinglePath(tier: Tier, p: string, os: Os, cb: Callbacks, rect: Option<Rect>)
    requires tier != Separate
    requires TierTrace(tier, [p], os, cb, rect).Returned?
    ensures TierTrace(tier, [p], os, cb, rect).events
            == [Launched(os.normpath(p))] + (if cb.onProgress then [Progress(1, 1, p)] else [])
  {
  }

  /** A tab tier that cannot launch the first path raises before doing
    * anything. */
  lemma TierLaunchFails(tier: Tier, ps: seq<string>, os: Os, cb: Callbacks, rect: Option<Rect>)
    requires |ps| >= 1 && tier != Separate
    requires os.popen(tier, os.normpath(ps[0])).Some?
    ensures TierTrace(tier, ps, os, cb, rect) == Raised([], os.popen(tier, os.normpath(ps[0])).value)
  {
  }

  /** The tab tiers raise when the new window does not show up: pywinauto
    * always, and `SendInput` when there is a second path to add. */
  lemma TierWindowMissing(tier: Tier, ps: seq<string>, os: Os, cb: Callbacks, rect: Option<Rect>)
    requires |ps| >= 1 && tier != Separate
    requires os.popen(tier, os.normpath(ps[0])).None?
    requires !Truthy(FoundWindow(tier, ps, os))
    requires tier == Ctypes ==> |ps| >= 2
    ensures TierTrace(tier, ps, os, cb, rect).Raised?
    ensures TierTrace(tier, ps, os, cb, rect).message == NOT_FOUND
  {
  }

  /** The progress of the separate tier: `(i, n, p)` exactly when path
    * `p = ps[i - 1]` was launched. */
  lemma {:induction false} SeparateProgress(ps: seq<string>, m: nat, os: Os, cb: Callbacks, rect: Option<Rect>,
                                            i: nat, n: nat, p: string)
    requires m <= |ps|
    ensures Progress(i, n, p) in SeparateEvents(ps, m, os, cb, rect)
            <==> && cb.onProgress && 1 <= i <= m && n == |ps| && p == ps[i - 1]
                 && os.popen(Separate, os.normpath(p)).None?
  {
    if m > 0 {
      SeparateProgress(ps, m - 1, os, cb, rect, i, n, p);
      SeparateStepProgress(m, |ps|, ps[m - 1], os, cb, rect, Progress(i, n, p));
    }
  }

  /** The separate tier reports an error exactly for a path whose launch
    * raised. */
  lemma {:induction false} SeparateErrors(ps: seq<string>, m: nat, os: Os, cb: Callbacks, rect: Option<Rect>,
                                          p: string, e: string)
    requires m <= |ps|
    ensures Error(p, e) in SeparateEvents(ps, m, os, cb, rect)
            <==> cb.onError && os.popen(Separate, os.normpath(p)) == Some(e) && p in ps[..m]
  {
    if m > 0 {
      var prev := SeparateEvents(ps, m - 1, os, cb, rect);
      var step := SeparateStep(m, |ps|, ps[m - 1], os, cb, rect);
      SeparateErrors(ps, m - 1, os, cb, rect, p, e);
      SeparateStepErrors(m, |ps|, ps[m - 1], os, cb, rect, Error(p, e));
      assert SeparateEvents(ps, m, os, cb, rect) == prev + step;
      assert Error(p, e) in prev + step <==> Error(p, e) in prev || Error(p, e) in step;
      InPrefixStep(ps, m, p);
    }
  }

  lemma InPrefixStep(ps: seq<string>, m: nat, p: string)
    requires 0 < m <= |ps|
    ensures p in ps[..m] <==> p in ps[..m - 1] || p == ps[m - 1]
  {
    if p in ps[..m] {
      var k :| 0 <= k < m && ps[..m][k] == p;
      if k < m - 1 { assert ps[..m - 1][k] == p; }
    }
    if p in ps[..m - 1] {
      var k :| 0 <= k < m - 1 && ps[..m - 1][k] == p;
      assert ps[..m][k] == p;
    }
    assert ps[..m][m - 1] == ps[m - 1];
  }

  /** The separate tier launches `explorer.exe` exactly for the normalized
    * paths whose launch did not raise. */
  lemma {:induction false} SeparateLaunches(ps: seq<string>, m: nat, os: Os, cb: Callbacks, rect: Option<Rect>,
                                            target: string)
    requires m <= |ps|
    ensures Launched(target) in SeparateEvents(ps, m, os, cb, rect)
            <==> os.popen(Separate, target).None? && exists k :: 0 <= k < m && os.normpath(ps[k]) == target
  {
    if m > 0 {
      var prev := SeparateEvents(ps, m - 1, os, cb, rect);
      var step := SeparateStep(m, |ps|, ps[m - 1], os, cb, rect);
      SeparateLaunches(ps, m - 1, os, cb, rect, target);
      SeparateStepLaunches(m, |ps|, ps[m - 1], os, cb, rect, Launched(target));
      assert SeparateEvents(ps, m, os, cb, rect) == prev + step;
      assert Launched(target) in prev + step <==> Launched(target) in prev || Launched(target) in step;
      if exists k :: 0 <= k < m && os.normpath(ps[k]) == target {
        var k :| 0 <= k < m && os.normpath(ps[k]) == target;
        if k < m - 1 {
          assert exists k :: 0 <= k < m - 1 && os.normpath(ps[k]) == target;
        }
      }
    }
  }

  lemma {:induction false} NoUiaInSeparate(ps: seq<string>, m: nat, os: Os, cb: Callbacks, rect: Option<Rect>, a: seq<UiaAction>)
    requires m <= |ps|
    ensures UiaTab(a) !in SeparateEvents(ps, m, os, cb, rect)
  {
    if m > 0 {
      NoUiaInSeparate(ps, m - 1, os, cb, rect, a);
      SeparateStepNoUia(m, |ps|, ps[m - 1], os, cb, rect, UiaTab(a));
    }
  }

  /** Without pywinauto no address-bar text is set: the tabs, if any, are
    * typed. */
  lemma NoUiaWithoutPywinauto(paths: seq<string>, os: Os, cb: Callbacks, rect: Option<Rect>, a: seq<UiaAction>)
    requires !os.hasPywinauto
    ensures UiaTab(a) !in TabsTrace(paths, os, cb, rect).1
  {
    if paths != [] {
      var ps := Dedup(paths);
      var c := CtypesTrace(ps, os, cb, rect);
      if c.Returned? {
        TierShape(Ctypes, ps, os, cb, rect);
        NoUiaInTabLoop(ps, |ps|, os, cb, a);
        if |ps| > 1 {
          WindowEventsFromLoop(Ctypes, ps, os, cb, rect, FoundWindow(Ctypes, ps, os).value, UiaTab(a));
        }
      } else {
        NoUiaInSeparate(ps, |ps|, os, cb, rect, a);
        assert c.events == [] || c.events == [Launched(os.normpath(ps[0]))] + FirstProgress(ps, cb);
      }
    }
  }

  /** A tier that returns ends the call: when pywinauto manages, nothing
    * else runs; when it raises (or is missing) and `SendInput` manages,
    * the trace is what the first tier did before raising followed by the
    * second. */
  lemma TabsTierOrder(paths: seq<string>, os: Os, cb: Callbacks, rect: Option<Rect>)
    requires paths != []
    ensures var ps := Dedup(paths);
      var uia := UiaTrace(ps, os, cb, rect);
      var ctypes := CtypesTrace(ps, os, cb, rect);
      var head := if os.hasPywinauto then uia.events else [];
      && (os.hasPywinauto && uia.Returned? ==> TabsTrace(paths, os, cb, rect) == (true, uia.events))
      && (!(os.hasPywinauto && uia.Returned?) && ctypes.Returned? ==>
            TabsTrace(paths, os, cb, rect) == (true, head + ctypes.events))
      && (!(os.hasPywinauto && uia.Returned?) && ctypes.Raised? ==>
            TabsTrace(paths, os, cb, rect) == (true, head + ctypes.events + SeparateEvents(ps, |ps|, os, cb, rect)))
  {
  }

  /** When both tab tiers raise, every path (without repeats) is tried in
    * a window of its own, and reported as progress exactly when its
    * window was launched. */
  lemma TabsFallBackToWindows(paths: seq<string>, os: Os, cb: Callbacks, rect: Option<Rect>, i: nat, p: string)
    requires paths != []
    requires !os.hasPywinauto || UiaTrace(Dedup(paths), os, cb, rect).Raised?
    requires CtypesTrace(Dedup(paths), os, cb, rect).Raised?
    requires 1 <= i <= |Dedup(paths)| && p == Dedup(paths)[i - 1]
    ensures cb.onProgress && os.popen(Separate, os.normpath(p)).None? ==>
              Progress(i, |Dedup(paths)|, p) in TabsTrace(paths, os, cb, rect).1
    ensures os.popen(Separate, os.normpath(p)).None? ==>
              Launched(os.normpath(p)) in TabsTrace(paths, os, cb, rect).1
  {
    var ps := Dedup(paths);
    SeparateProgress(ps, |ps|, os, cb, rect, i, |ps|, p);
    SeparateLaunches(ps, |ps|, os, cb, rect, os.normpath(p));
  }
}
