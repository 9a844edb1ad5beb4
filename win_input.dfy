/**
 * The keyboard input records the Windows opener hands to `SendInput`:
 * presses of virtual keys, modifier combinations, and text typed as
 * Unicode key events.
 *
 * `SendInput` with `KEYEVENTF_UNICODE` takes one UTF-16 code unit per
 * event in the 16-bit `wScan` field. The text is typed one Python
 * character (one code point) at a time, and `ord(char)` is stored into
 * that field, which keeps only the low 16 bits of a code point above
 * U+FFFF. `TypedInputsAsWritten` models that; `TypedInputs` sends the
 * UTF-16 code units of each character instead, and is what the rest of
 * the model uses.
 */
module WinInput {
  import opened Wrappers

  const INPUT_KEYBOARD: nat := 1
  const KEYEVENTF_KEYUP: bv32 := 0x0002
  const KEYEVENTF_UNICODE: bv32 := 0x0004

  const VK_CONTROL: Word := 0x11
  const VK_RETURN: Word := 0x0D
  const VK_T: Word := 0x54
  const VK_L: Word := 0x4C

  /** A Win32 `WORD`. */
  type Word = n: nat | n < 0x1_0000

  /** One `INPUT` record of type keyboard: its `type`, `wVk`, `wScan` and
    * `dwFlags`; `time` and `dwExtraInfo` stay zero. */
  datatype KeyInput = KeyInput(inputType: nat, vk: Word, scan: Word, flags: bv32)

  predicate IsKeyUp(i: KeyInput) { i.flags & KEYEVENTF_KEYUP != 0 }
  predicate IsUnicode(i: KeyInput) { i.flags & KEYEVENTF_UNICODE != 0 }

  /** A press (`up` false) or release of virtual key `vk`. */
  predicate IsVirtualKey(i: KeyInput, vk: Word, up: bool) {
    i.inputType == INPUT_KEYBOARD && i.vk == vk && !IsUnicode(i) && IsKeyUp(i) == up
  }

  /** A press or release of the UTF-16 code unit `unit`. */
  predicate IsUnitKey(i: KeyInput, unit: Word, up: bool) {
    i.inputType == INPUT_KEYBOARD && i.vk == 0 && i.scan == unit && IsUnicode(i) && IsKeyUp(i) == up
  }

  /** `_make_key_input(vk, flags)` with `flags` 0 or `KEYEVENTF_KEYUP`. */
  function MakeKeyInput(vk: Word, up: bool): (r: KeyInput)
    ensures IsVirtualKey(r, vk, up)
  {
    KeyInput(INPUT_KEYBOARD, vk, 0, if up then KEYEVENTF_KEYUP else 0)
  }

  /** `_send_key_combo(m, k)`: modifier down, key down, key up, modifier up. */
  function KeyCombo(modifier: Word, key: Word): (r: seq<KeyInput>)
    ensures |r| == 4
    ensures IsVirtualKey(r[0], modifier, false) && IsVirtualKey(r[1], key, false)
    ensures IsVirtualKey(r[2], key, true) && IsVirtualKey(r[3], modifier, true)
  {
    [MakeKeyInput(modifier, false), MakeKeyInput(key, false), MakeKeyInput(key, true), MakeKeyInput(modifier, true)]
  }

  /** `_press_key(vk)`: down, then up. */
  function PressKey(vk: Word): (r: seq<KeyInput>)
    ensures |r| == 2 && IsVirtualKey(r[0], vk, false) && IsVirtualKey(r[1], vk, true)
  {
    [MakeKeyInput(vk, false), MakeKeyInput(vk, true)]
  }

  // ---------------------------------------------------------------------
  // UTF-16

  function IsHighSurrogate(u: Word): bool { 0xD800 <= u <= 0xDBFF }
  function IsLowSurrogate(u: Word): bool { 0xDC00 <= u <= 0xDFFF }

  /** The UTF-16 code units of one character. */
  function Utf16Char(c: char): (r: seq<Word>)
    ensures |r| == (if c as int < 0x1_0000 then 1 else 2)
  {
    var n := c as int;
    if n < 0x1_0000 then [n]
    else [0xD800 + (n - 0x1_0000) / 0x400, 0xDC00 + (n - 0x1_0000) % 0x400]
  }

  function Utf16(t: string): (r: seq<Word>)
    ensures |r| >= |t|
  {
    if t == [] then [] else Utf16Char(t[0]) + Utf16(t[1..])
  }

  function PrependChar(c: char, o: Option<string>): Option<string> {
    if o.Some? then Some([c] + o.value) else None
  }

  /** Decoding UTF-16: a high surrogate must be followed by a low one, and
    * a low one may not stand alone. */
  function Utf16Decode(u: seq<Word>): Option<string>
    decreases |u|
  {
    if u == [] then Some([])
    else if IsHighSurrogate(u[0]) then
      if |u| >= 2 && IsLowSurrogate(u[1]) then
        var n := 0x1_0000 + (u[0] as int - 0xD800) * 0x400 + (u[1] as int - 0xDC00);
        PrependChar(n as char, Utf16Decode(u[2..]))
      else None
    else if IsLowSurrogate(u[0]) then None
    else PrependChar(u[0] as char, Utf16Decode(u[1..]))
  }

  lemma Utf16DecodeChar(c: char, rest: seq<Word>)
    ensures Utf16Decode(Utf16Char(c) + rest) == PrependChar(c, Utf16Decode(rest))
  {
    var n := c as int;
    var u := Utf16Char(c) + rest;
    if n >= 0x1_0000 {
      var q, r := (n - 0x1_0000) / 0x400, (n - 0x1_0000) % 0x400;
      assert n == 0x1_0000 + q * 0x400 + r;
      assert u[2..] == rest;
    } else {
      assert u[1..] == rest;
    }
  }

  /** Decoding the UTF-16 form of a text gives the text back. */
  lemma {:induction false} Utf16RoundTrip(t: string)
    ensures Utf16Decode(Utf16(t)) == Some(t)
  {
    if t != [] {
      Utf16DecodeChar(t[0], Utf16(t[1..]));
      Utf16RoundTrip(t[1..]);
      assert [t[0]] + t[1..] == t;
    }
  }

  lemma {:induction false} Utf16Concat(a: string, b: string)
    ensures Utf16(a + b) == Utf16(a) + Utf16(b)
  {
    if a != [] {
      assert (a + b)[1..] == a[1..] + b;
      Utf16Concat(a[1..], b);
    } else {
      assert a + b == b;
    }
  }

  /** A text with no character above U+FFFF. */
  predicate BmpOnly(t: string) {
    forall k :: 0 <= k < |t| ==> t[k] as int < 0x1_0000
  }

  lemma {:induction false} Utf16OfBmp(t: string)
    requires BmpOnly(t)
    ensures |Utf16(t)| == |t|
    ensures forall k :: 0 <= k < |t| ==> Utf16(t)[k] == t[k] as int
  {
    if t != [] {
      assert BmpOnly(t[1..]) by {
        forall k | 0 <= k < |t[1..]| ensures t[1..][k] as int < 0x1_0000 {
          assert t[1..][k] == t[k + 1];
        }
      }
      Utf16OfBmp(t[1..]);
    }
  }

  // ---------------------------------------------------------------------
  // Typing text

  /** A down/up pair of Unicode events for each code unit. */
  function UnitInputs(u: seq<Word>): (r: seq<KeyInput>)
    ensures |r| == 2 * |u|
  {
    if u == [] then []
    else [KeyInput(INPUT_KEYBOARD, 0, u[0], KEYEVENTF_UNICODE), KeyInput(INPUT_KEYBOARD, 0, u[0], KEYEVENTF_UNICODE | KEYEVENTF_KEYUP)]
         + UnitInputs(u[1..])
  }

  lemma {:induction false} UnitInputsConcat(a: seq<Word>, b: seq<Word>)
    ensures UnitInputs(a + b) == UnitInputs(a) + UnitInputs(b)
  {
    if a != [] {
      assert (a + b)[1..] == a[1..] + b;
      UnitInputsConcat(a[1..], b);
    } else {
      assert a + b == b;
    }
  }

  lemma {:induction false} UnitInputsAt(u: seq<Word>, k: nat)
    requires k < |u|
    ensures IsUnitKey(UnitInputs(u)[2 * k], u[k], false)
    ensures IsUnitKey(UnitInputs(u)[2 * k + 1], u[k], true)
  {
    if k > 0 {
      UnitInputsAt(u[1..], k - 1);
    }
  }

  /** The events typing `text` sends: each character's UTF-16 code units,
    * every one pressed and released. */
  function TypedInputs(text: string): seq<KeyInput> {
    UnitInputs(Utf16(text))
  }

  /** `_type_string`, sending each character's code units. */
  method TypeString(text: string) returns (sent: seq<KeyInput>)
    ensures sent == TypedInputs(text)
  {
    sent := [];
    var i := 0;
    while i < |text|
      invariant 0 <= i <= |text|
      invariant sent == TypedInputs(text[..i])
    {
      var c := text[i];
      assert text[..i + 1] == text[..i] + [c];
      assert Utf16([c]) == Utf16Char(c) + Utf16([]) == Utf16Char(c);
      Utf16Concat(text[..i], [c]);
      UnitInputsConcat(Utf16(text[..i]), Utf16Char(c));
      sent := sent + UnitInputs(Utf16Char(c));
      i := i + 1;
    }
    assert text[..i] == text;
  }

  /** Typing sends two events per code unit: code unit `k` is pressed at
    * event `2 k` and released at event `2 k + 1`; for text without
    * characters above U+FFFF that is `2 * |text|` events, one pair per
    * character. */
  lemma TypedInputsShape(text: string)
    ensures |TypedInputs(text)| == 2 * |Utf16(text)|
    ensures forall k :: 0 <= k < |Utf16(text)| ==>
              IsUnitKey(TypedInputs(text)[2 * k], Utf16(text)[k], false)
              && IsUnitKey(TypedInputs(text)[2 * k + 1], Utf16(text)[k], true)
    ensures BmpOnly(text) ==> |TypedInputs(text)| == 2 * |text|
  {
    forall k | 0 <= k < |Utf16(text)|
      ensures IsUnitKey(TypedInputs(text)[2 * k], Utf16(text)[k], false)
              && IsUnitKey(TypedInputs(text)[2 * k + 1], Utf16(text)[k], true)
    {
      UnitInputsAt(Utf16(text), k);
    }
    if BmpOnly(text) {
      Utf16OfBmp(text);
    }
  }

  /** The code units of the key-down events, in order. */
  function PressedUnits(inputs: seq<KeyInput>): seq<Word> {
    if inputs == [] then []
    else (if IsKeyUp(inputs[0]) then [] else [inputs[0].scan]) + PressedUnits(inputs[1..])
  }

  lemma {:induction false} PressedUnitsOfUnitInputs(u: seq<Word>)
    ensures PressedUnits(UnitInputs(u)) == u
  {
    if u != [] {
      var r := UnitInputs(u);
      assert r[1..][1..] == UnitInputs(u[1..]);
      PressedUnitsOfUnitInputs(u[1..]);
      assert [u[0]] + u[1..] == u;
    }
  }

  /** What the typed events spell, decoded as UTF-16, is the text itself. */
  lemma TypedInputsSpellText(text: string)
    ensures Utf16Decode(PressedUnits(TypedInputs(text))) == Some(text)
  {
    PressedUnitsOfUnitInputs(Utf16(text));
    Utf16RoundTrip(text);
  }

  // ---------------------------------------------------------------------
  // As written

  /** `_make_unicode_input(char, flags)`: `ord(char)` stored into the
    * 16-bit `wScan`, which keeps its low 16 bits. */
  function MakeUnicodeInputAsWritten(c: char, up: bool): (r: KeyInput)
    ensures r.vk == 0 && IsUnicode(r) && (IsKeyUp(r) <==> up)
    ensures c as int < 0x1_0000 ==> r.scan as int == c as int
    ensures c as int >= 0x1_0000 ==> r.scan as int != c as int
  {
    KeyInput(INPUT_KEYBOARD, 0, (c as int) % 0x1_0000,
             KEYEVENTF_UNICODE | (if up then KEYEVENTF_KEYUP else 0))
  }

  /** `_type_string` as written: one down/up pair per character. */
  function TypedInputsAsWritten(text: string): (r: seq<KeyInput>)
    ensures |r| == 2 * |text|
  {
    if text == [] then []
    else [MakeUnicodeInputAsWritten(text[0], false), MakeUnicodeInputAsWritten(text[0], true)]
         + TypedInputsAsWritten(text[1..])
  }

  /** Both agree on text without characters above U+FFFF. */
  lemma {:induction false} AsWrittenAgreesOnBmp(text: string)
    requires BmpOnly(text)
    ensures TypedInputsAsWritten(text) == TypedInputs(text)
  {
    if text != [] {
      assert BmpOnly(text[1..]) by {
        forall k | 0 <= k < |text[1..]| ensures text[1..][k] as int < 0x1_0000 {
          assert text[1..][k] == text[k + 1];
        }
      }
      AsWrittenAgreesOnBmp(text[1..]);
      var u := Utf16(text);
      assert u == [text[0] as int] + Utf16(text[1..]);
      assert u[1..] == Utf16(text[1..]);
    }
  }

  /** Typing the folder emoji U+1F4C1 as written presses the single unit
    * U+F4C1, a different character, instead of the surrogate pair
    * U+D83D U+DCC1. */
  lemma AsWrittenTruncatesAstral()
    ensures PressedUnits(TypedInputsAsWritten("📁")) == [0xF4C1]
    ensures Utf16("📁") == [0xD83D, 0xDCC1]
    ensures Utf16Decode(PressedUnits(TypedInputsAsWritten("📁"))) != Some("📁")
  {
    var r := TypedInputsAsWritten("📁");
    assert "📁"[1..] == [];
    assert r[1..][1..] == [];
    assert Utf16("📁") == Utf16Char('📁') + [];
    assert Utf16Decode([0xF4C1]) == PrependChar(0xF4C1 as char, Utf16Decode([]));
  }
}
