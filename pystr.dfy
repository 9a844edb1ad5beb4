/**
 * The few Python `str` and `int` builtins the application leans on, written
 * out over `seq<char>`: whitespace stripping, prefix and suffix tests,
 * substring search, lower-casing, decimal rendering and parsing, and the
 * ordering Python's `<` gives strings.
 */
module PyStr {

  /** Python's `str.isspace` for one character (the characters `str.strip`
    * and the regular-expression class `\s` treat as whitespace). */
  predicate IsSpace(c: char) {
    var u := c as int;
    (0x09 <= u <= 0x0D) || (0x1C <= u <= 0x20) || u == 0x85 || u == 0xA0
    || u == 0x1680 || (0x2000 <= u <= 0x200A) || u == 0x2028 || u == 0x2029
    || u == 0x202F || u == 0x205F || u == 0x3000
  }

  /** An ASCII decimal digit. */
  predicate IsDigit(c: char) { '0' <= c <= '9' }

  predicate AllSpace(s: string) { forall k :: 0 <= k < |s| ==> IsSpace(s[k]) }

  predicate AllDigits(s: string) { forall k :: 0 <= k < |s| ==> IsDigit(s[k]) }

  /** No whitespace at either end. */
  predicate IsStripped(s: string) {
    s == [] || (!IsSpace(s[0]) && !IsSpace(s[|s| - 1]))
  }

  /** How many whitespace characters open `s`. */
  function LeadingSpace(s: string): (n: nat)
    ensures n <= |s| && AllSpace(s[..n])
    ensures n < |s| ==> !IsSpace(s[n])
  {
    if s != [] && IsSpace(s[0]) then
      var m := LeadingSpace(s[1..]);
      assert forall k :: 1 <= k < m + 1 ==> s[k] == s[1..][..m][k - 1];
      1 + m
    else 0
  }

  /** Where the run of whitespace that closes `s` starts, not looking
    * below position `lo`. */
  function TrailingStart(s: string, lo: nat): (n: nat)
    requires lo <= |s|
    ensures lo <= n <= |s| && AllSpace(s[n..])
    ensures n > lo ==> !IsSpace(s[n - 1])
  {
    if |s| > lo && IsSpace(s[|s| - 1]) then
      var m := TrailingStart(s[..|s| - 1], lo);
      assert forall k :: m <= k < |s| - 1 ==> s[k] == s[..|s| - 1][m..][k - m];
      m
    else |s|
  }

  /** Python's `s.strip()`: the slice of `s` left after removing whitespace
    * from both ends. */
  function Strip(s: string): (r: string)
    ensures IsStripped(r)
    ensures r == s[LeadingSpace(s)..TrailingStart(s, LeadingSpace(s))]
    ensures AllSpace(s[..LeadingSpace(s)]) && AllSpace(s[TrailingStart(s, LeadingSpace(s))..])
  {
    var lo := LeadingSpace(s);
    s[lo..TrailingStart(s, lo)]
  }

  lemma StripOfStripped(s: string)
    requires IsStripped(s)
    ensures Strip(s) == s
  {
    if s != [] {
      assert LeadingSpace(s) == 0;
      assert TrailingStart(s, 0) == |s|;
    }
  }

  lemma {:induction false} StripIdempotent(s: string)
    ensures Strip(Strip(s)) == Strip(s)
  {
    StripOfStripped(Strip(s));
  }

  /** The whitespace cut off by `Strip` is exactly what surrounds a
    * stripped core. */
  lemma {:induction false} StripAround(pre: string, text: string, post: string)
    requires AllSpace(pre) && AllSpace(post) && IsStripped(text)
    ensures Strip(pre + text + post) == text
  {
    var s := pre + text + post;
    if text == [] {
      assert s == pre + post;
      assert AllSpace(s) by {
        forall k | 0 <= k < |s| ensures IsSpace(s[k]) {
          if k < |pre| { assert s[k] == pre[k]; } else { assert s[k] == post[k - |pre|]; }
        }
      }
      AllSpaceStripsEmpty(s);
    } else {
      var a, b := |pre|, |pre| + |text|;
      assert s[a] == text[0] && s[b - 1] == text[|text| - 1];
      var lo := LeadingSpace(s);
      var hi := TrailingStart(s, lo);
      assert s[a..b] == text;
    }
  }

  lemma AllSpaceStripsEmpty(s: string)
    requires AllSpace(s)
    ensures Strip(s) == []
  {
    var lo := LeadingSpace(s);
  }

  /** Python's `s.startswith(p)`. */
  predicate StartsWith(s: string, p: string) {
    |p| <= |s| && s[..|p|] == p
  }

  /** Python's `s.endswith(p)`. */
  predicate EndsWith(s: string, p: string) {
    |p| <= |s| && s[|s| - |p|..] == p
  }

  /** Python's `s.replace(c, rep)` for a one-character pattern. */
  function ReplaceChar(s: string, c: char, rep: string): (r: string)
    ensures c !in s ==> r == s
    ensures |rep| == 1 ==> |r| == |s|
  {
    if s == [] then []
    else (if s[0] == c then rep else [s[0]]) + ReplaceChar(s[1..], c, rep)
  }

  /** Replacing works piece rep piece. */
  lemma {:induction false} ReplaceCharConcat(a: string, b: string, c: char, rep: string)
    ensures ReplaceChar(a + b, c, rep) == ReplaceChar(a, c, rep) + ReplaceChar(b, c, rep)
  {
    if a != [] {
      assert (a + b)[1..] == a[1..] + b;
      ReplaceCharConcat(a[1..], b, c, rep);
    } else {
      assert a + b == b;
    }
  }

  /** Python's `sep.join(parts)`. */
  function Join(parts: seq<string>, sep: string): (r: string)
    ensures |parts| == 1 ==> r == parts[0]
  {
    if |parts| == 0 then ""
    else if |parts| == 1 then parts[0]
    else Join(parts[..|parts| - 1], sep) + sep + parts[|parts| - 1]
  }

  lemma Join4(a: string, b: string, c: string, d: string, sep: string)
    ensures Join([a, b, c, d], sep) == a + sep + b + sep + c + sep + d
  {
    assert [a, b][..1] == [a];
    assert Join([a, b], sep) == a + sep + b;
    assert [a, b, c][..2] == [a, b];
    assert Join([a, b, c], sep) == a + sep + b + sep + c;
    assert [a, b, c, d][..3] == [a, b, c];
  }

  lemma Join5(a: string, b: string, c: string, d: string, e: string, sep: string)
    ensures Join([a, b, c, d, e], sep) == a + sep + b + sep + c + sep + d + sep + e
  {
    assert [a, b, c, d, e][..4] == [a, b, c, d];
    Join4(a, b, c, d, sep);
  }

  /** Python's `sub in s`. */
  predicate Contains(s: string, sub: string)
    decreases |s|
  {
    StartsWith(s, sub) || (s != [] && Contains(s[1..], sub))
  }

  function AsciiLowerChar(c: char): char {
    if 'A' <= c <= 'Z' then (c as int + 32) as char else c
  }

  /** `s.lower()` on the ASCII letters; every other character is kept. */
  function AsciiLower(s: string): (r: string)
    ensures |r| == |s|
    ensures forall k :: 0 <= k < |s| ==> r[k] == AsciiLowerChar(s[k])
  {
    seq(|s|, k requires 0 <= k < |s| => AsciiLowerChar(s[k]))
  }

  // ---------------------------------------------------------------------
  // Decimal numbers: `str(n)` and `int(text)`

  function DigitChar(d: nat): (c: char)
    requires d < 10
    ensures IsDigit(c) && c as int - '0' as int == d
  {
    ('0' as int + d) as char
  }

  function DigitValue(c: char): (d: nat)
    requires IsDigit(c)
    ensures d < 10 && DigitChar(d) == c
  {
    c as int - '0' as int
  }

  /** Python's `str(n)` for a non-negative integer: no sign, no leading zero. */
  function NatToString(n: nat): (r: string)
    ensures |r| >= 1 && AllDigits(r)
    ensures r[0] == '0' ==> n == 0
  {
    if n < 10 then [DigitChar(n)] else NatToString(n / 10) + [DigitChar(n % 10)]
  }

  /** Python's `str(i)` for any integer. */
  function IntToString(i: int): (r: string)
    ensures |r| >= 1
    ensures r[0] == '-' <==> i < 0
  {
    if i < 0 then "-" + NatToString(-i) else NatToString(i)
  }

  /** The value of a run of decimal digits, most significant first. */
  function DigitsValue(s: string): nat
    requires AllDigits(s)
  {
    if s == [] then 0 else DigitsValue(s[..|s| - 1]) * 10 + DigitValue(s[|s| - 1])
  }

  lemma {:induction false} DigitsValueOfNatToString(n: nat)
    ensures DigitsValue(NatToString(n)) == n
  {
    if n >= 10 {
      var s := NatToString(n);
      assert s[..|s| - 1] == NatToString(n / 10);
      DigitsValueOfNatToString(n / 10);
    }
  }

  /** `str` on non-negative integers is one-to-one, so names built from
    * distinct counters are distinct. */
  lemma NatToStringInjective(a: nat, b: nat)
    requires NatToString(a) == NatToString(b)
    ensures a == b
  {
    DigitsValueOfNatToString(a);
    DigitsValueOfNatToString(b);
  }

  /** Python's `int(text)` for text whose base-10 form is ASCII: surrounding
    * whitespace, one optional sign, then digits where single underscores may
    * separate two digits. Anything else raises `ValueError`, here `None`. */
  datatype IntParse = Parsed(value: int) | Invalid

  predicate IsUnderscoredDigits(s: string) {
    && s != []
    && IsDigit(s[0]) && IsDigit(s[|s| - 1])
    && (forall k :: 0 <= k < |s| ==> IsDigit(s[k]) || s[k] == '_')
    && (forall k :: 0 <= k < |s| - 1 ==> s[k] == '_' ==> s[k + 1] != '_')
  }

  /** The digits of `s` with the underscores taken out. */
  function DropUnderscores(s: string): (r: string)
    requires forall k :: 0 <= k < |s| ==> IsDigit(s[k]) || s[k] == '_'
    ensures AllDigits(r) && |r| <= |s|
  {
    if s == [] then []
    else if s[0] == '_' then DropUnderscores(s[1..])
    else [s[0]] + DropUnderscores(s[1..])
  }

  lemma DropUnderscoresOfDigits(s: string)
    requires AllDigits(s)
    ensures DropUnderscores(s) == s
  {
  }

  /** What `int` makes of stripped text `t`: it accepts exactly an optional
    * sign and then digits, single underscores allowed between two of them;
    * the value is that of the digits, negated by a leading `-`. */
  predicate ReadsAsInt(t: string, r: IntParse) {
    && (r.Parsed? ==>
          || IsUnderscoredDigits(t)
          || (|t| >= 2 && (t[0] == '-' || t[0] == '+') && IsUnderscoredDigits(t[1..])))
    && (r.Parsed? && r.value < 0 ==> t[0] == '-')
    && (IsUnderscoredDigits(t) ==> r == Parsed(DigitsValue(DropUnderscores(t))))
    && (|t| >= 2 && t[0] == '+' && IsUnderscoredDigits(t[1..]) ==>
          r == Parsed(DigitsValue(DropUnderscores(t[1..]))))
    && (|t| >= 2 && t[0] == '-' && IsUnderscoredDigits(t[1..]) ==>
          r == Parsed(-(DigitsValue(DropUnderscores(t[1..])) as int)))
  }

  /** `int(text)` for base-10 text, read after stripping. */
  function ParseInt(text: string): (r: IntParse)
    ensures ReadsAsInt(Strip(text), r)
  {
    ParseSigned(Strip(text))
  }

  /** `int` on text that has no whitespace at either end. */
  function ParseSigned(t: string): (r: IntParse)
    ensures ReadsAsInt(t, r)
  {
    var body := if t != [] && (t[0] == '-' || t[0] == '+') then t[1..] else t;
    if IsUnderscoredDigits(body) then
      var v := DigitsValue(DropUnderscores(body));
      Parsed(if t[0] == '-' then -(v as int) else v)
    else Invalid
  }

  /** `int(str(i)) == i`. */
  lemma ParseIntOfIntToString(i: int)
    ensures ParseInt(IntToString(i)) == Parsed(i)
  {
    var s := IntToString(i);
    var n: nat := if i < 0 then -i else i;
    DigitsValueOfNatToString(n);
    var d := NatToString(n);
    DropUnderscoresOfDigits(d);
    assert IsUnderscoredDigits(d);
    assert IsStripped(s);
    StripOfStripped(s);
    if i < 0 {
      assert s == "-" + d && s[1..] == d;
    } else {
      assert s == d;
    }
  }

  /** Whitespace around the number is ignored. */
  lemma ParseIntIgnoresSpaces(pre: string, text: string, post: string)
    requires AllSpace(pre) && AllSpace(post) && IsStripped(text)
    ensures ParseInt(pre + text + post) == ParseInt(text)
  {
    StripAround(pre, text, post);
    StripOfStripped(text);
  }

  /** Blank text and a lone sign are rejected. */
  lemma ParseIntRejectsBlank()
    ensures ParseInt("") == Invalid && ParseInt("   ") == Invalid
    ensures ParseInt("-") == Invalid
  {
    AllSpaceStripsEmpty("   ");
    StripOfStripped("-");
  }

  /** A doubled underscore is rejected. */
  lemma ParseIntRejectsDoubleUnderscore()
    ensures ParseInt("1__0") == Invalid
  {
    StripOfStripped("1__0");
    assert "1__0"[1] == '_' && "1__0"[2] == '_';
  }

  /** A leading or trailing underscore is rejected. */
  lemma ParseIntRejectsEdgeUnderscore()
    ensures ParseInt("_1") == Invalid && ParseInt("1_") == Invalid
  {
    StripOfStripped("_1");
    StripOfStripped("1_");
  }

  /** A letter is rejected. */
  lemma ParseIntRejectsLetter()
    ensures ParseInt("12a") == Invalid
  {
    StripOfStripped("12a");
    assert !IsDigit("12a"[2]);
  }

  lemma GroupedDigitsValue()
    ensures IsUnderscoredDigits("1_0") && DigitsValue(DropUnderscores("1_0")) == 10
  {
    var body := "1_0";
    assert body[1..] == "_0" && body[1..][1..] == "0" && "0"[1..] == [];
    assert DropUnderscores(body) == "10";
    assert "10"[..1] == "1" && "1"[..0] == [];
  }

  /** A sign, surrounding blanks and digit-group underscores are accepted. */
  lemma ParseIntAcceptsGrouped()
    ensures ParseInt(" +1_0 ") == Parsed(10)
  {
    StripAround(" ", "+1_0", " ");
    assert " +1_0 " == " " + "+1_0" + " ";
    SignedGroupedValue();
  }

  lemma SignedGroupedValue()
    ensures ParseSigned("+1_0") == Parsed(10)
  {
    assert "+1_0"[1..] == "1_0";
    GroupedDigitsValue();
  }

  lemma ParseIntAcceptsLeadingZeros()
    ensures ParseInt("-07") == Parsed(-7)
  {
    StripOfStripped("-07");
    var body := "-07"[1..];
    assert body == "07";
    DropUnderscoresOfDigits(body);
    assert "07"[..1] == "0" && "0"[..0] == [];
  }

  // ---------------------------------------------------------------------
  // Python's ordering of strings: by code point, a proper prefix first.

  predicate StrLess(a: string, b: string) {
    if a == [] then b != []
    else if b == [] then false
    else if a[0] != b[0] then a[0] < b[0]
    else StrLess(a[1..], b[1..])
  }

  predicate StrLessEq(a: string, b: string) { a == b || StrLess(a, b) }

  lemma {:induction false} StrLessIrreflexive(a: string)
    ensures !StrLess(a, a)
  {
    if a != [] { StrLessIrreflexive(a[1..]); }
  }

  lemma {:induction false} StrLessTransitive(a: string, b: string, c: string)
    requires StrLess(a, b) && StrLess(b, c)
    ensures StrLess(a, c)
  {
    if a != [] && b != [] && c != [] && a[0] == b[0] && b[0] == c[0] {
      StrLessTransitive(a[1..], b[1..], c[1..]);
    }
  }

  lemma {:induction false} StrLessTotal(a: string, b: string)
    ensures a == b || StrLess(a, b) || StrLess(b, a)
  {
    if a != [] && b != [] && a[0] == b[0] {
      StrLessTotal(a[1..], b[1..]);
      if a[1..] == b[1..] { assert a == [a[0]] + a[1..]; assert b == [b[0]] + b[1..]; }
    }
  }

  lemma {:induction false} StrLessAsymmetric(a: string, b: string)
    requires StrLess(a, b)
    ensures !StrLess(b, a)
  {
    if a != [] && b != [] && a[0] == b[0] { StrLessAsymmetric(a[1..], b[1..]); }
  }
}
