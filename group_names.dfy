/**
 * Naming of copied tab groups (`copy_tab_group`): the base name is the
 * group's name with a trailing whitespace-and-number suffix removed, as the
 * pattern `^(.*?)\s+(\d+)$` finds it, and the copy is called
 * `"<base> <k>"` for the least `k >= 1` not already taken.
 */
module GroupNames {
  import opened PyStr

  /** Where the run of digits ending at position `i` of `s` starts. */
  function DigitStart(s: string, i: nat): (start: nat)
    requires i <= |s|
    ensures start <= i
    ensures forall k :: start <= k < i ==> IsDigit(s[k])
    ensures start > 0 ==> !IsDigit(s[start - 1])
  {
    if i > 0 && IsDigit(s[i - 1]) then DigitStart(s, i - 1) else i
  }

  /** Where the run of whitespace ending at position `i` of `s` starts. */
  function SpaceStart(s: string, i: nat): (start: nat)
    requires i <= |s|
    ensures start <= i
    ensures forall k :: start <= k < i ==> IsSpace(s[k])
    ensures start > 0 ==> !IsSpace(s[start - 1])
  {
    if i > 0 && IsSpace(s[i - 1]) then SpaceStart(s, i - 1) else i
  }

  /** `name` without one final newline, where `$` may match. */
  function BeforeEnd(name: string): (core: string)
    ensures |core| <= |name| && name[..|core|] == core
  {
    if name != [] && name[|name| - 1] == '\n' then name[..|name| - 1] else name
  }

  /** Where the trailing digits of the name (before an optional final
    * newline) start. */
  function DigitsAt(name: string): nat {
    var core := BeforeEnd(name);
    DigitStart(core, |core|)
  }

  /** Where the whitespace before those digits starts: the end of the
    * shortest prefix `.*?` can take. */
  function SpacesAt(name: string): (n: nat)
    ensures n <= DigitsAt(name)
  {
    SpaceStart(BeforeEnd(name), DigitsAt(name))
  }

  /** Whether `^(.*?)\s+(\d+)$` matches: the name ends (before an optional
    * final newline) in whitespace followed by digits, and what comes before
    * holds no newline, which `.` does not match. */
  predicate HasNumberSuffix(name: string) {
    && DigitsAt(name) < |BeforeEnd(name)|
    && SpacesAt(name) < DigitsAt(name)
    && '\n' !in name[..SpacesAt(name)]
  }

  /** `m.group(1) if m else name`. When the pattern matches, the name is the
    * base, a run of whitespace, a run of digits and at most a final
    * newline; the base holds no newline and, being the shortest `.*?` can
    * take, does not end in whitespace. */
  function BaseName(name: string): (r: string)
    ensures HasNumberSuffix(name) ==> |r| < |name| && name[..|r|] == r
    ensures HasNumberSuffix(name) ==>
      var core := BeforeEnd(name);
      && |r| < |core|
      && '\n' !in r
      && (r == [] || !IsSpace(r[|r| - 1]))
      && IsSpace(core[|r|])
      && IsDigit(core[|core| - 1])
      && (forall k :: |r| <= k < |core| ==> IsSpace(core[k]) || IsDigit(core[k]))
      && (forall k :: |r| < k < |core| ==> IsDigit(core[k - 1]) ==> IsDigit(core[k]))
    ensures !HasNumberSuffix(name) ==> r == name
  {
    if HasNumberSuffix(name) then
      var core := BeforeEnd(name);
      var sp, d := SpacesAt(name), DigitsAt(name);
      assert name[..sp] == core[..sp];
      assert forall k :: sp <= k < d ==> IsSpace(core[k]) && !IsDigit(core[k]);
      name[..sp]
    else name
  }

  /** `f"{base} {k}"`. */
  function CopyName(base: string, k: nat): string {
    base + " " + NatToString(k)
  }

  /** A name that `CopyName` produced gives its base back, provided the base
    * holds no newline and does not end in whitespace. */
  lemma BaseOfCopyName(base: string, k: nat)
    requires '\n' !in base && (base == [] || !IsSpace(base[|base| - 1]))
    ensures BaseName(CopyName(base, k)) == base
  {
    var name := CopyName(base, k);
    var digits := NatToString(k);
    var n := |base| + 1;
    assert name[|name| - 1] == digits[|digits| - 1];
    assert BeforeEnd(name) == name;
    forall j | n <= j < |name| ensures IsDigit(name[j]) {
      assert name[j] == digits[j - n];
    }
    assert name[n - 1] == ' ';
    assert DigitsAt(name) == n by { DigitStartOfRun(name, n, |name|); }
    assert SpacesAt(name) == |base| by {
      SpaceStartStops(name, |base|, n);
    }
    assert name[..|base|] == base;
  }

  lemma {:induction false} DigitStartOfRun(s: string, lo: nat, i: nat)
    requires 0 < lo <= i <= |s|
    requires forall j :: lo <= j < i ==> IsDigit(s[j])
    requires !IsDigit(s[lo - 1])
    ensures DigitStart(s, i) == lo
  {
    if i > lo { DigitStartOfRun(s, lo, i - 1); }
  }

  lemma SpaceStartStops(s: string, lo: nat, i: nat)
    requires lo < i <= |s|
    requires forall j :: lo <= j < i ==> IsSpace(s[j])
    requires lo == 0 || !IsSpace(s[lo - 1])
    ensures SpaceStart(s, i) == lo
    decreases i
  {
    if i > lo + 1 { SpaceStartStops(s, lo, i - 1); }
  }

  /** A trailing number after a blank is cut off, the last one only. */
  lemma BaseNameExample()
    ensures BaseName("テスト 3") == "テスト"
  {
    BaseOfCopyName("テスト", 3);
    assert CopyName("テスト", 3) == "テスト 3";
  }

  /** Only the last number is taken off. */
  lemma BaseNameLastNumber()
    ensures BaseName("a 1 2") == "a 1"
  {
    BaseOfCopyName("a 1", 2);
    assert CopyName("a 1", 2) == "a 1 2";
  }

  /** Names with no number suffix are their own base. */
  lemma BaseNameUnnumbered()
    ensures BaseName("テスト") == "テスト"
    ensures BaseName("v2") == "v2"
  {
    assert DigitsAt("v2") == 1 by { DigitStartOfRun("v2", 1, 2); }
  }

  /** Several blanks before the number all go; a newline before them
    * defeats the match. */
  lemma BaseNameWideGap()
    ensures BaseName("Work  12") == "Work"
    ensures BaseName("a\nb 1") == "a\nb 1"
  {
    assert DigitsAt("Work  12") == 6 by { DigitStartOfRun("Work  12", 6, 8); }
    assert SpacesAt("Work  12") == 4 by { SpaceStartStops("Work  12", 4, 6); }
    assert DigitsAt("a\nb 1") == 4 by { DigitStartOfRun("a\nb 1", 4, 5); }
    assert SpacesAt("a\nb 1") == 3 by { SpaceStartStops("a\nb 1", 3, 4); }
    assert "a\nb 1"[..3][1] == '\n';
  }

  lemma CopyNameInjective(base: string, a: nat, b: nat)
    requires CopyName(base, a) == CopyName(base, b)
    ensures a == b
  {
    var n := |base| + 1;
    assert CopyName(base, a)[n..] == NatToString(a);
    assert CopyName(base, b)[n..] == NatToString(b);
    NatToStringInjective(a, b);
  }

  /** The copy names numbered 1 to n. */
  function NumberedNames(base: string, n: nat): set<string> {
    set k | 1 <= k <= n :: CopyName(base, k)
  }

  lemma {:induction false} NumberedNamesSize(base: string, n: nat)
    ensures |NumberedNames(base, n)| == n
  {
    if n == 0 {
      assert NumberedNames(base, 0) == {};
    } else {
      NumberedNamesSize(base, n - 1);
      assert NumberedNames(base, n) == NumberedNames(base, n - 1) + {CopyName(base, n)};
      if CopyName(base, n) in NumberedNames(base, n - 1) {
        var k :| 1 <= k <= n - 1 && CopyName(base, k) == CopyName(base, n);
        CopyNameInjective(base, k, n);
      }
    }
  }

  lemma SubsetSize<T>(a: set<T>, b: set<T>)
    requires a <= b
    ensures |a| <= |b|
  {
    assert b == a + (b - a);
  }

  /** The `while f"{base} {suffix}" in existing_names` loop: the least
    * number from 1 up whose name is free. It always stops, since
    * `existing` is finite. */
  method NextFreeSuffix(base: string, existing: set<string>) returns (suffix: nat)
    ensures suffix >= 1 && CopyName(base, suffix) !in existing
    ensures forall k :: 1 <= k < suffix ==> CopyName(base, k) in existing
    ensures suffix <= |existing| + 1
  {
    suffix := 1;
    NumberedNamesSize(base, 0);
    while CopyName(base, suffix) in existing
      invariant suffix >= 1
      invariant forall k :: 1 <= k < suffix ==> CopyName(base, k) in existing
      invariant suffix <= |existing| + 1
      decreases |existing| + 1 - suffix
    {
      assert NumberedNames(base, suffix) <= existing;
      NumberedNamesSize(base, suffix);
      SubsetSize(NumberedNames(base, suffix), existing);
      suffix := suffix + 1;
    }
    assert NumberedNames(base, suffix - 1) <= existing;
    NumberedNamesSize(base, suffix - 1);
    SubsetSize(NumberedNames(base, suffix - 1), existing);
  }
}
