/**
 * Ordering of the history list: the newest-first stable sort the
 * application applies by `last_used`, `get_sorted_history` (pinned entries
 * first) and `_trim_history` (drop the oldest unpinned entries once the list
 * is longer than `HISTORY_MAX`).
 */
module HistoryOrder {
  import opened PyStr
  import opened ConfigData

  /** Newest first: no entry is older than one after it. */
  predicate NewestFirst(s: seq<HistoryEntry>) {
    forall i, j :: 0 <= i < j < |s| ==> !StrLess(s[i].lastUsed, s[j].lastUsed)
  }

  /** `b` is not newer than `a`. */
  lemma NotLessTransitive(a: string, b: string, c: string)
    requires !StrLess(a, b) && !StrLess(b, c)
    ensures !StrLess(a, c)
  {
    StrLessTotal(a, b);
    StrLessTotal(b, c);
    if StrLess(a, c) {
      if a == b { } else if b == c { } else {
        StrLessTransitive(c, b, a);
        StrLessAsymmetric(c, a);
      }
    }
  }

  /** An entry not older than the head of a newest-first list can go in
    * front of it. */
  lemma PrependNewest(x: HistoryEntry, s: seq<HistoryEntry>)
    requires s != [] ==> !StrLess(x.lastUsed, s[0].lastUsed)
    ensures NewestFirst(s) ==> NewestFirst([x] + s)
  {
    if NewestFirst(s) {
      var r := [x] + s;
      forall j | 1 <= j < |r| ensures !StrLess(x.lastUsed, r[j].lastUsed) {
        if j > 1 { NotLessTransitive(x.lastUsed, s[0].lastUsed, s[j - 1].lastUsed); }
      }
    }
  }

  /** The head `h` of a newest-first list `[h] + t` stays in front when an
    * entry older than it is merged into the tail `t`. */
  lemma KeepHeadNewest(h: HistoryEntry, x: HistoryEntry, t: seq<HistoryEntry>, rest: seq<HistoryEntry>)
    requires StrLess(x.lastUsed, h.lastUsed)
    requires multiset(rest) == multiset(t) + multiset{x}
    ensures NewestFirst([h] + t) ==> NewestFirst(t)
    ensures NewestFirst([h] + t) && NewestFirst(rest) ==> NewestFirst([h] + rest)
  {
    if NewestFirst([h] + t) {
      forall i, j | 0 <= i < j < |t| ensures !StrLess(t[i].lastUsed, t[j].lastUsed) {
        assert ([h] + t)[i + 1] == t[i] && ([h] + t)[j + 1] == t[j];
      }
      if NewestFirst(rest) {
        forall j | 0 <= j < |rest| ensures !StrLess(h.lastUsed, rest[j].lastUsed) {
          assert rest[j] in multiset(rest);
          if rest[j] != x {
            assert rest[j] in multiset(t);
            var k :| 0 <= k < |t| && t[k] == rest[j];
            assert ([h] + t)[0] == h && ([h] + t)[k + 1] == t[k];
            assert !StrLess(([h] + t)[0].lastUsed, ([h] + t)[k + 1].lastUsed);
          } else {
            StrLessAsymmetric(x.lastUsed, h.lastUsed);
          }
        }
        var r := [h] + rest;
        forall i, j | 0 <= i < j < |r| ensures !StrLess(r[i].lastUsed, r[j].lastUsed) {
          assert r[j] == rest[j - 1];
          if i > 0 { assert r[i] == rest[i - 1]; }
        }
      }
    }
  }

  /** Place `x` in front of the first entry that is not newer than it, so
    * that `x` stays ahead of entries with the same timestamp. Inserting into
    * a newest-first list keeps it newest first. */
  function InsertNewestFirst(x: HistoryEntry, s: seq<HistoryEntry>): (r: seq<HistoryEntry>)
    ensures |r| == |s| + 1
    ensures multiset(r) == multiset(s) + multiset{x}
    ensures NewestFirst(s) ==> NewestFirst(r)
  {
    if s == [] then [x]
    else if !StrLess(x.lastUsed, s[0].lastUsed) then
      PrependNewest(x, s);
      [x] + s
    else
      assert s == [s[0]] + s[1..];
      var rest := InsertNewestFirst(x, s[1..]);
      KeepHeadNewest(s[0], x, s[1..], rest);
      [s[0]] + rest
  }

  /** Python's `sorted(s, key=lambda e: e.last_used, reverse=True)`. */
  function SortNewestFirst(s: seq<HistoryEntry>): (r: seq<HistoryEntry>)
    ensures |r| == |s|
    ensures multiset(r) == multiset(s)
  {
    if s == [] then []
    else
      assert s == [s[0]] + s[1..];
      InsertNewestFirst(s[0], SortNewestFirst(s[1..]))
  }

  lemma {:induction false} SortIsNewestFirst(s: seq<HistoryEntry>)
    ensures NewestFirst(SortNewestFirst(s))
  {
    if s != [] {
      SortIsNewestFirst(s[1..]);
    }
  }

  /** The entries of `s` stamped `k`, in order. */
  function WithStamp(s: seq<HistoryEntry>, k: string): seq<HistoryEntry> {
    if s == [] then [] else (if s[0].lastUsed == k then [s[0]] else []) + WithStamp(s[1..], k)
  }

  lemma {:induction false} InsertWithStamp(x: HistoryEntry, s: seq<HistoryEntry>, k: string)
    ensures WithStamp(InsertNewestFirst(x, s), k) == (if x.lastUsed == k then [x] else []) + WithStamp(s, k)
  {
    if s == [] {
      assert WithStamp([x], k) == (if x.lastUsed == k then [x] else []) + WithStamp([], k);
    } else if !StrLess(x.lastUsed, s[0].lastUsed) {
      assert ([x] + s)[1..] == s;
    } else {
      InsertWithStamp(x, s[1..], k);
      InsertBehindWithStamp(x, s, k);
    }
  }

  /** The step of `InsertWithStamp` where `x` goes behind the head. */
  lemma InsertBehindWithStamp(x: HistoryEntry, s: seq<HistoryEntry>, k: string)
    requires s != [] && StrLess(x.lastUsed, s[0].lastUsed)
    requires WithStamp(InsertNewestFirst(x, s[1..]), k) == (if x.lastUsed == k then [x] else []) + WithStamp(s[1..], k)
    ensures WithStamp(InsertNewestFirst(x, s), k) == (if x.lastUsed == k then [x] else []) + WithStamp(s, k)
  {
    var xs := if x.lastUsed == k then [x] else [];
    var hs := if s[0].lastUsed == k then [s[0]] else [];
    var t := s[1..];
    var rest := InsertNewestFirst(x, t);
    var w := WithStamp(t, k);
    assert InsertNewestFirst(x, s) == [s[0]] + rest;
    assert ([s[0]] + rest)[1..] == rest;
    assert WithStamp([s[0]] + rest, k) == hs + (xs + w);
    assert WithStamp(s, k) == hs + w;
    StrLessIrreflexive(x.lastUsed);
    if xs == [] {
      assert xs + w == w && xs + (hs + w) == hs + w;
    } else {
      assert hs == [];
      assert hs + (xs + w) == xs + w && hs + w == w;
    }
  }

  /** The sort is stable: entries with equal timestamps keep their order. */
  lemma {:induction false} SortIsStable(s: seq<HistoryEntry>, k: string)
    ensures WithStamp(SortNewestFirst(s), k) == WithStamp(s, k)
  {
    if s != [] {
      SortIsStable(s[1..], k);
      InsertWithStamp(s[0], SortNewestFirst(s[1..]), k);
    }
  }

  // ---------------------------------------------------------------------

  /** `[e for e in s if e.pinned]`. */
  function Pinned(s: seq<HistoryEntry>): (r: seq<HistoryEntry>)
    ensures forall k :: 0 <= k < |r| ==> r[k].pinned
  {
    if s == [] then [] else (if s[0].pinned then [s[0]] else []) + Pinned(s[1..])
  }

  /** `[e for e in s if not e.pinned]`. */
  function Unpinned(s: seq<HistoryEntry>): (r: seq<HistoryEntry>)
    ensures forall k :: 0 <= k < |r| ==> !r[k].pinned
  {
    if s == [] then [] else (if s[0].pinned then [] else [s[0]]) + Unpinned(s[1..])
  }

  /** The two comprehensions split the list. */
  lemma {:induction false} PinnedSplit(s: seq<HistoryEntry>)
    ensures multiset(Pinned(s)) + multiset(Unpinned(s)) == multiset(s)
    ensures |Pinned(s)| + |Unpinned(s)| == |s|
  {
    if s != [] {
      PinnedSplit(s[1..]);
      assert s == [s[0]] + s[1..];
    }
  }

  lemma {:induction false} PinnedConcat(a: seq<HistoryEntry>, b: seq<HistoryEntry>)
    ensures Pinned(a + b) == Pinned(a) + Pinned(b)
  {
    if a != [] {
      PinnedConcat(a[1..], b);
      assert (a + b)[1..] == a[1..] + b;
    } else {
      assert a + b == b;
    }
  }

  lemma {:induction false} PinnedOfPinned(s: seq<HistoryEntry>)
    requires forall k :: 0 <= k < |s| ==> s[k].pinned
    ensures Pinned(s) == s
  {
    if s != [] { PinnedOfPinned(s[1..]); }
  }

  lemma {:induction false} PinnedOfUnpinned(s: seq<HistoryEntry>)
    requires forall k :: 0 <= k < |s| ==> !s[k].pinned
    ensures Pinned(s) == []
  {
    if s != [] { PinnedOfUnpinned(s[1..]); }
  }

  /** `get_sorted_history`: a permutation of the history. */
  function SortedHistory(h: seq<HistoryEntry>): (r: seq<HistoryEntry>)
    ensures |r| == |h| && multiset(r) == multiset(h)
  {
    PinnedSplit(h);
    SortNewestFirst(Pinned(h)) + SortNewestFirst(Unpinned(h))
  }

  /** The sorted list is a permutation of the history in which every pinned
    * entry comes before every unpinned one and each of the two blocks is
    * newest first. */
  lemma SortedHistoryProperties(h: seq<HistoryEntry>)
    ensures multiset(SortedHistory(h)) == multiset(h)
    ensures forall i, j :: 0 <= i < j < |SortedHistory(h)| && SortedHistory(h)[j].pinned
              ==> SortedHistory(h)[i].pinned
    ensures NewestFirst(SortedHistory(h)[..|Pinned(h)|])
    ensures NewestFirst(SortedHistory(h)[|Pinned(h)|..])
  {
    var p, u := SortNewestFirst(Pinned(h)), SortNewestFirst(Unpinned(h));
    var r := SortedHistory(h);
    PinnedSplit(h);
    SortIsNewestFirst(Pinned(h));
    SortIsNewestFirst(Unpinned(h));
    SortKeepsPins(Pinned(h), true);
    SortKeepsPins(Unpinned(h), false);
    assert r == p + u;
    assert r[..|p|] == p && r[|p|..] == u;
    PinnedBlockFirst(p, u);
  }

  /** Sorting a list whose entries all have the same pin state keeps it. */
  lemma SortKeepsPins(s: seq<HistoryEntry>, pin: bool)
    requires forall k :: 0 <= k < |s| ==> s[k].pinned == pin
    ensures forall k :: 0 <= k < |SortNewestFirst(s)| ==> SortNewestFirst(s)[k].pinned == pin
  {
    var r := SortNewestFirst(s);
    forall k | 0 <= k < |r| ensures r[k].pinned == pin {
      assert r[k] in multiset(s);
      var j :| 0 <= j < |s| && s[j] == r[k];
    }
  }

  /** A pinned block followed by an unpinned block puts every pinned entry
    * first. */
  lemma PinnedBlockFirst(p: seq<HistoryEntry>, u: seq<HistoryEntry>)
    requires forall k :: 0 <= k < |p| ==> p[k].pinned
    requires forall k :: 0 <= k < |u| ==> !u[k].pinned
    ensures forall i, j :: 0 <= i < j < |p + u| && (p + u)[j].pinned ==> (p + u)[i].pinned
  {
    var r := p + u;
    forall i, j | 0 <= i < j < |r| && r[j].pinned ensures r[i].pinned {
      if j < |p| { assert r[i] == p[i]; }
    }
  }

  /** Within each block, entries with the same timestamp keep their history
    * order. */
  lemma SortedHistoryStable(h: seq<HistoryEntry>, k: string)
    ensures WithStamp(SortedHistory(h)[..|Pinned(h)|], k) == WithStamp(Pinned(h), k)
    ensures WithStamp(SortedHistory(h)[|Pinned(h)|..], k) == WithStamp(Unpinned(h), k)
  {
    var p, u := SortNewestFirst(Pinned(h)), SortNewestFirst(Unpinned(h));
    assert SortedHistory(h)[..|p|] == p && SortedHistory(h)[|p|..] == u;
    SortIsStable(Pinned(h), k);
    SortIsStable(Unpinned(h), k);
  }

  // ---------------------------------------------------------------------

  /** How many unpinned entries an over-long history keeps. */
  function KeepCount(h: seq<HistoryEntry>): nat {
    if HISTORY_MAX >= |Pinned(h)| then HISTORY_MAX - |Pinned(h)| else 0
  }

  /** `_trim_history`: nothing happens up to `HISTORY_MAX` entries; beyond
    * it the pinned entries stay in their order, followed by the newest
    * unpinned ones up to the limit. */
  function Trim(h: seq<HistoryEntry>): (r: seq<HistoryEntry>)
    ensures |h| <= HISTORY_MAX ==> r == h
    ensures |h| > HISTORY_MAX ==> KeepCount(h) <= |Unpinned(h)|
  {
    if |h| <= HISTORY_MAX then h
    else
      PinnedSplit(h);
      Pinned(h) + SortNewestFirst(Unpinned(h))[..KeepCount(h)]
  }

  /** The unpinned entries an over-long history drops. */
  function Dropped(h: seq<HistoryEntry>): seq<HistoryEntry>
    requires |h| > HISTORY_MAX
  {
    PinnedSplit(h);
    SortNewestFirst(Unpinned(h))[KeepCount(h)..]
  }

  /** The entries kept from the sorted unpinned block. */
  function Kept(h: seq<HistoryEntry>): (r: seq<HistoryEntry>)
    requires |h| > HISTORY_MAX
    ensures Trim(h) == Pinned(h) + r
    ensures SortNewestFirst(Unpinned(h)) == r + Dropped(h)
    ensures forall k :: 0 <= k < |r| ==> !r[k].pinned
  {
    PinnedSplit(h);
    var s := SortNewestFirst(Unpinned(h));
    var r := s[..KeepCount(h)];
    assert s == r + s[KeepCount(h)..];
    forall k | 0 <= k < |r| ensures !r[k].pinned {
      assert r[k] in multiset(Unpinned(h));
      assert r[k] in Unpinned(h);
    }
    r
  }

  /** Trimming keeps every pinned entry, in their order. */
  lemma TrimKeepsPinned(h: seq<HistoryEntry>)
    requires |h| > HISTORY_MAX
    ensures Pinned(Trim(h)) == Pinned(h)
  {
    var kept := Kept(h);
    PinnedConcat(Pinned(h), kept);
    PinnedOfPinned(Pinned(h));
    PinnedOfUnpinned(kept);
  }

  /** An over-long history is cut to `max(#pinned, HISTORY_MAX)` entries. */
  lemma TrimLength(h: seq<HistoryEntry>)
    requires |h| > HISTORY_MAX
    ensures |Trim(h)| == if |Pinned(h)| > HISTORY_MAX then |Pinned(h)| else HISTORY_MAX
  {
    PinnedSplit(h);
    var kept := Kept(h);
  }

  /** Trimming only removes entries: what it keeps and what it drops make up
    * the history. */
  lemma TrimRemovesOnly(h: seq<HistoryEntry>)
    requires |h| > HISTORY_MAX
    ensures multiset(Trim(h)) + multiset(Dropped(h)) == multiset(h)
  {
    PinnedSplit(h);
    var kept := Kept(h);
    assert multiset(SortNewestFirst(Unpinned(h))) == multiset(kept) + multiset(Dropped(h));
  }

  /** Every unpinned entry kept is at least as recent as every one dropped. */
  lemma TrimKeepsNewest(h: seq<HistoryEntry>, i: nat, j: nat)
    requires |h| > HISTORY_MAX
    requires |Pinned(h)| <= i < |Trim(h)| && j < |Dropped(h)|
    ensures !Trim(h)[i].pinned
    ensures !StrLess(Trim(h)[i].lastUsed, Dropped(h)[j].lastUsed)
  {
    var s := SortNewestFirst(Unpinned(h));
    var kept := Kept(h);
    SortIsNewestFirst(Unpinned(h));
    var a := i - |Pinned(h)|;
    assert Trim(h)[i] == kept[a] == s[a];
    assert Dropped(h)[j] == s[|kept| + j];
  }
}
