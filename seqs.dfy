/**
 * Python list operations the application performs on its lists of paths,
 * history entries, tab names and tab groups.
 */
module Seqs {

  /** No element occurs twice. */
  predicate NoDup<T(==)>(s: seq<T>) {
    forall i, j :: 0 <= i < j < |s| ==> s[i] != s[j]
  }

  /** `del s[i]` / `s.pop(i)`: the list without its `i`-th element. */
  function RemoveAt<T>(s: seq<T>, i: nat): (r: seq<T>)
    requires i < |s|
    ensures |r| == |s| - 1
    ensures forall k :: 0 <= k < i ==> r[k] == s[k]
    ensures forall k :: i <= k < |r| ==> r[k] == s[k + 1]
    ensures multiset(r) + multiset{s[i]} == multiset(s)
  {
    assert s == s[..i] + [s[i]] + s[i + 1..];
    s[..i] + s[i + 1..]
  }

  /** `s.insert(j, x)` for an index within the list (or just past it). */
  function InsertAt<T>(s: seq<T>, j: nat, x: T): (r: seq<T>)
    requires j <= |s|
    ensures |r| == |s| + 1 && r[j] == x
    ensures forall k :: 0 <= k < j ==> r[k] == s[k]
    ensures forall k :: j < k < |r| ==> r[k] == s[k - 1]
    ensures multiset(r) == multiset(s) + multiset{x}
  {
    assert s == s[..j] + s[j..];
    s[..j] + [x] + s[j..]
  }

  /** `item = s.pop(i); s.insert(j, item)`, with both indices in range. */
  function MoveItem<T>(s: seq<T>, i: nat, j: nat): (r: seq<T>)
    requires i < |s| && j < |s|
    ensures |r| == |s| && r[j] == s[i]
    ensures multiset(r) == multiset(s)
  {
    InsertAt(RemoveAt(s, i), j, s[i])
  }

  /** Moving an element onto its own position changes nothing. */
  lemma MoveItemSame<T>(s: seq<T>, i: nat)
    requires i < |s|
    ensures MoveItem(s, i, i) == s
  {
  }

  /** Moving an element one place left or right swaps it with its neighbour
    * and leaves every other position alone. */
  lemma MoveItemAdjacent<T>(s: seq<T>, i: nat, j: nat)
    requires i < |s| && j < |s| && (j == i + 1 || i == j + 1)
    ensures MoveItem(s, i, j) == s[i := s[j]][j := s[i]]
  {
  }

  /** A move and the move back are inverse. */
  lemma MoveItemBack<T>(s: seq<T>, i: nat, j: nat)
    requires i < |s| && j < |s|
    ensures MoveItem(MoveItem(s, i, j), j, i) == s
  {
    var r := MoveItem(s, i, j);
    var b := MoveItem(r, j, i);
    forall k | 0 <= k < |s| ensures b[k] == s[k] {
      if k < i && k < j {
      } else if k > i && k > j {
      } else if k == i {
      } else if i < j {
        assert i < k <= j;
        assert b[k] == RemoveAt(r, j)[k - 1];
      } else {
        assert j <= k < i;
        assert b[k] == RemoveAt(r, j)[k];
      }
    }
  }

  /** Moving keeps the elements distinct. */
  lemma MoveItemNoDup<T>(s: seq<T>, i: nat, j: nat)
    requires i < |s| && j < |s| && NoDup(s)
    ensures NoDup(MoveItem(s, i, j))
  {
    var r := MoveItem(s, i, j);
    forall a, b | 0 <= a < b < |r| ensures r[a] != r[b] {
      var sa := SourceIndex(i, j, a);
      var sb := SourceIndex(i, j, b);
      MoveItemSource(s, i, j, a);
      MoveItemSource(s, i, j, b);
    }
  }

  /** Removing keeps the others distinct and in order, and drops the
    * removed element altogether. */
  lemma RemoveAtNoDup<T>(s: seq<T>, i: nat)
    requires i < |s| && NoDup(s)
    ensures var r := RemoveAt(s, i);
      && r == s[..i] + s[i + 1..]
      && NoDup(r) && s[i] !in r
      && (forall k :: 0 <= k < |s| && k != i ==> s[k] in r)
  {
    var r := RemoveAt(s, i);
    assert r == s[..i] + s[i + 1..];
    forall a, b | 0 <= a < b < |r| ensures r[a] != r[b] {
      var sa := if a < i then a else a + 1;
      var sb := if b < i then b else b + 1;
      assert r[a] == s[sa] && r[b] == s[sb];
    }
    forall k | 0 <= k < |r| ensures r[k] != s[i] {
      var sk := if k < i then k else k + 1;
      assert r[k] == s[sk];
    }
    forall k | 0 <= k < |s| && k != i ensures s[k] in r {
      assert s[k] == r[if k < i then k else k - 1];
    }
  }

  /** The position in `s` that position `k` of `MoveItem(s, i, j)` came from. */
  function SourceIndex(i: nat, j: nat, k: nat): nat {
    if k == j then i
    else if i <= k < j then k + 1
    else if j < k <= i then k - 1
    else k
  }

  lemma MoveItemSource<T>(s: seq<T>, i: nat, j: nat, k: nat)
    requires i < |s| && j < |s| && k < |s|
    ensures SourceIndex(i, j, k) < |s| && MoveItem(s, i, j)[k] == s[SourceIndex(i, j, k)]
  {
  }

  lemma SourceIndexInjective(i: nat, j: nat, a: nat, b: nat)
    requires a != b
    ensures SourceIndex(i, j, a) != SourceIndex(i, j, b)
  {
  }

  // ---------------------------------------------------------------------

  /** `[x for x in s if keep(x)]`: every element that passes, as often as
    * it occurs in `s`, and nothing else. */
  function Filter<T(!new)>(s: seq<T>, keep: T -> bool): (r: seq<T>)
    ensures |r| <= |s|
    ensures forall x :: x in r <==> x in s && keep(x)
    ensures forall k :: 0 <= k < |r| ==> keep(r[k])
    ensures multiset(r) <= multiset(s)
  {
    if s == [] then []
    else
      var init, last := s[..|s| - 1], s[|s| - 1];
      assert s == init + [last];
      Filter(init, keep) + (if keep(last) then [last] else [])
  }

  lemma {:induction false} FilterAll<T(!new)>(s: seq<T>, keep: T -> bool)
    requires forall k :: 0 <= k < |s| ==> keep(s[k])
    ensures Filter(s, keep) == s
  {
    if s != [] {
      var init, last := s[..|s| - 1], s[|s| - 1];
      assert s == init + [last];
      assert forall k :: 0 <= k < |init| ==> init[k] == s[k];
      FilterAll(init, keep);
      assert keep(last);
    }
  }

  lemma {:induction false} FilterConcat<T(!new)>(a: seq<T>, b: seq<T>, keep: T -> bool)
    ensures Filter(a + b, keep) == Filter(a, keep) + Filter(b, keep)
  {
    if b != [] {
      assert (a + b)[..|a + b| - 1] == a + b[..|b| - 1];
      FilterConcat(a, b[..|b| - 1], keep);
    } else {
      assert a + b == a;
    }
  }

  /** Every element that passes is kept as often as it occurs, and no
    * other is. */
  lemma {:induction false} FilterCount<T(!new)>(s: seq<T>, keep: T -> bool, x: T)
    ensures multiset(Filter(s, keep))[x] == if keep(x) then multiset(s)[x] else 0
  {
    if s != [] {
      var init, last := s[..|s| - 1], s[|s| - 1];
      assert s == init + [last];
      FilterCount(init, keep, x);
      assert multiset(s) == multiset(init) + multiset{last};
    }
  }

  lemma {:induction false} FilterNoDup<T(!new)>(s: seq<T>, keep: T -> bool)
    requires NoDup(s)
    ensures NoDup(Filter(s, keep))
  {
    if s != [] {
      var init := s[..|s| - 1];
      assert NoDup(init);
      FilterNoDup(init, keep);
      assert s[|s| - 1] !in init;
    }
  }

  // ---------------------------------------------------------------------

  /** `list(dict.fromkeys(s))`: the distinct elements of `s`, each at the
    * place it first occurs. */
  function Dedup<T(==,!new)>(s: seq<T>): (r: seq<T>)
    ensures NoDup(r)
    ensures forall x :: x in r <==> x in s
    ensures |r| <= |s|
  {
    if s == [] then []
    else
      var r := Dedup(s[..|s| - 1]);
      if s[|s| - 1] in r then r else r + [s[|s| - 1]]
  }

  /** A list without repeats is left as it is. */
  lemma {:induction false} DedupOfNoDup<T(!new)>(s: seq<T>)
    requires NoDup(s)
    ensures Dedup(s) == s
  {
    if s != [] {
      DedupOfNoDup(s[..|s| - 1]);
      assert s[|s| - 1] !in s[..|s| - 1];
      assert s == s[..|s| - 1] + [s[|s| - 1]];
    }
  }

  lemma {:induction false} DedupIdempotent<T(!new)>(s: seq<T>)
    ensures Dedup(Dedup(s)) == Dedup(s)
  {
    DedupOfNoDup(Dedup(s));
  }

  /** The index of the first occurrence of `x`. */
  function FirstIndex<T(==)>(s: seq<T>, x: T): (k: nat)
    requires x in s
    ensures k < |s| && s[k] == x && x !in s[..k]
  {
    if s[0] == x then 0 else 1 + FirstIndex(s[1..], x)
  }

  lemma {:induction false} FirstIndexPrefix<T>(s: seq<T>, n: nat, x: T)
    requires n <= |s| && x in s[..n]
    ensures FirstIndex(s[..n], x) == FirstIndex(s, x)
  {
    assert s[..n][0] == s[0];
    if s[0] != x {
      assert s[..n][1..] == s[1..][..n - 1];
      FirstIndexPrefix(s[1..], n - 1, x);
    }
  }

  /** Deduplication keeps elements in the order of their first occurrence. */
  lemma {:induction false} DedupOrder<T(!new)>(s: seq<T>, i: nat, j: nat)
    requires i < j < |Dedup(s)|
    ensures FirstIndex(s, Dedup(s)[i]) < FirstIndex(s, Dedup(s)[j])
  {
    var init := s[..|s| - 1];
    var last := s[|s| - 1];
    var r := Dedup(init);
    if j < |r| {
      DedupOrder(init, i, j);
      FirstIndexPrefix(s, |s| - 1, r[i]);
      FirstIndexPrefix(s, |s| - 1, r[j]);
    } else {
      assert Dedup(s)[j] == last && last !in init;
      FirstIndexPrefix(s, |s| - 1, r[i]);
      assert FirstIndex(s, last) == |s| - 1;
    }
  }

  /** `s.count(x)` for a list. */
  function Count<T(==)>(s: seq<T>, x: T): (n: nat)
    ensures n <= |s|
  {
    if s == [] then 0 else (if s[0] == x then 1 else 0) + Count(s[1..], x)
  }

  lemma {:induction false} CountConcat<T>(a: seq<T>, b: seq<T>, x: T)
    ensures Count(a + b, x) == Count(a, x) + Count(b, x)
  {
    if a != [] {
      assert (a + b)[1..] == a[1..] + b;
      CountConcat(a[1..], b, x);
    } else {
      assert a + b == b;
    }
  }

  lemma {:induction false} CountAbsent<T>(s: seq<T>, x: T)
    requires forall k :: 0 <= k < |s| ==> s[k] != x
    ensures Count(s, x) == 0
  {
    if s != [] {
      CountAbsent(s[1..], x);
    }
  }
}
