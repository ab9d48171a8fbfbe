/**
 * Array operations the source relies on: `filter`, `slice(0, n)` and the stable
 * `Array.prototype.sort` of ECMAScript 2019, modelled as an insertion sort driven by
 * the comparator. `le(a, b)` stands for `compare(a, b) <= 0`; when the comparator is a
 * total preorder on the elements being sorted, every stable sort gives this result.
 */
module Sequences {

  /** `s.filter(p)` */
  function Filter<T(!new)>(s: seq<T>, p: T -> bool): (r: seq<T>)
    ensures |r| <= |s|
    ensures forall i :: 0 <= i < |r| ==> p(r[i])
    ensures forall x :: x in r <==> x in s && p(x)
    ensures multiset(r) <= multiset(s)
  {
    if s == [] then []
    else if p(s[0]) then
      assert s == [s[0]] + s[1..];
      [s[0]] + Filter(s[1..], p)
    else
      assert s == [s[0]] + s[1..];
      Filter(s[1..], p)
  }

  lemma {:induction false} FilterAll<T(!new)>(s: seq<T>, p: T -> bool)
    requires forall i :: 0 <= i < |s| ==> p(s[i])
    ensures Filter(s, p) == s
  {
    if s != [] {
      FilterAll(s[1..], p);
    }
  }

  /** `s.slice(0, end)`: a negative end counts from the back. */
  function SliceTo<T>(s: seq<T>, end: int): (r: seq<T>)
    ensures |r| <= |s|
    ensures end >= 0 ==> |r| == if end < |s| then end else |s|
    ensures r == s[..|r|]
  {
    var k := if end >= 0 then (if end < |s| then end else |s|)
             else (if |s| + end > 0 then |s| + end else 0);
    s[..k]
  }

  /** `s.slice(from, to)` for non-negative bounds: both are clamped to the length. */
  function Slice<T>(s: seq<T>, from: nat, to: nat): (r: seq<T>)
    ensures to <= |s| && from <= to ==> r == s[from..to]
    ensures |r| <= |s|
  {
    var hi := if to < |s| then to else |s|;
    var lo := if from < hi then from else hi;
    s[lo..hi]
  }

  /** Every pair of elements of `s` compares one way or the other, and `le` chains. */
  ghost predicate TotalPreorderOn<T>(le: (T, T) -> bool, s: seq<T>) {
    && (forall a, b :: a in s && b in s ==> le(a, b) || le(b, a))
    && (forall a, b, c :: a in s && b in s && c in s && le(a, b) && le(b, c) ==> le(a, c))
  }

  ghost predicate SortedBy<T>(le: (T, T) -> bool, s: seq<T>) {
    forall i, j :: 0 <= i < j < |s| ==> le(s[i], s[j])
  }

  /** A prefix of a sorted sequence is sorted. */
  lemma SortedByPrefix<T>(le: (T, T) -> bool, s: seq<T>, k: nat)
    requires SortedBy(le, s) && k <= |s|
    ensures SortedBy(le, s[..k])
  {
  }

  /** In a sorted list, an element outside a prefix may follow every element of the prefix. */
  lemma SortedPrefixBefore<T>(sorted: seq<T>, k: nat, le: (T, T) -> bool, g: T)
    requires SortedBy(le, sorted) && k <= |sorted|
    requires g in sorted && g !in sorted[..k]
    ensures forall f :: f in sorted[..k] ==> le(f, g)
  {
  }

  /** Put x in front of the first element it may precede. */
  function Insert<T>(x: T, s: seq<T>, le: (T, T) -> bool): (r: seq<T>)
    ensures multiset(r) == multiset(s) + multiset{x}
    ensures |r| == |s| + 1
  {
    if s == [] then [x]
    else if le(x, s[0]) then [x] + s
    else
      assert s == [s[0]] + s[1..];
      [s[0]] + Insert(x, s[1..], le)
  }

  /** The stable sort: the result is always a permutation of the input. */
  function Sort<T>(s: seq<T>, le: (T, T) -> bool): (r: seq<T>)
    ensures multiset(r) == multiset(s)
    ensures |r| == |s|
  {
    if s == [] then []
    else
      assert s == [s[0]] + s[1..];
      Insert(s[0], Sort(s[1..], le), le)
  }

  lemma TotalPreorderOnSub<T>(le: (T, T) -> bool, s: seq<T>, t: seq<T>)
    requires TotalPreorderOn(le, s)
    requires forall i :: 0 <= i < |t| ==> t[i] in s
    ensures TotalPreorderOn(le, t)
  {
  }

  /** Every element of Insert(x, s) is x or an element of s. */
  lemma InsertElements<T>(x: T, s: seq<T>, le: (T, T) -> bool)
    ensures forall i :: 0 <= i < |Insert(x, s, le)| ==> Insert(x, s, le)[i] == x || Insert(x, s, le)[i] in s
  {
    var r := Insert(x, s, le);
    forall i | 0 <= i < |r| ensures r[i] == x || r[i] in s {
      assert r[i] in multiset(s) + multiset{x};
    }
  }

  lemma SortElements<T>(s: seq<T>, le: (T, T) -> bool)
    ensures forall i :: 0 <= i < |Sort(s, le)| ==> Sort(s, le)[i] in s
  {
    var r := Sort(s, le);
    forall i | 0 <= i < |r| ensures r[i] in s {
      assert r[i] in multiset(s);
    }
  }

  lemma {:induction false} InsertSorted<T>(x: T, s: seq<T>, le: (T, T) -> bool)
    requires TotalPreorderOn(le, [x] + s)
    requires SortedBy(le, s)
    ensures SortedBy(le, Insert(x, s, le))
    decreases |s|, 1
  {
    if s == [] {
    } else if le(x, s[0]) {
      InsertFrontSorted(x, s, le);
    } else {
      InsertAfterHead(x, s, le);
    }
  }

  lemma InsertFrontSorted<T>(x: T, s: seq<T>, le: (T, T) -> bool)
    requires TotalPreorderOn(le, [x] + s)
    requires SortedBy(le, s)
    requires s != [] && le(x, s[0])
    ensures SortedBy(le, [x] + s)
  {
    var r := [x] + s;
    forall i, j | 0 <= i < j < |r| ensures le(r[i], r[j]) {
      if i == 0 && j > 1 {
        assert r[j] == s[j - 1];
        assert le(s[0], s[j - 1]);
        assert x in r && s[0] in r && s[j - 1] in r;
      } else if i > 0 {
        assert r[i] == s[i - 1] && r[j] == s[j - 1];
      }
    }
  }

  lemma {:induction false} InsertAfterHead<T>(x: T, s: seq<T>, le: (T, T) -> bool)
    requires TotalPreorderOn(le, [x] + s)
    requires SortedBy(le, s)
    requires s != [] && !le(x, s[0])
    ensures SortedBy(le, Insert(x, s, le))
    decreases |s|, 0
  {
    assert le(s[0], x) by { assert x in [x] + s && s[0] in [x] + s; }
    TotalPreorderOnSub(le, [x] + s, [x] + s[1..]);
    InsertSorted(x, s[1..], le);
    var t := Insert(x, s[1..], le);
    InsertElements(x, s[1..], le);
    assert Insert(x, s, le) == [s[0]] + t;
    forall j | 0 <= j < |t| ensures le(s[0], t[j]) {
      if t[j] != x {
        var k :| 0 <= k < |s[1..]| && s[1..][k] == t[j];
        assert s[k + 1] == t[j];
      }
    }
  }

  lemma {:induction false} SortSorted<T>(s: seq<T>, le: (T, T) -> bool)
    requires TotalPreorderOn(le, s)
    ensures SortedBy(le, Sort(s, le))
  {
    if s != [] {
      TotalPreorderOnSub(le, s, s[1..]);
      SortSorted(s[1..], le);
      var t := Sort(s[1..], le);
      SortElements(s[1..], le);
      TotalPreorderOnSub(le, s, [s[0]] + t);
      InsertSorted(s[0], t, le);
    }
  }

  /** The elements of s that `le` ranks equal to x, in their order in s. */
  function Equivalents<T>(s: seq<T>, x: T, le: (T, T) -> bool): seq<T>
  {
    if s == [] then []
    else (if le(x, s[0]) && le(s[0], x) then [s[0]] else []) + Equivalents(s[1..], x, le)
  }

  lemma {:induction false} InsertEquivalents<T>(y: T, s: seq<T>, x: T, le: (T, T) -> bool)
    requires TotalPreorderOn(le, [x, y] + s)
    ensures Equivalents(Insert(y, s, le), x, le)
         == (if le(x, y) && le(y, x) then [y] else []) + Equivalents(s, x, le)
    decreases |s|, 1
  {
    if s == [] {
    } else if le(y, s[0]) {
      assert Insert(y, s, le) == [y] + s;
    } else {
      InsertEquivalentsAfterHead(y, s, x, le);
    }
  }

  lemma {:induction false} InsertEquivalentsAfterHead<T>(y: T, s: seq<T>, x: T, le: (T, T) -> bool)
    requires TotalPreorderOn(le, [x, y] + s)
    requires s != [] && !le(y, s[0])
    ensures Equivalents(Insert(y, s, le), x, le)
         == (if le(x, y) && le(y, x) then [y] else []) + Equivalents(s, x, le)
    decreases |s|, 0
  {
    TotalPreorderOnSub(le, [x, y] + s, [x, y] + s[1..]);
    InsertEquivalents(y, s[1..], x, le);
    var head := if le(x, s[0]) && le(s[0], x) then [s[0]] else [];
    var mid := if le(x, y) && le(y, x) then [y] else [];
    var rest := Equivalents(s[1..], x, le);
    EquivalentsCons(s[0], Insert(y, s[1..], le), x, le);
    assert s == [s[0]] + s[1..];
    EquivalentsCons(s[0], s[1..], x, le);
    if mid != [] {
      assert x in [x, y] + s && y in [x, y] + s && s[0] in [x, y] + s;
      StrictlyBelowNotEquivalent(x, y, s[0], le, [x, y] + s);
    }
    SwapAroundEmpty(head, mid, rest);
  }

  lemma EquivalentsCons<T>(h: T, t: seq<T>, x: T, le: (T, T) -> bool)
    ensures Equivalents([h] + t, x, le) == (if le(x, h) && le(h, x) then [h] else []) + Equivalents(t, x, le)
  {
    assert ([h] + t)[0] == h && ([h] + t)[1..] == t;
  }

  /** Two pieces, one of them empty, may be put in either order. */
  lemma SwapAroundEmpty<T>(a: seq<T>, b: seq<T>, c: seq<T>)
    requires a == [] || b == []
    ensures a + (b + c) == b + (a + c)
  {
    if a == [] {
      assert a + (b + c) == b + c && a + c == c;
    } else {
      assert b + c == c && b + (a + c) == a + c;
    }
  }

  /** z ranks strictly below y, so it cannot rank equal to an x that ranks equal to y. */
  lemma StrictlyBelowNotEquivalent<T>(x: T, y: T, z: T, le: (T, T) -> bool, s: seq<T>)
    requires TotalPreorderOn(le, s) && x in s && y in s && z in s
    requires le(x, y) && le(y, x) && !le(y, z)
    ensures !(le(x, z) && le(z, x))
  {
  }

  /** Stability: elements the comparator ranks equal keep their input order. */
  lemma {:induction false} SortStable<T>(s: seq<T>, x: T, le: (T, T) -> bool)
    requires TotalPreorderOn(le, [x] + s)
    ensures Equivalents(Sort(s, le), x, le) == Equivalents(s, x, le)
  {
    if s != [] {
      TotalPreorderOnSub(le, [x] + s, [x] + s[1..]);
      SortStable(s[1..], x, le);
      var t := Sort(s[1..], le);
      SortElements(s[1..], le);
      TotalPreorderOnSub(le, [x] + s, [x, s[0]] + t);
      InsertEquivalents(s[0], t, x, le);
    }
  }

  /** When the comparator ranks every pair equal, sorting changes nothing. */
  lemma {:induction false} SortAllEqual<T>(s: seq<T>, le: (T, T) -> bool)
    requires forall i, j :: 0 <= i < |s| && 0 <= j < |s| ==> le(s[i], s[j])
    ensures Sort(s, le) == s
  {
    if s != [] {
      var t := s[1..];
      AllRelatedTail(s, t, le);
      SortAllEqual(t, le);
      assert Sort(s, le) == Insert(s[0], t, le);
      if t != [] {
        assert le(s[0], t[0]);
      }
      InsertFront(s[0], t, le);
      assert s == [s[0]] + t;
    }
  }

  lemma InsertFront<T>(x: T, t: seq<T>, le: (T, T) -> bool)
    requires t == [] || le(x, t[0])
    ensures Insert(x, t, le) == [x] + t
  {
  }

  lemma AllRelatedTail<T>(s: seq<T>, t: seq<T>, le: (T, T) -> bool)
    requires s != [] && t == s[1..]
    requires forall i, j :: 0 <= i < |s| && 0 <= j < |s| ==> le(s[i], s[j])
    ensures forall i, j :: 0 <= i < |t| && 0 <= j < |t| ==> le(t[i], t[j])
  {
    assert forall i :: 0 <= i < |t| ==> t[i] == s[i + 1];
  }
}
