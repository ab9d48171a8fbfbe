/**
 * The ECMAScript `Map` as the source uses it: a list of entries in insertion order.
 * `set` on a key already present replaces its value where it stands; a new key is
 * appended at the end; iteration follows that order.
 */
module OrderedMaps {
  import opened Wrappers

  type OrderedMap<K, V> = seq<(K, V)>

  function Keys<K, V>(m: OrderedMap<K, V>): seq<K> {
    seq(|m|, i requires 0 <= i < |m| => m[i].0)
  }

  /** No key occurs twice. */
  ghost predicate DistinctKeys<K, V>(m: OrderedMap<K, V>) {
    forall i, j :: 0 <= i < j < |m| ==> m[i].0 != m[j].0
  }

  /** `map.get(k)`, with `undefined` as None. */
  function Get<K(==,!new), V>(m: OrderedMap<K, V>, k: K): (r: Option<V>)
    ensures r.None? <==> k !in Keys(m)
    ensures r.Some? ==> (k, r.value) in m
  {
    if m == [] then None
    else if m[0].0 == k then
      assert Keys(m)[0] == k;
      Some(m[0].1)
    else
      assert Keys(m) == [m[0].0] + Keys(m[1..]);
      Get(m[1..], k)
  }

  predicate Has<K(==,!new), V>(m: OrderedMap<K, V>, k: K) {
    k in Keys(m)
  }

  /** `map.set(k, v)` */
  function Set<K(==,!new), V>(m: OrderedMap<K, V>, k: K, v: V): (r: OrderedMap<K, V>)
    ensures Get(r, k) == Some(v)
    ensures forall k' :: k' != k ==> Get(r, k') == Get(m, k')
    ensures Keys(r) == if k in Keys(m) then Keys(m) else Keys(m) + [k]
  {
    if m == [] then [(k, v)]
    else if m[0].0 == k then
      SetAtHead(m, k, v);
      [(k, v)] + m[1..]
    else
      var rest := Set(m[1..], k, v);
      SetPastHead(m, k, rest);
      [m[0]] + rest
  }

  /** Get on a list with a known first entry. */
  lemma GetCons<K(!new), V>(e: (K, V), t: OrderedMap<K, V>, k: K)
    ensures Get([e] + t, k) == if e.0 == k then Some(e.1) else Get(t, k)
  {
    assert ([e] + t)[1..] == t;
  }

  lemma SetAtHead<K(!new), V>(m: OrderedMap<K, V>, k: K, v: V)
    requires m != [] && m[0].0 == k
    ensures Get([(k, v)] + m[1..], k) == Some(v)
    ensures forall k' :: k' != k ==> Get([(k, v)] + m[1..], k') == Get(m, k')
    ensures k in Keys(m) && Keys([(k, v)] + m[1..]) == Keys(m)
  {
    KeysCons((k, v), m[1..]);
    KeysCons(m[0], m[1..]);
    assert m == [m[0]] + m[1..];
    GetCons((k, v), m[1..], k);
    forall k' | k' != k ensures Get([(k, v)] + m[1..], k') == Get(m, k') {
      GetCons((k, v), m[1..], k');
      GetCons(m[0], m[1..], k');
    }
  }

  lemma SetPastHead<K(!new), V>(m: OrderedMap<K, V>, k: K, rest: OrderedMap<K, V>)
    requires m != [] && m[0].0 != k
    requires Keys(rest) == if k in Keys(m[1..]) then Keys(m[1..]) else Keys(m[1..]) + [k]
    ensures forall k' :: Get([m[0]] + rest, k') == if m[0].0 == k' then Get(m, k') else Get(rest, k')
    ensures Keys([m[0]] + rest) == if k in Keys(m) then Keys(m) else Keys(m) + [k]
  {
    KeysCons(m[0], m[1..]);
    KeysCons(m[0], rest);
    assert m == [m[0]] + m[1..];
    forall k' ensures Get([m[0]] + rest, k') == if m[0].0 == k' then Get(m, k') else Get(rest, k') {
      GetCons(m[0], rest, k');
      GetCons(m[0], m[1..], k');
    }
  }

  lemma KeysCons<K, V>(e: (K, V), m: OrderedMap<K, V>)
    ensures Keys([e] + m) == [e.0] + Keys(m)
  {
  }

  lemma SetKeepsKeysDistinct<K(!new), V>(m: OrderedMap<K, V>, k: K, v: V)
    requires DistinctKeys(m)
    ensures DistinctKeys(Set(m, k, v))
  {
    var r := Set(m, k, v);
    var ks := Keys(r);
    forall i, j | 0 <= i < j < |r| ensures r[i].0 != r[j].0 {
      assert ks[i] == r[i].0 && ks[j] == r[j].0;
      if k in Keys(m) {
        assert ks == Keys(m);
        assert Keys(m)[i] == m[i].0 && Keys(m)[j] == m[j].0;
      } else if j < |m| {
        assert ks[..|m|] == Keys(m);
        assert Keys(m)[i] == m[i].0 && Keys(m)[j] == m[j].0;
      } else {
        assert ks[j] == k;
        assert ks[i] == Keys(m)[i];
      }
    }
  }

  /** The map built by setting each entry of a list in turn, as `new Map()` then `set` in a loop. */
  function SetAll<K(==,!new), V>(m: OrderedMap<K, V>, entries: seq<(K, V)>): (r: OrderedMap<K, V>)
    decreases |entries|
  {
    if entries == [] then m
    else SetAll(Set(m, entries[0].0, entries[0].1), entries[1..])
  }

  /** Later entries win: the value of a key is that of its last entry. */
  lemma SetAllGetLast<K(!new), V>(m: OrderedMap<K, V>, entries: seq<(K, V)>, k: K, i: nat)
    requires i < |entries| && entries[i].0 == k
    requires forall j :: i < j < |entries| ==> entries[j].0 != k
    ensures Get(SetAll(m, entries), k) == Some(entries[i].1)
  {
    var before, e, after := entries[..i], entries[i], entries[i + 1..];
    assert entries == (before + [e]) + after;
    SetAllAppend(m, before + [e], after);
    SetAllSnoc(m, before, e);
    var upTo := SetAll(m, before + [e]);
    assert Get(upTo, k) == Some(e.1);
    TailAvoids(entries, k, i, after);
    SetAllUntouched(upTo, after, k);
  }

  lemma TailAvoids<K, V>(entries: seq<(K, V)>, k: K, i: nat, after: seq<(K, V)>)
    requires i < |entries| && after == entries[i + 1..]
    requires forall j :: i < j < |entries| ==> entries[j].0 != k
    ensures forall j :: 0 <= j < |after| ==> after[j].0 != k
  {
    assert forall j :: 0 <= j < |after| ==> after[j] == entries[i + 1 + j];
  }

  /** A key that no entry mentions keeps its value. */
  lemma {:induction false} SetAllUntouched<K(!new), V>(m: OrderedMap<K, V>, entries: seq<(K, V)>, k: K)
    requires forall j :: 0 <= j < |entries| ==> entries[j].0 != k
    ensures Get(SetAll(m, entries), k) == Get(m, k)
    decreases |entries|
  {
    if entries != [] {
      SetAllUntouched(Set(m, entries[0].0, entries[0].1), entries[1..], k);
    }
  }

  lemma {:induction false} SetAllKeepsKeysDistinct<K(!new), V>(m: OrderedMap<K, V>, entries: seq<(K, V)>)
    requires DistinctKeys(m)
    ensures DistinctKeys(SetAll(m, entries))
    decreases |entries|
  {
    if entries != [] {
      SetKeepsKeysDistinct(m, entries[0].0, entries[0].1);
      SetAllKeepsKeysDistinct(Set(m, entries[0].0, entries[0].1), entries[1..]);
    }
  }

  /** Setting one more entry after a list of them. */
  lemma {:induction false} SetAllSnoc<K(!new), V>(m: OrderedMap<K, V>, entries: seq<(K, V)>, e: (K, V))
    ensures SetAll(m, entries + [e]) == Set(SetAll(m, entries), e.0, e.1)
    decreases |entries|
  {
    if entries == [] {
      assert entries + [e] == [e];
    } else {
      assert (entries + [e])[1..] == entries[1..] + [e];
      SetAllSnoc(Set(m, entries[0].0, entries[0].1), entries[1..], e);
    }
  }

  lemma {:induction false} SetAllAppend<K(!new), V>(m: OrderedMap<K, V>, a: seq<(K, V)>, b: seq<(K, V)>)
    ensures SetAll(m, a + b) == SetAll(SetAll(m, a), b)
    decreases |a|
  {
    if a == [] {
      assert a + b == b;
    } else {
      assert (a + b)[1..] == a[1..] + b;
      SetAllAppend(Set(m, a[0].0, a[0].1), a[1..], b);
    }
  }

  /** Every entry after `set` was there before or is the new one. */
  lemma {:induction false} SetEntries<K(!new), V>(m: OrderedMap<K, V>, k: K, v: V)
    ensures forall e :: e in Set(m, k, v) ==> e in m || e == (k, v)
  {
    if m != [] && m[0].0 != k {
      SetEntries(m[1..], k, v);
    }
  }

  lemma {:induction false} SetAllEntries<K(!new), V>(m: OrderedMap<K, V>, entries: seq<(K, V)>)
    ensures forall e :: e in SetAll(m, entries) ==> e in m || e in entries
    decreases |entries|
  {
    if entries != [] {
      SetEntries(m, entries[0].0, entries[0].1);
      SetAllEntries(Set(m, entries[0].0, entries[0].1), entries[1..]);
    }
  }

  lemma SetAllSingle<K(!new), V>(m: OrderedMap<K, V>, k: K, v: V)
    ensures SetAll(m, [(k, v)]) == Set(m, k, v)
  {
    assert [(k, v)][1..] == [];
  }
}
