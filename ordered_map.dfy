/**
 * A JavaScript `Map` as its entries in insertion order: `set` on a present
 * key replaces the value in place, on a new key appends; `delete` removes the
 * entry and keeps the order of the rest. Keys are strings throughout.
 */
module OrderedMap {
  import opened Wrappers

  type Entries<V> = seq<(string, V)>

  predicate DistinctKeys<V>(es: Entries<V>) {
    forall i, j :: 0 <= i < j < |es| ==> es[i].0 != es[j].0
  }

  predicate HasKey<V>(es: Entries<V>, k: string) {
    exists i :: 0 <= i < |es| && es[i].0 == k
  }

  /** The position of the first entry with key `k`. */
  function IndexOfKey<V>(es: Entries<V>, k: string): (r: Option<nat>)
    ensures r.Some? ==> (r.value < |es| && es[r.value].0 == k && forall j :: 0 <= j < r.value ==> es[j].0 != k)
    ensures r.None? <==> !HasKey(es, k)
  {
    if es == [] then None
    else if es[0].0 == k then Some(0)
    else match IndexOfKey(es[1..], k)
      case Some(i) =>
        Some(i + 1)
      case None =>
        assert forall j :: 0 < j < |es| ==> es[j] == es[1..][j - 1];
        None
  }

  /** `map.get(k)`. */
  function Get<V>(es: Entries<V>, k: string): (r: Option<V>)
    ensures r.Some? <==> HasKey(es, k)
  {
    match IndexOfKey(es, k)
    case Some(i) => Some(es[i].1)
    case None => None
  }

  /** `map.set(k, v)`. */
  function Put<V>(es: Entries<V>, k: string, v: V): Entries<V> {
    match IndexOfKey(es, k)
    case Some(i) => es[i := (k, v)]
    case None => es + [(k, v)]
  }

  /** `map.delete(k)`. */
  function Remove<V(!new)>(es: Entries<V>, k: string): (r: Entries<V>)
    ensures |r| <= |es|
    ensures forall e :: e in r <==> e in es && e.0 != k
  {
    if es == [] then [] else (if es[0].0 == k then [] else [es[0]]) + Remove(es[1..], k)
  }

  /** `Array.from(map.keys())`. */
  function Keys<V>(es: Entries<V>): (r: seq<string>)
    ensures |r| == |es| && forall i :: 0 <= i < |es| ==> r[i] == es[i].0
  {
    seq(|es|, i requires 0 <= i < |es| => es[i].0)
  }

  /** `Array.from(map.values())`. */
  function Values<V>(es: Entries<V>): (r: seq<V>)
    ensures |r| == |es| && forall i :: 0 <= i < |es| ==> r[i] == es[i].1
  {
    seq(|es|, i requires 0 <= i < |es| => es[i].1)
  }

  // ----------------------------------------------------------------- lemmas

  /** Reading a key just set gives the new value; every other key reads as before. */
  lemma GetAfterPut<V>(es: Entries<V>, k: string, v: V, k': string)
    requires DistinctKeys(es)
    ensures Get(Put(es, k, v), k') == if k' == k then Some(v) else Get(es, k')
  {
    var r := Put(es, k, v);
    PutKeepsDistinct(es, k, v);
    match IndexOfKey(es, k)
    case Some(i) =>
      if k' == k {
        IndexUnique(r, i, k);
      } else {
        match IndexOfKey(es, k')
        case Some(j) =>
          IndexUnique(r, j, k');
        case None =>
          assert !HasKey(r, k');
      }
    case None =>
      if k' == k {
        IndexUnique(r, |es|, k);
      } else {
        match IndexOfKey(es, k')
        case Some(j) =>
          IndexUnique(r, j, k');
        case None =>
          assert !HasKey(r, k');
      }
  }

  /** In a map with distinct keys, the entry with key `k` is the one `IndexOfKey` finds. */
  lemma IndexUnique<V>(es: Entries<V>, i: nat, k: string)
    requires DistinctKeys(es) && i < |es| && es[i].0 == k
    ensures IndexOfKey(es, k) == Some(i)
  {
  }

  /** Setting keeps keys distinct; a present key stays where it was and the length is kept. */
  lemma PutKeepsDistinct<V>(es: Entries<V>, k: string, v: V)
    requires DistinctKeys(es)
    ensures DistinctKeys(Put(es, k, v))
    ensures HasKey(es, k) ==> |Put(es, k, v)| == |es|
    ensures !HasKey(es, k) ==> Put(es, k, v) == es + [(k, v)]
  {
  }

  /** The keys after a set: the old keys and `k`, nothing else. */
  lemma PutKeys<V>(es: Entries<V>, k: string, v: V, k': string)
    ensures HasKey(Put(es, k, v), k') <==> HasKey(es, k') || k' == k
  {
    var r := Put(es, k, v);
    match IndexOfKey(es, k)
    case Some(i) =>
      if HasKey(r, k') {
        var j :| 0 <= j < |r| && r[j].0 == k';
        if j != i {
          assert es[j].0 == k';
        }
      }
      if HasKey(es, k') {
        var j :| 0 <= j < |es| && es[j].0 == k';
        if j != i {
          assert r[j].0 == k';
        } else {
          assert r[i].0 == k;
        }
      }
      if k' == k {
        assert r[i].0 == k;
      }
    case None =>
      if HasKey(es, k') {
        var j :| 0 <= j < |es| && es[j].0 == k';
        assert r[j].0 == k';
      }
      assert r[|es|].0 == k;
  }

  lemma {:induction false} RemoveKeepsDistinct<V(!new)>(es: Entries<V>, k: string)
    requires DistinctKeys(es)
    ensures DistinctKeys(Remove(es, k))
  {
    if es != [] {
      var tail := es[1..];
      assert DistinctKeys(tail) by {
        forall i, j | 0 <= i < j < |tail| ensures tail[i].0 != tail[j].0 {
          assert tail[i] == es[i + 1] && tail[j] == es[j + 1];
        }
      }
      RemoveKeepsDistinct(tail, k);
      var rest := Remove(tail, k);
      var r := Remove(es, k);
      if es[0].0 != k {
        forall i, j | 0 <= i < j < |r| ensures r[i].0 != r[j].0 {
          assert r[j] == rest[j - 1] && r[j] in rest && r[j] in tail;
          var m :| 0 <= m < |tail| && tail[m] == r[j];
          assert es[m + 1] == r[j];
          if i > 0 {
            assert r[i] == rest[i - 1];
          }
        }
      }
    }
  }

  /** Removing a key: it is gone and every other key reads as before. */
  lemma GetAfterRemove<V(!new)>(es: Entries<V>, k: string, k': string)
    requires DistinctKeys(es)
    ensures DistinctKeys(Remove(es, k))
    ensures Get(Remove(es, k), k') == if k' == k then None else Get(es, k')
  {
    RemoveKeepsDistinct(es, k);
    var r := Remove(es, k);
    if k' != k && HasKey(es, k') {
      var j := IndexOfKey(es, k').value;
      assert es[j] in r;
      var m :| 0 <= m < |r| && r[m] == es[j];
      IndexUnique(r, m, k');
    }
  }

  /** `Get` on a non-empty list: the head's key, else the tail. */
  lemma GetOfCons<V>(es: Entries<V>, k: string)
    requires es != []
    ensures Get(es, k) == if es[0].0 == k then Some(es[0].1) else Get(es[1..], k)
  {
  }

  /** The values of a map with distinct keys after a set on a present key: that value replaced in place. */
  lemma ValuesAfterPut<V>(es: Entries<V>, k: string, v: V)
    ensures var r := Values(Put(es, k, v));
      match IndexOfKey(es, k)
      case Some(i) => r == Values(es)[i := v]
      case None => r == Values(es) + [v]
  {
  }
}
