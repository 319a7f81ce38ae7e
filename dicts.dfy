/** Python's `dict` as this program uses it: a sequence of (key, value) entries kept in
    insertion order with at most one entry per key. Assigning to a key that is already
    present replaces its value where it stands; assigning to a new key appends an entry.
    A dict display `{k1: v1, k2: v2, ...}` is the same sequence of assignments, left to right. */
module Dicts {
  import opened Wrappers

  predicate UniqueKeys<V>(entries: seq<(string, V)>) {
    forall i, j :: 0 <= i < j < |entries| ==> entries[i].0 != entries[j].0
  }

  type Dict<V> = d: seq<(string, V)> | UniqueKeys(d) witness []

  /** The keys, in entry order (`list(d.keys())`). */
  function Keys<V>(entries: seq<(string, V)>): seq<string> {
    seq(|entries|, i requires 0 <= i < |entries| => entries[i].0)
  }

  function KeySet<V>(entries: seq<(string, V)>): set<string> {
    set k | k in Keys(entries)
  }

  lemma KeysOfAppend<V>(a: seq<(string, V)>, b: seq<(string, V)>)
    ensures Keys(a + b) == Keys(a) + Keys(b)
    ensures KeySet(a + b) == KeySet(a) + KeySet(b)
  {
    assert Keys(a + b) == Keys(a) + Keys(b);
  }

  lemma KeysOfInit<V>(pairs: seq<(string, V)>)
    requires pairs != []
    ensures Keys(pairs) == Keys(pairs[..|pairs| - 1]) + [pairs[|pairs| - 1].0]
    ensures KeySet(pairs) == KeySet(pairs[..|pairs| - 1]) + {pairs[|pairs| - 1].0}
  {
    assert pairs == pairs[..|pairs| - 1] + [pairs[|pairs| - 1]];
    KeysOfAppend(pairs[..|pairs| - 1], [pairs[|pairs| - 1]]);
  }

  /** Position of the entry for `k`, if there is one. */
  function IndexOf<V>(entries: seq<(string, V)>, k: string): (r: Option<nat>)
    ensures r.Some? ==> r.value < |entries| && entries[r.value].0 == k
    ensures r.Some? ==> forall j :: 0 <= j < r.value ==> entries[j].0 != k
    ensures r.None? <==> k !in KeySet(entries)
    decreases |entries|
  {
    if entries == [] then None
    else if entries[0].0 == k then
      assert Keys(entries)[0] == k;
      Some(0)
    else
      assert Keys(entries) == [entries[0].0] + Keys(entries[1..]);
      match IndexOf(entries[1..], k)
      case Some(i) => assert entries[1..][i] == entries[i + 1]; Some(i + 1)
      case None => None
  }

  /** `d.get(k)`: the value stored under `k`. */
  function Get<V>(d: Dict<V>, k: string): (r: Option<V>)
    ensures r.Some? <==> k in KeySet(d)
    ensures r.Some? ==> exists i :: 0 <= i < |d| && d[i].0 == k && d[i].1 == r.value
  {
    match IndexOf(d, k)
    case Some(i) => Some(d[i].1)
    case None => None
  }

  lemma GetOfEntry<V>(d: Dict<V>, i: nat)
    requires i < |d|
    ensures Get(d, d[i].0) == Some(d[i].1)
  {
    assert Keys(d)[i] == d[i].0;
  }

  /** `d[k] = v`. */
  function Put<V>(d: Dict<V>, k: string, v: V): (r: Dict<V>)
    ensures Keys(r) == if k in KeySet(d) then Keys(d) else Keys(d) + [k]
    ensures KeySet(r) == KeySet(d) + {k}
    ensures Get(r, k) == Some(v)
    ensures forall k' :: k' != k ==> Get(r, k') == Get(d, k')
  {
    match IndexOf(d, k)
    case Some(i) =>
      var r := d[i := (k, v)];
      assert Keys(r) == Keys(d);
      GetOfEntry(r, i);
      assert forall k' :: k' != k ==> Get(r, k') == Get(d, k') by {
        forall k' | k' != k ensures Get(r, k') == Get(d, k') {
          if k' in KeySet(d) {
            var j := IndexOf(d, k').value;
            assert r[j] == d[j];
            GetOfEntry(d, j);
            GetOfEntry(r, j);
          }
        }
      }
      r
    case None =>
      assert forall j :: 0 <= j < |d| ==> d[j].0 != k by {
        forall j | 0 <= j < |d| ensures d[j].0 != k {
          assert Keys(d)[j] in Keys(d);
        }
      }
      var r: Dict<V> := d + [(k, v)];
      KeysOfAppend(d, [(k, v)]);
      GetOfEntry(r, |d|);
      assert forall k' :: k' != k ==> Get(r, k') == Get(d, k') by {
        forall k' | k' != k ensures Get(r, k') == Get(d, k') {
          if k' in KeySet(d) {
            var j := IndexOf(d, k').value;
            assert r[j] == d[j];
            GetOfEntry(d, j);
            GetOfEntry(r, j);
          }
        }
      }
      r
  }

  /** The dict built by assigning the pairs one after the other, as a dict display does. */
  function FromPairs<V>(pairs: seq<(string, V)>): Dict<V>
    decreases |pairs|
  {
    if pairs == [] then []
    else
      var last := pairs[|pairs| - 1];
      Put(FromPairs(pairs[..|pairs| - 1]), last.0, last.1)
  }

  /** `k` is given `v` by the last pair that mentions `k`. */
  ghost predicate LastWrite<V>(pairs: seq<(string, V)>, k: string, v: V) {
    exists i :: 0 <= i < |pairs| && pairs[i].0 == k && pairs[i].1 == v &&
      forall j :: i < j < |pairs| ==> pairs[j].0 != k
  }

  lemma LastWriteOfLast<V>(pairs: seq<(string, V)>)
    requires pairs != []
    ensures LastWrite(pairs, pairs[|pairs| - 1].0, pairs[|pairs| - 1].1)
  {
    var n := |pairs| - 1;
    assert pairs[n].0 == pairs[n].0 && pairs[n].1 == pairs[n].1;
  }

  lemma LastWriteOfInit<V>(pairs: seq<(string, V)>, k: string, v: V)
    requires pairs != [] && pairs[|pairs| - 1].0 != k
    requires LastWrite(pairs[..|pairs| - 1], k, v)
    ensures LastWrite(pairs, k, v)
  {
    var init := pairs[..|pairs| - 1];
    var i :| 0 <= i < |init| && init[i].0 == k && init[i].1 == v &&
      forall j :: i < j < |init| ==> init[j].0 != k;
    assert pairs[i] == init[i];
    forall j | i < j < |pairs| ensures pairs[j].0 != k {
      if j < |init| { assert pairs[j] == init[j]; }
    }
  }

  /** Pairs written after the last write of `k` leave it the last write when they do not mention `k`. */
  lemma LastWriteOfAppend<V>(a: seq<(string, V)>, b: seq<(string, V)>, k: string, v: V)
    requires LastWrite(a, k, v) && k !in KeySet(b)
    ensures LastWrite(a + b, k, v)
  {
    var i :| 0 <= i < |a| && a[i].0 == k && a[i].1 == v && forall j :: i < j < |a| ==> a[j].0 != k;
    assert (a + b)[i] == a[i];
    forall j | i < j < |a + b| ensures (a + b)[j].0 != k {
      if j < |a| {
        assert (a + b)[j] == a[j];
      } else {
        assert (a + b)[j] == b[j - |a|];
        assert Keys(b)[j - |a|] in Keys(b);
      }
    }
  }

  /** Pairs written before do not matter to the last write. */
  lemma LastWriteOfPrepend<V>(a: seq<(string, V)>, b: seq<(string, V)>, k: string, v: V)
    requires LastWrite(b, k, v)
    ensures LastWrite(a + b, k, v)
  {
    var i :| 0 <= i < |b| && b[i].0 == k && b[i].1 == v && forall j :: i < j < |b| ==> b[j].0 != k;
    assert (a + b)[|a| + i] == b[i];
    forall j | |a| + i < j < |a + b| ensures (a + b)[j].0 != k {
      assert (a + b)[j] == b[j - |a|];
    }
  }

  /** The value a dict display gives a key is the value of that key's last pair, whichever it is. */
  lemma LastWriteUnique<V>(pairs: seq<(string, V)>, k: string, v: V, w: V)
    requires LastWrite(pairs, k, v) && LastWrite(pairs, k, w)
    ensures v == w
  {
    var i :| 0 <= i < |pairs| && pairs[i].0 == k && pairs[i].1 == v &&
      forall j :: i < j < |pairs| ==> pairs[j].0 != k;
    var i' :| 0 <= i' < |pairs| && pairs[i'].0 == k && pairs[i'].1 == w &&
      forall j :: i' < j < |pairs| ==> pairs[j].0 != k;
  }

  /** The keys of `xs` with every repetition after the first removed. */
  function Dedup(xs: seq<string>): (r: seq<string>)
    ensures forall i, j :: 0 <= i < j < |r| ==> r[i] != r[j]
    ensures forall x :: x in r <==> x in xs
    decreases |xs|
  {
    if xs == [] then []
    else
      var init := xs[..|xs| - 1];
      var x := xs[|xs| - 1];
      assert xs == init + [x];
      if x in init then Dedup(init) else Dedup(init) + [x]
  }

  /** A dict built from a display holds exactly the keys the display mentions. */
  lemma {:induction false} FromPairsKeySet<V>(pairs: seq<(string, V)>)
    ensures KeySet(FromPairs(pairs)) == KeySet(pairs)
    decreases |pairs|
  {
    if pairs != [] {
      FromPairsKeySet(pairs[..|pairs| - 1]);
      KeysOfInit(pairs);
    }
  }

  /** On a repeated key the later value wins. */
  lemma {:induction false} FromPairsGet<V>(pairs: seq<(string, V)>, k: string)
    ensures Get(FromPairs(pairs), k).None? <==> k !in KeySet(pairs)
    ensures Get(FromPairs(pairs), k).Some? ==> LastWrite(pairs, k, Get(FromPairs(pairs), k).value)
    decreases |pairs|
  {
    FromPairsKeySet(pairs);
    if pairs != [] {
      var init := pairs[..|pairs| - 1];
      var last := pairs[|pairs| - 1];
      FromPairsGet(init, k);
      if last.0 == k {
        LastWriteOfLast(pairs);
      } else if Get(FromPairs(init), k).Some? {
        LastWriteOfInit(pairs, k, Get(FromPairs(init), k).value);
      }
    }
  }

  /** The value a dict display stores under a key is the one its last pair for that key gives. */
  lemma GetOfLastWrite<V>(pairs: seq<(string, V)>, k: string, v: V)
    requires LastWrite(pairs, k, v)
    ensures Get(FromPairs(pairs), k) == Some(v)
  {
    assert k in KeySet(pairs) by {
      var i :| 0 <= i < |pairs| && pairs[i].0 == k && pairs[i].1 == v &&
        forall j :: i < j < |pairs| ==> pairs[j].0 != k;
      assert Keys(pairs)[i] == k;
    }
    FromPairsGet(pairs, k);
    LastWriteUnique(pairs, k, v, Get(FromPairs(pairs), k).value);
  }

  /** A key keeps the position of its first pair: the keys come out in first-occurrence order. */
  lemma {:induction false} FromPairsKeys<V>(pairs: seq<(string, V)>)
    ensures Keys(FromPairs(pairs)) == Dedup(Keys(pairs))
    decreases |pairs|
  {
    if pairs != [] {
      var init := pairs[..|pairs| - 1];
      FromPairsKeys(init);
      FromPairsKeySet(init);
      KeysOfInit(pairs);
      assert Keys(pairs)[..|pairs| - 1] == Keys(init);
    }
  }

  lemma {:induction false} UniqueKeysCard<V>(d: Dict<V>)
    ensures |KeySet(d)| == |d|
    decreases |d|
  {
    if d != [] {
      var init: Dict<V> := d[..|d| - 1];
      UniqueKeysCard(init);
      KeysOfInit(d);
      assert d[|d| - 1].0 !in Keys(init) by {
        forall i | 0 <= i < |init| ensures Keys(init)[i] != d[|d| - 1].0 {
          assert init[i] == d[i];
        }
      }
    }
  }

  lemma {:induction false} KeySetSize<V>(pairs: seq<(string, V)>)
    ensures |KeySet(pairs)| <= |pairs|
    decreases |pairs|
  {
    if pairs != [] {
      KeySetSize(pairs[..|pairs| - 1]);
      KeysOfInit(pairs);
    }
  }

  /** A dict display has one entry per distinct key it mentions. */
  lemma FromPairsSize<V>(pairs: seq<(string, V)>)
    ensures |FromPairs(pairs)| == |KeySet(pairs)|
  {
    FromPairsKeySet(pairs);
    UniqueKeysCard(FromPairs(pairs));
  }

  /** One more pair is one more assignment. */
  lemma FromPairsSnoc<V>(pairs: seq<(string, V)>, k: string, v: V)
    ensures FromPairs(pairs + [(k, v)]) == Put(FromPairs(pairs), k, v)
  {
    assert (pairs + [(k, v)])[..|pairs|] == pairs;
  }

  /** The first pair's key is the first key of the dict. */
  lemma {:induction false} FromPairsFirst<V>(pairs: seq<(string, V)>)
    requires pairs != []
    ensures FromPairs(pairs) != [] && FromPairs(pairs)[0].0 == pairs[0].0
    decreases |pairs|
  {
    var init := pairs[..|pairs| - 1];
    if init != [] {
      FromPairsFirst(init);
      assert init[0] == pairs[0];
      assert Keys(FromPairs(init))[0] == pairs[0].0;
    }
    assert Keys(FromPairs(pairs))[0] == FromPairs(pairs)[0].0;
  }
}
