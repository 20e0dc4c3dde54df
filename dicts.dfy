// Python dictionaries keep insertion order, and fujin renders several of them
// in that order (status rows, info lines, configuration tables). A dictionary
// is therefore an association list with at most one entry per key.

module Dicts {
  import opened Wrappers

  type Dict<V> = seq<(string, V)>

  function Keys<V>(d: Dict<V>): (r: seq<string>)
    ensures |r| == |d|
    ensures forall i :: 0 <= i < |d| ==> r[i] == d[i].0
  {
    if d == [] then [] else [d[0].0] + Keys(d[1..])
  }

  predicate Distinct(s: seq<string>) {
    forall i, j :: 0 <= i < j < |s| ==> s[i] != s[j]
  }

  predicate DistinctKeys<V>(d: Dict<V>) {
    Distinct(Keys(d))
  }

  /** `d.get(k)`: the value of the (first) entry for `k`. */
  function Get<V>(d: Dict<V>, k: string): (r: Option<V>)
    ensures r.None? <==> k !in Keys(d)
    ensures r.Some? ==> (k, r.value) in d
  {
    if d == [] then None
    else if d[0].0 == k then Some(d[0].1)
    else Get(d[1..], k)
  }

  /** `d.get(k, default)` */
  function GetOr<V>(d: Dict<V>, k: string, default: V): V {
    match Get(d, k)
    case Some(v) => v
    case None => default
  }

  /** `d[k] = v`: an existing key keeps its place, a new key goes last. */
  function Put<V>(d: Dict<V>, k: string, v: V): (r: Dict<V>)
    ensures Get(r, k) == Some(v)
    ensures forall k' :: k' != k ==> Get(r, k') == Get(d, k')
  {
    if d == [] then [(k, v)]
    else if d[0].0 == k then [(k, v)] + d[1..]
    else
      [d[0]] + Put(d[1..], k, v)
  }

  /** In a dictionary without repeated keys, `d[k]` is the value stored beside `k`. */
  lemma {:induction false} GetAt<V>(d: Dict<V>, i: nat)
    requires DistinctKeys(d) && i < |d|
    ensures Get(d, d[i].0) == Some(d[i].1)
    decreases i
  {
    if i > 0 {
      var tail := d[1..];
      var k := d[i].0;
      HeadNotInTail(d);
      assert Keys(d)[0] != Keys(d)[i];
      assert tail[i - 1] == d[i];
      GetAt(tail, i - 1);
      assert Get(d, k) == Get(tail, k);
    }
  }

  /** Writing back the value a key already has changes nothing. */
  lemma {:induction false} PutSame<V>(d: Dict<V>, k: string, v: V)
    requires Get(d, k) == Some(v)
    ensures Put(d, k, v) == d
    decreases |d|
  {
    if d[0].0 != k {
      PutSame(d[1..], k, v);
      assert [d[0]] + d[1..] == d;
    }
  }

  /** An existing key keeps its place; a new key goes last. */
  lemma {:induction false} PutKeys<V>(d: Dict<V>, k: string, v: V)
    ensures Keys(Put(d, k, v)) == if k in Keys(d) then Keys(d) else Keys(d) + [k]
    decreases |d|
  {
    if d == [] {
      assert Put(d, k, v) == [(k, v)];
    } else {
      var e, rest := d[0], d[1..];
      assert Keys(d) == [e.0] + Keys(rest) by {
        assert [e] + rest == d;
        KeysCons(e, rest);
      }
      if e.0 == k {
        assert Put(d, k, v) == [(k, v)] + rest;
        KeysCons((k, v), rest);
      } else {
        var t := Put(rest, k, v);
        assert Put(d, k, v) == [e] + t;
        PutKeys(rest, k, v);
        KeysCons(e, t);
        ConsKeysStep(e.0, Keys(rest), k, Keys(t));
      }
    }
  }

  /** The key list of an entry in front of a dictionary that `PutKeys` describes. */
  lemma ConsKeysStep(x: string, ks: seq<string>, k: string, ks2: seq<string>)
    requires x != k
    requires ks2 == if k in ks then ks else ks + [k]
    ensures [x] + ks2 == if k in [x] + ks then [x] + ks else ([x] + ks) + [k]
  {
    assert k in [x] + ks <==> k in ks;
    if k !in ks {
      assert [x] + (ks + [k]) == ([x] + ks) + [k];
    }
  }

  lemma KeysCons<V>(e: (string, V), t: Dict<V>)
    ensures Keys([e] + t) == [e.0] + Keys(t)
  {
    assert ([e] + t)[1..] == t;
  }

  /** Everything `d[k] = v` does, in one place. */
  lemma PutEffect<V>(d: Dict<V>, k: string, v: V, r: Dict<V>)
    requires r == Put(d, k, v)
    ensures Get(r, k) == Some(v)
    ensures forall k' :: k' != k ==> Get(r, k') == Get(d, k')
    ensures Keys(r) == if k in Keys(d) then Keys(d) else Keys(d) + [k]
  {
    PutKeys(d, k, v);
  }

  lemma PutKeepsDistinct<V>(d: Dict<V>, k: string, v: V)
    requires DistinctKeys(d)
    ensures DistinctKeys(Put(d, k, v))
  {
    PutKeys(d, k, v);
    var ks := Keys(d);
    if k !in ks {
      assert forall i :: 0 <= i < |ks| ==> ks[i] != k;
    }
  }


  /** `d.pop(k, None)`: the entry for `k` goes, the others keep their order. */
  function Remove<V>(d: Dict<V>, k: string): (r: Dict<V>)
    requires DistinctKeys(d)
    ensures Get(r, k).None?
    ensures forall k' :: k' != k ==> Get(r, k') == Get(d, k')
    ensures DistinctKeys(r)
    ensures |r| == if k in Keys(d) then |d| - 1 else |d|
  {
    if d == [] then []
    else
      HeadNotInTail(d);
      if d[0].0 == k then d[1..]
      else
        var t := Remove(d[1..], k);
        assert forall i :: 0 <= i < |t| ==> t[i].0 != d[0].0 by {
          forall i | 0 <= i < |t| ensures t[i].0 != d[0].0 {
            assert Keys(t)[i] == t[i].0;
            assert Get(t, t[i].0).Some?;
          }
        }
        [d[0]] + t
  }

  lemma HeadNotInTail<V>(d: Dict<V>)
    requires d != []
    ensures DistinctKeys(d) ==> DistinctKeys(d[1..]) && d[0].0 !in Keys(d[1..])
  {
    if DistinctKeys(d) {
      forall i, j | 0 <= i < j < |d[1..]| ensures d[1..][i].0 != d[1..][j].0 {
        assert d[1..][i] == d[i + 1] && d[1..][j] == d[j + 1];
      }
      forall j | 0 <= j < |d[1..]| ensures Keys(d[1..])[j] != d[0].0 {
        assert d[1..][j] == d[j + 1];
      }
    }
  }

  /** `dict(zip(keys, values))` over the first `n` pairs. */
  function ZipPrefix<V>(keys: seq<string>, values: seq<V>, n: nat): Dict<V>
    requires n <= |keys| && n <= |values|
  {
    if n == 0 then [] else Put(ZipPrefix(keys, values, n - 1), keys[n - 1], values[n - 1])
  }

  function Min(a: nat, b: nat): nat { if a <= b then a else b }

  /** `dict(zip(keys, values))`: pairs by position, the shorter list decides. */
  function Zip<V>(keys: seq<string>, values: seq<V>): Dict<V> {
    ZipPrefix(keys, values, Min(|keys|, |values|))
  }

  /** A key that does not occur among the first `n` keys gets no entry. */
  lemma {:induction false} ZipPrefixAbsent<V>(keys: seq<string>, values: seq<V>, n: nat, k: string)
    requires n <= |keys| && n <= |values| && k !in keys[..n]
    ensures Get(ZipPrefix(keys, values, n), k).None?
  {
    if n > 0 {
      NotInFront(keys, n, k);
      ZipPrefixAbsent(keys, values, n - 1, k);
      GetPutOther(ZipPrefix(keys, values, n - 1), keys[n - 1], values[n - 1], k);
    }
  }

  lemma NotInFront(keys: seq<string>, n: nat, k: string)
    requires 0 < n <= |keys| && k !in keys[..n]
    ensures k != keys[n - 1] && k !in keys[..n - 1]
  {
    assert keys[..n] == keys[..n - 1] + [keys[n - 1]];
  }

  /** A key gets the value paired with its last occurrence among the first `n` keys. */
  lemma {:induction false} ZipPrefixAt<V>(keys: seq<string>, values: seq<V>, n: nat, i: nat)
    requires i < n <= |keys| && n <= |values| && keys[i] !in keys[i + 1..n]
    ensures Get(ZipPrefix(keys, values, n), keys[i]) == Some(values[i])
  {
    var d := ZipPrefix(keys, values, n - 1);
    if i < n - 1 {
      NotInShorter(keys, i, n);
      ZipPrefixAt(keys, values, n - 1, i);
      GetPutOther(d, keys[n - 1], values[n - 1], keys[i]);
    }
  }

  lemma NotInShorter(keys: seq<string>, i: nat, n: nat)
    requires i + 1 < n <= |keys| && keys[i] !in keys[i + 1..n]
    ensures keys[i] != keys[n - 1] && keys[i] !in keys[i + 1..n - 1]
  {
    assert keys[i + 1..n] == keys[i + 1..n - 1] + [keys[n - 1]];
  }

  lemma GetPutOther<V>(d: Dict<V>, k: string, v: V, other: string)
    requires other != k
    ensures Get(Put(d, k, v), other) == Get(d, other)
  {
  }

  /** With distinct keys, each of the first `min` keys is paired with the value at its position. */
  lemma ZipGet<V>(keys: seq<string>, values: seq<V>, i: nat)
    requires forall a, b :: 0 <= a < b < |keys| ==> keys[a] != keys[b]
    requires i < |keys| && i < |values|
    ensures Get(Zip(keys, values), keys[i]) == Some(values[i])
  {
    var n := Min(|keys|, |values|);
    assert forall j :: i + 1 <= j < n ==> keys[j] != keys[i];
    assert keys[i] !in keys[i + 1..n];
    ZipPrefixAt(keys, values, n, i);
  }

  /** A key that does not appear among the first `min` keys has no status. */
  lemma ZipMissing<V>(keys: seq<string>, values: seq<V>, k: string)
    requires k !in keys[..Min(|keys|, |values|)]
    ensures Get(Zip(keys, values), k).None?
  {
    ZipPrefixAbsent(keys, values, Min(|keys|, |values|), k);
  }

  /** The dictionary as a map, for lookups that do not care about order. */
  function AsMap<V>(d: Dict<V>): (r: map<string, V>)
    ensures forall k :: k in r <==> k in Keys(d)
    ensures forall k :: k in r ==> Get(d, k) == Some(r[k])
  {
    if d == [] then map[]
    else AsMap(d[1..])[d[0].0 := d[0].1]
  }
}
