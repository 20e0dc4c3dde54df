// Python's `sorted(...)` on strings (code-point lexicographic order), and the
// duplicate-free sorted listing of a collection of names (`sorted(set(...))`).

module Sorting {

  /** `a <= b` on Python strings: code-point lexicographic order, a prefix first. */
  predicate LexLe(a: string, b: string)
    decreases |a|
  {
    a == [] || (b != [] && (a[0] < b[0] || (a[0] == b[0] && LexLe(a[1..], b[1..]))))
  }

  lemma {:induction false} LexLeTotal(a: string, b: string)
    ensures LexLe(a, b) || LexLe(b, a)
    decreases |a|
  {
    if a != [] && b != [] && a[0] == b[0] {
      LexLeTotal(a[1..], b[1..]);
    }
  }

  lemma {:induction false} LexLeTrans(a: string, b: string, c: string)
    requires LexLe(a, b) && LexLe(b, c)
    ensures LexLe(a, c)
    decreases |a|
  {
    if a != [] && a[0] == b[0] && b[0] == c[0] {
      LexLeTrans(a[1..], b[1..], c[1..]);
    }
  }

  lemma {:induction false} LexLeAntisym(a: string, b: string)
    requires LexLe(a, b) && LexLe(b, a)
    ensures a == b
    decreases |a|
  {
    if a != [] {
      LexLeAntisym(a[1..], b[1..]);
      assert a == [a[0]] + a[1..] && b == [b[0]] + b[1..];
    }
  }

  predicate SortedBy<T>(s: seq<T>, key: T -> string) {
    forall i, j :: 0 <= i < j < |s| ==> LexLe(key(s[i]), key(s[j]))
  }

  /** Insert `x` before the first element whose key is not smaller (stable). */
  function Insert<T>(x: T, s: seq<T>, key: T -> string): (r: seq<T>)
    requires SortedBy(s, key)
    ensures SortedBy(r, key)
    ensures multiset(r) == multiset(s) + multiset{x}
    decreases |s|
  {
    if s == [] then [x]
    else if LexLe(key(x), key(s[0])) then
      BelowHead(x, s, key);
      ConsSorted(x, s, key);
      [x] + s
    else
      LexLeTotal(key(x), key(s[0]));
      var t := Insert(x, s[1..], key);
      BelowInserted(s[0], x, s[1..], t, key);
      ConsSorted(s[0], t, key);
      assert s == [s[0]] + s[1..];
      [s[0]] + t
  }

  /** In a sorted list, whatever is below the head is below every element. */
  lemma BelowHead<T>(x: T, s: seq<T>, key: T -> string)
    requires s != [] && SortedBy(s, key) && LexLe(key(x), key(s[0]))
    ensures forall j :: 0 <= j < |s| ==> LexLe(key(x), key(s[j]))
  {
    forall j | 0 < j < |s| { LexLeTrans(key(x), key(s[0]), key(s[j])); }
  }

  /** A lower bound of a sorted list and of `x` bounds the list with `x` inserted. */
  lemma BelowInserted<T>(y: T, x: T, s: seq<T>, t: seq<T>, key: T -> string)
    requires LexLe(key(y), key(x))
    requires forall j :: 0 <= j < |s| ==> LexLe(key(y), key(s[j]))
    requires multiset(t) == multiset(s) + multiset{x}
    ensures forall k :: 0 <= k < |t| ==> LexLe(key(y), key(t[k]))
  {
    forall k | 0 <= k < |t| ensures LexLe(key(y), key(t[k])) {
      assert t[k] in multiset(t);
      if t[k] != x {
        assert t[k] in multiset(s);
        var j :| 0 <= j < |s| && s[j] == t[k];
      }
    }
  }

  lemma ConsSorted<T>(y: T, t: seq<T>, key: T -> string)
    requires SortedBy(t, key)
    requires forall k :: 0 <= k < |t| ==> LexLe(key(y), key(t[k]))
    ensures SortedBy([y] + t, key)
  {
    var r := [y] + t;
    forall i, j | 0 <= i < j < |r| ensures LexLe(key(r[i]), key(r[j])) {
      assert r[j] == t[j - 1];
      if i > 0 { assert r[i] == t[i - 1]; }
    }
  }

  /** `sorted(s, key=key)`: a stable insertion sort (see `SortByStable`). */
  function SortBy<T>(s: seq<T>, key: T -> string): (r: seq<T>)
    ensures SortedBy(r, key)
    ensures multiset(r) == multiset(s)
    ensures |r| == |s|
  {
    if s == [] then []
    else
      assert s == [s[0]] + s[1..];
      Insert(s[0], SortBy(s[1..], key), key)
  }

  /** The elements of `s` whose key is `k`, in their order in `s`. */
  function WithKey<T>(s: seq<T>, key: T -> string, k: string): seq<T>
    decreases |s|
  {
    if s == [] then [] else (if key(s[0]) == k then [s[0]] else []) + WithKey(s[1..], key, k)
  }

  lemma {:induction false} LexLeRefl(a: string)
    ensures LexLe(a, a)
    decreases |a|
  {
    if a != [] {
      LexLeRefl(a[1..]);
    }
  }

  lemma WithKeyCons<T>(x: T, s: seq<T>, key: T -> string, k: string)
    ensures WithKey([x] + s, key, k) == (if key(x) == k then [x] else []) + WithKey(s, key, k)
  {
    assert ([x] + s)[0] == x && ([x] + s)[1..] == s;
  }

  /** `x` goes after every element whose key is smaller, so before those whose key equals its own. */
  lemma {:induction false} InsertStable<T>(x: T, s: seq<T>, key: T -> string, k: string)
    requires SortedBy(s, key)
    ensures WithKey(Insert(x, s, key), key, k) == (if key(x) == k then [x] else []) + WithKey(s, key, k)
    decreases |s|, 1
  {
    if s == [] || LexLe(key(x), key(s[0])) {
      InsertStableFront(x, s, key, k);
    } else {
      InsertStablePast(x, s, key, k);
    }
  }

  lemma InsertStableFront<T>(x: T, s: seq<T>, key: T -> string, k: string)
    requires SortedBy(s, key) && (s == [] || LexLe(key(x), key(s[0])))
    ensures WithKey(Insert(x, s, key), key, k) == (if key(x) == k then [x] else []) + WithKey(s, key, k)
  {
    assert Insert(x, s, key) == [x] + s;
    WithKeyCons(x, s, key, k);
  }

  lemma {:induction false} InsertStablePast<T>(x: T, s: seq<T>, key: T -> string, k: string)
    requires SortedBy(s, key) && s != [] && !LexLe(key(x), key(s[0]))
    ensures WithKey(Insert(x, s, key), key, k) == (if key(x) == k then [x] else []) + WithKey(s, key, k)
    decreases |s|, 0
  {
    LexLeRefl(key(x));
    InsertPast(x, s, key);
    var t := Insert(x, s[1..], key);
    InsertStable(x, s[1..], key, k);
    WithKeyCons(s[0], t, key, k);
    WithKeyCons(s[0], s[1..], key, k);
    assert [s[0]] + s[1..] == s;
    var head := if key(s[0]) == k then [s[0]] else [];
    var mine := if key(x) == k then [x] else [];
    SwapOneEmpty(head, mine, WithKey(s[1..], key, k));
  }

  lemma SwapOneEmpty<T>(a: seq<T>, b: seq<T>, w: seq<T>)
    requires a == [] || b == []
    ensures a + (b + w) == b + (a + w)
  {
    if a == [] {
      assert a + (b + w) == b + w == b + (a + w);
    } else {
      assert a + (b + w) == a + w == b + (a + w);
    }
  }

  /** Past a head with a smaller key, `x` is inserted into the tail. */
  lemma InsertPast<T>(x: T, s: seq<T>, key: T -> string)
    requires SortedBy(s, key) && s != [] && !LexLe(key(x), key(s[0]))
    ensures SortedBy(s[1..], key)
    ensures Insert(x, s, key) == [s[0]] + Insert(x, s[1..], key)
  {
    SortedTail(s, key);
  }

  lemma SortedTail<T>(s: seq<T>, key: T -> string)
    requires SortedBy(s, key) && s != []
    ensures SortedBy(s[1..], key)
  {
    forall i, j | 0 <= i < j < |s| - 1 ensures LexLe(key(s[1..][i]), key(s[1..][j])) {
      assert s[1..][i] == s[i + 1] && s[1..][j] == s[j + 1];
    }
  }

  /** Stability: elements with equal keys keep their input order. */
  lemma {:induction false} SortByStable<T>(s: seq<T>, key: T -> string, k: string)
    ensures WithKey(SortBy(s, key), key, k) == WithKey(s, key, k)
    decreases |s|
  {
    if s != [] {
      SortByStable(s[1..], key, k);
      InsertStable(s[0], SortBy(s[1..], key), key, k);
      WithKeyCons(s[0], s[1..], key, k);
      assert [s[0]] + s[1..] == s;
    }
  }

  function Id(s: string): string { s }

  predicate StrictlySorted(s: seq<string>) {
    forall i, j :: 0 <= i < j < |s| ==> LexLe(s[i], s[j]) && s[i] != s[j]
  }

  /** Drops adjacent repeats from a sorted list, leaving each name once. */
  function Dedup(s: seq<string>): (r: seq<string>)
    requires SortedBy(s, Id)
    ensures StrictlySorted(r)
    ensures forall x :: x in r <==> x in s
    decreases |s|
  {
    if |s| <= 1 then s
    else
      var t := Dedup(s[1..]);
      assert SortedBy(s[1..], Id) by {
        forall i, j | 0 <= i < j < |s[1..]| ensures LexLe(Id(s[1..][i]), Id(s[1..][j])) {
          assert s[1..][i] == s[i + 1] && s[1..][j] == s[j + 1];
        }
      }
      assert s == [s[0]] + s[1..];
      if s[0] == s[1] then t
      else
        assert forall k :: 0 <= k < |t| ==> LexLe(s[0], t[k]) && s[0] != t[k] by {
          forall k | 0 <= k < |t| ensures LexLe(s[0], t[k]) && s[0] != t[k] {
            assert t[k] in t;
            assert t[k] in s[1..];
            var j :| 0 <= j < |s[1..]| && s[1..][j] == t[k];
            assert LexLe(Id(s[0]), Id(s[j + 1]));
            assert LexLe(Id(s[1]), Id(s[j + 1])) || j == 0;
            if s[0] == t[k] {
              if j > 0 {
                assert LexLe(Id(s[0]), Id(s[1]));
                LexLeAntisym(s[0], s[1]);
              }
            }
          }
        }
        [s[0]] + t
  }

  /** `sorted(names)` of a Python set: each name once, in order. */
  function SortedNames(names: seq<string>): (r: seq<string>)
    ensures StrictlySorted(r)
    ensures forall x :: x in r <==> x in names
  {
    var s := SortBy(names, Id);
    assert forall x :: x in s <==> x in names by {
      forall x ensures x in s <==> x in names {
        assert x in s <==> x in multiset(s);
        assert x in names <==> x in multiset(names);
      }
    }
    Dedup(s)
  }
}
