/**
 * A JavaScript plain object with string keys, seen as its entries in insertion order
 * (`Object.entries`), and the stable descending sort plus `slice(0, n)` that the
 * statistics views apply to such entries.
 */
module Entries {
  import opened Wrappers

  /** `Object.entries(obj)`: key/value pairs in insertion order. */
  type Entries<V> = seq<(string, V)>

  function Keys<V>(m: Entries<V>): (ks: seq<string>)
    ensures |ks| == |m|
    ensures forall i :: 0 <= i < |m| ==> ks[i] == m[i].0
  {
    if m == [] then [] else [m[0].0] + Keys(m[1..])
  }

  /** No key appears twice, as in every JavaScript object. */
  predicate DistinctKeys<V>(m: Entries<V>) {
    forall i, j :: 0 <= i < j < |m| ==> m[i].0 != m[j].0
  }

  /** `obj[k]`, with `undefined` as `None`. */
  function Lookup<V>(m: Entries<V>, k: string): Option<V> {
    if m == [] then None
    else if m[0].0 == k then Some(m[0].1)
    else Lookup(m[1..], k)
  }

  /** A key reads as defined exactly when it is one of the object's keys. */
  lemma {:induction false} LookupFindsKeys<V>(m: Entries<V>, k: string)
    ensures Lookup(m, k).Some? <==> k in Keys(m)
  {
    if m != [] {
      LookupFindsKeys(m[1..], k);
      assert Keys(m) == [m[0].0] + Keys(m[1..]);
    }
  }

  /** `obj[k] = v`: an existing key keeps its position, a new key goes last. */
  function Put<V>(m: Entries<V>, k: string, v: V): Entries<V> {
    if m == [] then [(k, v)]
    else if m[0].0 == k then [(k, v)] + m[1..]
    else [m[0]] + Put(m[1..], k, v)
  }

  /** The keys after `obj[k] = v`: unchanged for an existing key, one more at the end for a new one. */
  lemma {:induction false} PutKeys<V>(m: Entries<V>, k: string, v: V)
    ensures k in Keys(m) ==> Keys(Put(m, k, v)) == Keys(m)
    ensures k !in Keys(m) ==> Keys(Put(m, k, v)) == Keys(m) + [k]
  {
    if m != [] {
      assert Keys(m) == [m[0].0] + Keys(m[1..]);
      if m[0].0 != k {
        PutKeys(m[1..], k, v);
        assert Keys(Put(m, k, v)) == [m[0].0] + Keys(Put(m[1..], k, v));
      }
    }
  }

  /** After `obj[k] = v`, reading `k` gives `v` and reading any other key is unaffected. */
  lemma {:induction false} LookupPut<V>(m: Entries<V>, k: string, v: V, j: string)
    ensures Lookup(Put(m, k, v), j) == if j == k then Some(v) else Lookup(m, j)
  {
    if m != [] && m[0].0 != k {
      LookupPut(m[1..], k, v, j);
      assert Put(m, k, v)[1..] == Put(m[1..], k, v);
    }
  }

  lemma {:induction false} PutKeepsDistinct<V>(m: Entries<V>, k: string, v: V)
    requires DistinctKeys(m)
    ensures DistinctKeys(Put(m, k, v))
  {
    var r := Put(m, k, v);
    PutKeys(m, k, v);
    forall i, j | 0 <= i < j < |r| ensures r[i].0 != r[j].0 {
      assert Keys(r)[i] == r[i].0 && Keys(r)[j] == r[j].0;
      if k !in Keys(m) && j == |m| {
        assert Keys(r)[i] == Keys(m)[i];
      } else {
        assert Keys(r)[i] == Keys(m)[i] && Keys(r)[j] == Keys(m)[j];
      }
    }
  }

  /** `obj[k] || 0` for a counter object. */
  function Count(m: Entries<nat>, k: string): nat {
    Lookup(m, k).GetOr(0)
  }

  /** `obj[k] = (obj[k] || 0) + n`. */
  function Increase(m: Entries<nat>, k: string, n: nat): (r: Entries<nat>)
    ensures Count(r, k) == Count(m, k) + n
    ensures forall j :: j != k ==> Count(r, j) == Count(m, j)
  {
    PutCounts(m, k, Count(m, k) + n);
    Put<nat>(m, k, Count(m, k) + n)
  }

  /** Counting after `obj[k] = v` gives `v` for `k` and the old count for every other key. */
  lemma PutCounts(m: Entries<nat>, k: string, v: nat)
    ensures Count(Put(m, k, v), k) == v
    ensures forall j :: j != k ==> Count(Put(m, k, v), j) == Count(m, j)
  {
    LookupPut(m, k, v, k);
    forall j | j != k ensures Count(Put(m, k, v), j) == Count(m, j) {
      LookupPut(m, k, v, j);
    }
  }

  /** In an object, a key occurs at most once among its keys. */
  lemma {:induction false} DistinctKeysOccurOnce<V>(m: Entries<V>, k: string)
    requires DistinctKeys(m)
    ensures multiset(Keys(m))[k] == if k in Keys(m) then 1 else 0
  {
    if m != [] {
      var rest := m[1..];
      assert DistinctKeys(rest) by {
        forall i, j | 0 <= i < j < |rest| ensures rest[i].0 != rest[j].0 {
          assert rest[i] == m[i + 1] && rest[j] == m[j + 1];
        }
      }
      DistinctKeysOccurOnce(rest, k);
      assert Keys(m) == [m[0].0] + Keys(rest);
      if m[0].0 == k {
        assert k !in Keys(rest) by {
          forall i | 0 <= i < |rest| ensures Keys(rest)[i] != k {
            assert rest[i] == m[i + 1];
          }
        }
      }
    }
  }

  /** A counter object whose values sum to zero holds only zeros. */
  lemma {:induction false} SumZero(m: Entries<nat>)
    requires Sum(m) == 0
    ensures forall e :: e in m ==> e.1 == 0
  {
    if m != [] {
      SumZero(m[1..]);
      assert forall e :: e in m ==> e == m[0] || e in m[1..];
    }
  }

  /** `ks.forEach(k => { obj[k] = (obj[k] || 0) + 1; })` */
  function CountEach(m: Entries<nat>, ks: seq<string>): Entries<nat> {
    if ks == [] then m else Increase(CountEach(m, ks[..|ks| - 1]), ks[|ks| - 1], 1)
  }

  /** Each key's counter grows by the number of times the key occurs in `ks`. */
  lemma {:induction false} CountEachCounts(m: Entries<nat>, ks: seq<string>, k: string)
    ensures Count(CountEach(m, ks), k) == Count(m, k) + multiset(ks)[k]
  {
    if ks != [] {
      var n := |ks| - 1;
      var prefix := ks[..n];
      CountEachCounts(m, prefix, k);
      var before := CountEach(m, prefix);
      var step := if ks[n] == k then 1 else 0;
      calc {
        Count(CountEach(m, ks), k);
        Count(Increase(before, ks[n], 1), k);
        Count(before, k) + step;
        Count(m, k) + multiset(prefix)[k] + step;
        { assert ks == prefix + [ks[n]]; }
        Count(m, k) + multiset(ks)[k];
      }
    }
  }

  /** The sum of the values of a counter object. */
  function Sum(m: Entries<nat>): nat {
    if m == [] then 0 else m[0].1 + Sum(m[1..])
  }

  /** Overwriting one key changes the sum by the difference of the old and new value. */
  lemma {:induction false} SumPut(m: Entries<nat>, k: string, v: nat)
    ensures Sum(Put(m, k, v)) + Count(m, k) == Sum(m) + v
  {
    if m != [] && m[0].0 != k {
      SumPut(m[1..], k, v);
      assert Put(m, k, v)[1..] == Put(m[1..], k, v);
    }
  }

  /** Appending an entry adds its value to the sum. */
  lemma {:induction false} SumAppend(m: Entries<nat>, e: (string, nat))
    ensures Sum(m + [e]) == Sum(m) + e.1
  {
    if m != [] {
      SumAppend(m[1..], e);
      assert (m + [e])[1..] == m[1..] + [e];
    }
  }

  /** Adding `n` to one counter adds `n` to the sum. */
  lemma {:induction false} SumIncrease(m: Entries<nat>, k: string, n: nat)
    ensures Sum(Increase(m, k, n)) == Sum(m) + n
  {
    SumPut(m, k, Count(m, k) + n);
  }

  // ---------------------------------------------------------------------------
  // Stable descending sort (`arr.sort((a, b) => key(b) - key(a))`, stable since ES2019)

  /** Non-increasing by `key`. */
  predicate SortedDesc<T>(s: seq<T>, key: T -> nat) {
    forall i, j :: 0 <= i < j < |s| ==> key(s[i]) >= key(s[j])
  }

  /** The elements of `s` whose key is `c`, in order. */
  function WithKey<T>(s: seq<T>, key: T -> nat, c: nat): seq<T> {
    if s == [] then []
    else (if key(s[0]) == c then [s[0]] else []) + WithKey(s[1..], key, c)
  }

  /** When every element has key `c`, selecting key `c` keeps everything. */
  lemma {:induction false} WithKeyAll<T>(s: seq<T>, key: T -> nat, c: nat)
    requires forall x :: x in s ==> key(x) == c
    ensures WithKey(s, key, c) == s
  {
    if s != [] {
      WithKeyAll(s[1..], key, c);
    }
  }

  /** Puts `x` before the first element whose key is not greater than its own. */
  function Insert<T>(x: T, s: seq<T>, key: T -> nat): seq<T> {
    if s == [] || key(s[0]) <= key(x) then [x] + s
    else [s[0]] + Insert(x, s[1..], key)
  }

  /** Insertion sort from the back: an element precedes every later element with an equal key. */
  function SortDesc<T>(s: seq<T>, key: T -> nat): seq<T> {
    if s == [] then [] else Insert(s[0], SortDesc(s[1..], key), key)
  }

  lemma {:induction false} InsertMultiset<T>(x: T, s: seq<T>, key: T -> nat)
    ensures multiset(Insert(x, s, key)) == multiset(s) + multiset{x}
  {
    if s != [] && key(s[0]) > key(x) {
      InsertMultiset(x, s[1..], key);
      assert s == [s[0]] + s[1..];
    }
  }

  lemma {:induction false} InsertSorted<T>(x: T, s: seq<T>, key: T -> nat)
    requires SortedDesc(s, key)
    ensures SortedDesc(Insert(x, s, key), key)
  {
    if s != [] && key(s[0]) > key(x) {
      InsertSorted(x, s[1..], key);
      var rest := Insert(x, s[1..], key);
      InsertMultiset(x, s[1..], key);
      forall j | 0 <= j < |rest| ensures key(s[0]) >= key(rest[j]) {
        assert rest[j] in multiset(rest);
        if rest[j] != x {
          assert rest[j] in multiset(s[1..]);
          var k :| 0 <= k < |s[1..]| && s[1..][k] == rest[j];
          assert s[k + 1] == rest[j];
        }
      }
    }
  }

  /** Inserting `x` adds it in front of the elements with its key and leaves the other keys alone. */
  lemma {:induction false} InsertWithKey<T>(x: T, s: seq<T>, key: T -> nat, c: nat)
    ensures WithKey(Insert(x, s, key), key, c)
         == (if key(x) == c then [x] else []) + WithKey(s, key, c)
  {
    if s == [] || key(s[0]) <= key(x) {
      WithKeyCons(x, s, key, c);
    } else {
      InsertWithKey(x, s[1..], key, c);
      WithKeyCons(s[0], Insert(x, s[1..], key), key, c);
    }
  }

  /** Selecting by key from a sequence with a given head. */
  lemma WithKeyCons<T>(a: T, rest: seq<T>, key: T -> nat, c: nat)
    ensures WithKey([a] + rest, key, c) == (if key(a) == c then [a] else []) + WithKey(rest, key, c)
  {
    assert ([a] + rest)[1..] == rest;
  }

  /**
   * The sort is a permutation, is non-increasing, and is stable: for every key value, the
   * elements carrying it appear in the same relative order as in the input.
   */
  lemma {:induction false} SortDescCorrect<T>(s: seq<T>, key: T -> nat)
    ensures |SortDesc(s, key)| == |s|
    ensures multiset(SortDesc(s, key)) == multiset(s)
    ensures SortedDesc(SortDesc(s, key), key)
    ensures forall c :: WithKey(SortDesc(s, key), key, c) == WithKey(s, key, c)
  {
    if s != [] {
      SortDescCorrect(s[1..], key);
      InsertMultiset(s[0], SortDesc(s[1..], key), key);
      InsertSorted(s[0], SortDesc(s[1..], key), key);
      assert s == [s[0]] + s[1..];
      forall c ensures WithKey(SortDesc(s, key), key, c) == WithKey(s, key, c) {
        InsertWithKey(s[0], SortDesc(s[1..], key), key, c);
      }
      assert |multiset(SortDesc(s, key))| == |multiset(s)|;
    }
  }

  /** `arr.slice(0, n)` */
  function Take<T>(s: seq<T>, n: nat): (r: seq<T>)
    ensures |r| == if |s| <= n then |s| else n
  {
    if |s| <= n then s else s[..n]
  }

  /** `arr.sort(byKeyDesc).slice(0, n)` */
  function TopN<T>(s: seq<T>, key: T -> nat, n: nat): seq<T> {
    Take(SortDesc(s, key), n)
  }

  lemma {:induction false} TakeWithKeyPrefix<T>(s: seq<T>, key: T -> nat, c: nat, n: nat)
    ensures WithKey(Take(s, n), key, c) <= WithKey(s, key, c)
  {
    if |s| > n && n > 0 {
      TakeWithKeyPrefix(s[1..], key, c, n - 1);
      assert Take(s, n)[1..] == Take(s[1..], n - 1);
    }
  }

  /** A prefix is drawn from the sequence. */
  lemma TakeDrawn<T>(r: seq<T>, n: nat)
    ensures multiset(Take(r, n)) <= multiset(r)
  {
    if |r| > n {
      assert r == r[..n] + r[n..];
      assert multiset(r) == multiset(r[..n]) + multiset(r[n..]);
    }
  }

  /** A prefix of a non-increasing sequence is non-increasing. */
  lemma TakeSortedDesc<T>(r: seq<T>, key: T -> nat, n: nat)
    requires SortedDesc(r, key)
    ensures SortedDesc(Take(r, n), key)
  {
    var t := Take(r, n);
    forall i, j | 0 <= i < j < |t| ensures key(t[i]) >= key(t[j]) {
      assert t[i] == r[i] && t[j] == r[j];
    }
  }

  /** In a non-increasing sequence, nothing after a prefix ranks above anything in it. */
  lemma TakeRanksAbove<T>(r: seq<T>, key: T -> nat, n: nat)
    requires SortedDesc(r, key)
    ensures forall y :: y in r && y !in Take(r, n) ==>
              forall x :: x in Take(r, n) ==> key(y) <= key(x)
  {
    var t := Take(r, n);
    forall y, x | y in r && y !in t && x in t ensures key(y) <= key(x) {
      var j :| 0 <= j < |r| && r[j] == y;
      var i :| 0 <= i < |t| && t[i] == x;
      assert r[i] == x;
      TakeHolds(r, n, j);
    }
  }

  /** An element at a position inside the prefix is in the prefix. */
  lemma TakeHolds<T>(r: seq<T>, n: nat, j: nat)
    requires j < |r|
    ensures j < |Take(r, n)| ==> r[j] in Take(r, n)
  {
    if j < |Take(r, n)| {
      assert Take(r, n)[j] == r[j];
    }
  }

  /**
   * The top `n`: `min(n, |s|)` elements drawn from `s`, non-increasing, every element left out
   * has a key no greater than any element kept, and equal keys keep their order of first
   * appearance (the kept ones are a prefix of that order).
   */
  lemma TopNCorrect<T>(s: seq<T>, key: T -> nat, n: nat)
    ensures |TopN(s, key, n)| == if |s| <= n then |s| else n
    ensures multiset(TopN(s, key, n)) <= multiset(s)
    ensures SortedDesc(TopN(s, key, n), key)
    ensures forall y :: y in s && y !in TopN(s, key, n) ==>
              forall x :: x in TopN(s, key, n) ==> key(y) <= key(x)
    ensures forall c :: WithKey(TopN(s, key, n), key, c) <= WithKey(s, key, c)
  {
    var r := SortDesc(s, key);
    SortDescCorrect(s, key);
    TakeDrawn(r, n);
    TakeSortedDesc(r, key, n);
    TakeRanksAbove(r, key, n);
    forall y | y in s ensures y in r {
      assert y in multiset(s);
    }
    forall c ensures WithKey(TopN(s, key, n), key, c) <= WithKey(s, key, c) {
      TakeWithKeyPrefix(r, key, c, n);
    }
  }
}
