/**
 * `Array.prototype.filter` over sequences, and its complement: both keep the order of the
 * elements they keep, and between them they keep every element exactly once.
 */
module Seqs {

  /** `s.filter(p)` */
  function Filter<T>(s: seq<T>, p: T -> bool): (r: seq<T>)
    ensures |r| <= |s|
    ensures forall i :: 0 <= i < |r| ==> r[i] in s && p(r[i])
    ensures forall i :: 0 <= i < |s| && p(s[i]) ==> s[i] in r
  {
    if s == [] then []
    else
      var n := |s| - 1;
      assert s == s[..n] + [s[n]];
      Filter(s[..n], p) + (if p(s[n]) then [s[n]] else [])
  }

  /** `s.filter(x => !p(x))` */
  function Reject<T>(s: seq<T>, p: T -> bool): (r: seq<T>)
    ensures |r| <= |s|
    ensures forall i :: 0 <= i < |r| ==> r[i] in s && !p(r[i])
    ensures forall i :: 0 <= i < |s| && !p(s[i]) ==> s[i] in r
  {
    if s == [] then []
    else
      var n := |s| - 1;
      assert s == s[..n] + [s[n]];
      Reject(s[..n], p) + (if p(s[n]) then [] else [s[n]])
  }

  /** Filtering works piece by piece, so the kept elements stay in their original order. */
  lemma {:induction false} FilterConcat<T>(a: seq<T>, b: seq<T>, p: T -> bool)
    ensures Filter(a + b, p) == Filter(a, p) + Filter(b, p)
    decreases |b|
  {
    if b == [] {
      assert a + b == a;
    } else {
      var n := |b| - 1;
      var front, x := b[..n], b[n];
      assert b == front + [x];
      assert a + b == (a + front) + [x];
      FilterConcat(a, front, p);
      FilterSnoc(a + front, x, p);
      FilterSnoc(front, x, p);
    }
  }

  /** The complement works piece by piece too. */
  lemma {:induction false} RejectConcat<T>(a: seq<T>, b: seq<T>, p: T -> bool)
    ensures Reject(a + b, p) == Reject(a, p) + Reject(b, p)
    decreases |b|
  {
    if b == [] {
      assert a + b == a;
    } else {
      var n := |b| - 1;
      var front, x := b[..n], b[n];
      assert b == front + [x];
      assert a + b == (a + front) + [x];
      RejectConcat(a, front, p);
      FilterSnoc(a + front, x, p);
      FilterSnoc(front, x, p);
    }
  }

  /** A single element is kept by exactly one of the two. */
  lemma FilterSingleton<T>(x: T, p: T -> bool)
    ensures Filter([x], p) == (if p(x) then [x] else [])
    ensures Reject([x], p) == (if p(x) then [] else [x])
  {
    assert [x][..0] == [];
  }

  /** Extending the list by one element extends exactly one of the two parts by it. */
  lemma FilterSnoc<T>(s: seq<T>, x: T, p: T -> bool)
    ensures Filter(s + [x], p) == Filter(s, p) + (if p(x) then [x] else [])
    ensures Reject(s + [x], p) == Reject(s, p) + (if p(x) then [] else [x])
  {
    assert (s + [x])[..|s|] == s;
  }

  /** The partition of a list extends to the list with one more element. */
  lemma PartitionSnoc<T>(front: seq<T>, x: T, p: T -> bool)
    requires multiset(Filter(front, p)) + multiset(Reject(front, p)) == multiset(front)
    ensures multiset(Filter(front + [x], p)) + multiset(Reject(front + [x], p)) == multiset(front + [x])
  {
    FilterSnoc(front, x, p);
    var keep: seq<T> := if p(x) then [x] else [];
    var drop: seq<T> := if p(x) then [] else [x];
    calc {
      multiset(Filter(front + [x], p)) + multiset(Reject(front + [x], p));
    ==
      multiset(Filter(front, p) + keep) + multiset(Reject(front, p) + drop);
    ==
      (multiset(Filter(front, p)) + multiset(Reject(front, p))) + (multiset(keep) + multiset(drop));
    == { assert multiset(keep) + multiset(drop) == multiset{x}; }
      multiset(front) + multiset{x};
    ==
      multiset(front + [x]);
    }
  }

  /** Every element lands in exactly one of the two parts. */
  lemma {:induction false} Partition<T>(s: seq<T>, p: T -> bool)
    ensures multiset(Filter(s, p)) + multiset(Reject(s, p)) == multiset(s)
    ensures |Filter(s, p)| + |Reject(s, p)| == |s|
  {
    if s != [] {
      var n := |s| - 1;
      assert s == s[..n] + [s[n]];
      Partition(s[..n], p);
      PartitionSnoc(s[..n], s[n], p);
    }
    assert |multiset(Filter(s, p)) + multiset(Reject(s, p))| == |multiset(s)|;
  }

  /** Filtering the result again keeps all of it. */
  lemma {:induction false} FilterIdempotent<T>(s: seq<T>, p: T -> bool)
    ensures Filter(Filter(s, p), p) == Filter(s, p)
  {
    if s != [] {
      var n := |s| - 1;
      var x := s[n];
      var front := Filter(s[..n], p);
      FilterIdempotent(s[..n], p);
      FilterSingleton(x, p);
      if p(x) {
        assert Filter(s, p) == front + [x];
        FilterConcat(front, [x], p);
      } else {
        assert Filter(s, p) == front;
      }
    }
  }
}
