/**
 * The array primitives the handlers rely on: `find`/`findIndex`/`indexOf`
 * (first match by strict equality) and order-preserving `filter`.
 */
module Seqs {

  function Identity<T>(x: T): T { x }

  /** Index of the first element whose key is `k`, or -1 when there is none. */
  function FirstIndex<T, K(==)>(s: seq<T>, key: T -> K, k: K): (r: int)
    ensures -1 <= r < |s|
    ensures 0 <= r ==> key(s[r]) == k
    ensures forall j :: 0 <= j < |s| && (r < 0 || j < r) ==> key(s[j]) != k
  {
    if s == [] then -1
    else if key(s[0]) == k then 0
    else
      var i := FirstIndex(s[1..], key, k);
      if i < 0 then -1 else i + 1
  }

  /** `indexOf` on a sequence: the first position holding `x`, or -1. */
  function IndexOf<T(==)>(s: seq<T>, x: T): (r: int)
    ensures -1 <= r < |s|
    ensures r < 0 <==> x !in s
    ensures 0 <= r ==> s[r] == x && x !in s[..r]
  {
    FirstIndex(s, Identity, x)
  }

  /** The elements of `s` that satisfy `p`, in their original order. */
  function Filter<T(==, !new)>(s: seq<T>, p: T -> bool): (r: seq<T>)
    ensures |r| <= |s|
    ensures forall i :: 0 <= i < |r| ==> r[i] in s && p(r[i])
    ensures forall i :: 0 <= i < |s| && p(s[i]) ==> s[i] in r
    ensures forall x :: multiset(r)[x] == if p(x) then multiset(s)[x] else 0
  {
    if s == [] then []
    else
      var t := Filter(s[1..], p);
      FilterCons(s, t, p);
      (if p(s[0]) then [s[0]] else []) + t
  }

  /** One step of `Filter`: what holds of the tail's result holds of the head kept or dropped before it. */
  lemma FilterCons<T>(s: seq<T>, t: seq<T>, p: T -> bool)
    requires s != []
    requires |t| <= |s[1..]|
    requires forall i :: 0 <= i < |t| ==> t[i] in s[1..] && p(t[i])
    requires forall i :: 0 <= i < |s[1..]| && p(s[1..][i]) ==> s[1..][i] in t
    requires forall x :: multiset(t)[x] == if p(x) then multiset(s[1..])[x] else 0
    ensures var r := (if p(s[0]) then [s[0]] else []) + t;
      && |r| <= |s|
      && (forall i :: 0 <= i < |r| ==> r[i] in s && p(r[i]))
      && (forall i :: 0 <= i < |s| && p(s[i]) ==> s[i] in r)
      && (forall x :: multiset(r)[x] == if p(x) then multiset(s)[x] else 0)
  {
    assert s == [s[0]] + s[1..];
    assert multiset(s) == multiset{s[0]} + multiset(s[1..]);
  }

  /** `a` is obtained from `b` by deleting elements, keeping the order of the rest. */
  ghost predicate IsSubsequence<T>(a: seq<T>, b: seq<T>)
    decreases |b|
  {
    a == [] ||
    (b != [] && ((a[0] == b[0] && IsSubsequence(a[1..], b[1..])) || IsSubsequence(a, b[1..])))
  }

  lemma {:induction false} SubsequenceOfSelf<T>(s: seq<T>)
    ensures IsSubsequence(s, s)
  {
    if s != [] {
      SubsequenceOfSelf(s[1..]);
    }
  }

  lemma {:induction false} SubsequenceTransitive<T>(a: seq<T>, b: seq<T>, c: seq<T>)
    requires IsSubsequence(a, b) && IsSubsequence(b, c)
    ensures IsSubsequence(a, c)
    decreases |c|
  {
    if a != [] {
      assert c != [];
      if b[0] == c[0] && IsSubsequence(b[1..], c[1..]) {
        if a[0] == b[0] && IsSubsequence(a[1..], b[1..]) {
          SubsequenceTransitive(a[1..], b[1..], c[1..]);
        } else {
          SubsequenceTransitive(a, b[1..], c[1..]);
        }
      } else {
        SubsequenceTransitive(a, b, c[1..]);
      }
    }
  }

  /** Filtering keeps the survivors in their original relative order. */
  lemma {:induction false} FilterIsSubsequence<T(!new)>(s: seq<T>, p: T -> bool)
    ensures IsSubsequence(Filter(s, p), s)
  {
    if s != [] {
      FilterIsSubsequence(s[1..], p);
      if p(s[0]) {
        assert Filter(s, p)[1..] == Filter(s[1..], p);
      } else {
        assert Filter(s, p) == Filter(s[1..], p);
      }
    }
  }

  /** A filter stage that applies only when `on` holds: `if (query) list = list.filter(p)`. */
  function FilterWhen<T(==, !new)>(on: bool, s: seq<T>, p: T -> bool): (r: seq<T>)
    ensures IsSubsequence(r, s)
    ensures forall i :: 0 <= i < |r| ==> r[i] in s && (on ==> p(r[i]))
    ensures forall i :: 0 <= i < |s| && (!on || p(s[i])) ==> s[i] in r
    ensures forall x :: multiset(r)[x] == if !on || p(x) then multiset(s)[x] else 0
  {
    SubsequenceOfSelf(s);
    FilterIsSubsequence(s, p);
    if on then Filter(s, p) else s
  }

  /** Two stages in a row keep each value exactly as often as it passes both. */
  lemma FilterWhenTwice<T(!new)>(s: seq<T>, on1: bool, p: T -> bool, on2: bool, q: T -> bool, both: T -> bool)
    requires forall x :: both(x) == ((!on1 || p(x)) && (!on2 || q(x)))
    ensures var r := FilterWhen(on2, FilterWhen(on1, s, p), q);
      && IsSubsequence(r, s)
      && (forall i :: 0 <= i < |r| ==> r[i] in s && both(r[i]))
      && (forall i :: 0 <= i < |s| && both(s[i]) ==> s[i] in r)
      && (forall x :: multiset(r)[x] == if both(x) then multiset(s)[x] else 0)
  {
    var m := FilterWhen(on1, s, p);
    var r := FilterWhen(on2, m, q);
    SubsequenceTransitive(r, m, s);
    forall i | 0 <= i < |s| && both(s[i])
      ensures s[i] in r
    {
      var j :| 0 <= j < |m| && m[j] == s[i];
    }
  }

  /** Past a head without the key, the first match is the tail's first match shifted by one. */
  lemma FirstIndexTail<T, K>(s: seq<T>, key: T -> K, k: K)
    requires s != [] && key(s[0]) != k
    ensures var t := FirstIndex(s[1..], key, k);
            FirstIndex(s, key, k) == if t < 0 then -1 else t + 1
  {
  }

  /** `s` without its first element whose key is `k` (`splice(index, 1)`); unchanged when there is none. */
  function RemoveFirst<T, K(==)>(s: seq<T>, key: T -> K, k: K): (r: seq<T>)
    ensures |r| == if FirstIndex(s, key, k) < 0 then |s| else |s| - 1
  {
    if s == [] then []
    else if key(s[0]) == k then s[1..]
    else [s[0]] + RemoveFirst(s[1..], key, k)
  }

  /** Prepending the head to the tail with position `t` removed removes position `t + 1`. */
  lemma RemoveUnderCons<T>(s: seq<T>, w: seq<T>, t: int)
    requires s != [] && -1 <= t < |s| - 1
    requires w == if t < 0 then s[1..] else s[1..][..t] + s[1..][t + 1..]
    ensures [s[0]] + w == if t < 0 then s else s[..t + 1] + s[t + 2..]
  {
    if t < 0 {
      assert [s[0]] + s[1..] == s;
    } else {
      assert s[1..][..t] == s[1..t + 1];
      assert s[1..][t + 1..] == s[t + 2..];
      assert [s[0]] + s[1..t + 1] == s[..t + 1];
    }
  }

  /** Removing the first match splices out exactly the position `FirstIndex` returns. */
  lemma {:induction false} RemoveFirstAt<T, K>(s: seq<T>, key: T -> K, k: K)
    ensures var i := FirstIndex(s, key, k);
            RemoveFirst(s, key, k) == if i < 0 then s else s[..i] + s[i + 1..]
  {
    if s == [] {
    } else if key(s[0]) == k {
      assert FirstIndex(s, key, k) == 0;
      assert s[..0] + s[1..] == s[1..];
    } else {
      RemoveFirstAt(s[1..], key, k);
      FirstIndexTail(s, key, k);
      RemoveUnderCons(s, RemoveFirst(s[1..], key, k), FirstIndex(s[1..], key, k));
    }
  }

  /** `s` with `f` applied to its first element whose key is `k`; unchanged when there is none. */
  function UpdateFirst<T, K(==)>(s: seq<T>, key: T -> K, k: K, f: T -> T): (r: seq<T>)
    ensures |r| == |s|
    ensures forall i :: 0 <= i < |s| ==> r[i] == s[i] || (key(s[i]) == k && r[i] == f(s[i]))
  {
    if s == [] then []
    else if key(s[0]) == k then [f(s[0])] + s[1..]
    else [s[0]] + UpdateFirst(s[1..], key, k, f)
  }

  /** Updating the first match changes exactly the position `FirstIndex` returns. */
  lemma {:induction false} UpdateFirstAt<T, K>(s: seq<T>, key: T -> K, k: K, f: T -> T)
    ensures var i := FirstIndex(s, key, k);
            UpdateFirst(s, key, k, f) == if i < 0 then s else s[i := f(s[i])]
  {
    if s == [] {
    } else if key(s[0]) == k {
      assert FirstIndex(s, key, k) == 0;
      assert [f(s[0])] + s[1..] == s[0 := f(s[0])];
    } else {
      var tail := s[1..];
      UpdateFirstAt(tail, key, k, f);
      FirstIndexTail(s, key, k);
      var t := FirstIndex(tail, key, k);
      if t < 0 {
        assert [s[0]] + tail == s;
      } else {
        var w := [s[0]] + tail[t := f(tail[t])];
        assert |w| == |s|;
        assert forall j :: 0 <= j < |w| ==> w[j] == if j == t + 1 then f(s[t + 1]) else s[j];
        assert w == s[t + 1 := f(s[t + 1])];
      }
    }
  }

  /** An update that keeps the key and is idempotent can be repeated without effect. */
  lemma {:induction false} UpdateFirstIdempotent<T, K>(s: seq<T>, key: T -> K, k: K, f: T -> T)
    requires forall x :: key(f(x)) == key(x)
    requires forall x :: f(f(x)) == f(x)
    ensures UpdateFirst(UpdateFirst(s, key, k, f), key, k, f) == UpdateFirst(s, key, k, f)
  {
    if s != [] && key(s[0]) != k {
      UpdateFirstIdempotent(s[1..], key, k, f);
      assert UpdateFirst(s, key, k, f)[1..] == UpdateFirst(s[1..], key, k, f);
    }
  }
}
