/** Sequence helpers standing in for the JavaScript array operations the
    services use: `filter`, `indexOf`, `splice` and the last element. */
module Seqs {

  datatype Option<+T> = None | Some(value: T)

  /** The last element of a non-empty sequence (`a[a.length - 1]`). */
  function Last<T>(s: seq<T>): T
    requires |s| > 0
  {
    s[|s| - 1]
  }

  /** `a` is obtained from `b` by deleting elements, keeping the order of the rest. */
  predicate IsSubseq<T(==)>(a: seq<T>, b: seq<T>)
    decreases |b|
  {
    |a| <= |b| &&
    (a == [] || (a[0] == b[0] && IsSubseq(a[1..], b[1..])) || IsSubseq(a, b[1..]))
  }

  /** `Array.prototype.filter`: the elements that pass `f`, in their original order. */
  function Filter<T(==)>(s: seq<T>, f: T -> bool): (r: seq<T>)
    ensures |r| <= |s|
    ensures forall i :: 0 <= i < |r| ==> r[i] in s && f(r[i])
    ensures forall i :: 0 <= i < |s| && f(s[i]) ==> s[i] in r
  {
    if s == [] then []
    else (if f(s[0]) then [s[0]] else []) + Filter(s[1..], f)
  }

  lemma {:induction false} FilterIsSubseq<T>(s: seq<T>, f: T -> bool)
    ensures IsSubseq(Filter(s, f), s)
  {
    if s != [] {
      FilterIsSubseq(s[1..], f);
      var rest := Filter(s[1..], f);
      if f(s[0]) {
        assert Filter(s, f) == [s[0]] + rest;
        assert (([s[0]] + rest)[1..]) == rest;
      } else {
        assert Filter(s, f) == rest;
        if rest != [] {
          assert s[1..] != [];
        }
      }
    }
  }

  /** Filtering keeps everything exactly when every element passes. */
  lemma {:induction false} FilterAllPass<T>(s: seq<T>, f: T -> bool)
    requires forall i :: 0 <= i < |s| ==> f(s[i])
    ensures Filter(s, f) == s
  {
    if s != [] {
      FilterAllPass(s[1..], f);
      assert [s[0]] + s[1..] == s;
    }
  }

  /** Every element stands in relation `before` to every later one. */
  predicate InOrder<T>(s: seq<T>, before: (T, T) -> bool)
  {
    forall i, j :: 0 <= i < j < |s| ==> before(s[i], s[j])
  }

  /** `filter` keeps every pairwise relation the list satisfied in order. */
  lemma {:induction false} FilterKeepsOrder<T>(s: seq<T>, f: T -> bool, before: (T, T) -> bool)
    requires InOrder(s, before)
    ensures InOrder(Filter(s, f), before)
  {
    if s != [] {
      assert InOrder(s[1..], before) by {
        forall i, j | 0 <= i < j < |s[1..]|
          ensures before(s[1..][i], s[1..][j])
        {
          assert s[1..][i] == s[i + 1] && s[1..][j] == s[j + 1];
        }
      }
      FilterKeepsOrder(s[1..], f, before);
      var rest := Filter(s[1..], f);
      if f(s[0]) {
        var r := Filter(s, f);
        assert r == [s[0]] + rest;
        forall i, j | 0 <= i < j < |r|
          ensures before(r[i], r[j])
        {
          if i == 0 {
            var m :| 0 <= m < |s[1..]| && s[1..][m] == rest[j - 1];
            assert before(s[0], s[m + 1]);
          } else {
            assert r[i] == rest[i - 1] && r[j] == rest[j - 1];
          }
        }
      }
    }
  }

  /** `filter` keeps every copy of an element that passes and none of one that fails. */
  lemma {:induction false} FilterCount<T>(s: seq<T>, f: T -> bool, x: T)
    ensures multiset(Filter(s, f))[x] == if f(x) then multiset(s)[x] else 0
  {
    if s != [] {
      FilterCount(s[1..], f, x);
      assert s == [s[0]] + s[1..];
      assert multiset(s) == multiset{s[0]} + multiset(s[1..]);
      var head := if f(s[0]) then [s[0]] else [];
      assert Filter(s, f) == head + Filter(s[1..], f);
      assert multiset(Filter(s, f)) == multiset(head) + multiset(Filter(s[1..], f));
    }
  }

  /** Filtering two permutations of one list gives permutations of one list. */
  lemma FilterPermutation<T>(a: seq<T>, b: seq<T>, f: T -> bool)
    requires multiset(a) == multiset(b)
    ensures multiset(Filter(a, f)) == multiset(Filter(b, f))
  {
    forall x
      ensures multiset(Filter(a, f))[x] == multiset(Filter(b, f))[x]
    {
      FilterCount(a, f, x);
      FilterCount(b, f, x);
    }
  }

  /** `Array.prototype.indexOf`: the first position holding `x`, or -1. */
  function IndexOf<T(==)>(s: seq<T>, x: T): (i: int)
    ensures -1 <= i < |s|
    ensures i == -1 <==> x !in s
    ensures 0 <= i ==> s[i] == x && x !in s[..i]
  {
    if s == [] then -1
    else if s[0] == x then 0
    else
      var j := IndexOf(s[1..], x);
      if j == -1 then -1
      else
        assert s[..j + 1] == [s[0]] + s[1..][..j];
        j + 1
  }

  /** `a.splice(k, 1)`: the sequence without its element at position `k`. */
  function RemoveAt<T>(s: seq<T>, k: nat): (r: seq<T>)
    requires k < |s|
    ensures |r| == |s| - 1
    ensures multiset(r) == multiset(s) - multiset{s[k]}
    ensures forall i :: 0 <= i < k ==> r[i] == s[i]
    ensures forall i :: k <= i < |r| ==> r[i] == s[i + 1]
  {
    var before, after := s[..k], s[k + 1..];
    assert s == before + [s[k]] + after;
    assert multiset(s) == multiset(before) + multiset{s[k]} + multiset(after);
    before + after
  }

  /** The last `k` elements of `s`. */
  function Suffix<T>(s: seq<T>, k: nat): seq<T>
    requires k <= |s|
  {
    s[|s| - k..]
  }
}
