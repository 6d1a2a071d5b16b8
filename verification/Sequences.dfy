/** Folds and filters over sequences that grow at the end, as the program's slices do. */
module Sequences {

  datatype Option<+T> = None | Some(value: T)

  /** The elements that f accepts, in order. */
  function FilterMap<A, B>(f: A -> Option<B>, xs: seq<A>): seq<B> {
    if xs == [] then []
    else
      var front := FilterMap(f, xs[..|xs| - 1]);
      match f(xs[|xs| - 1])
      case Some(y) => front + [y]
      case None => front
  }

  lemma {:induction false} FilterMapAppend<A, B>(f: A -> Option<B>, xs: seq<A>, ys: seq<A>)
    ensures FilterMap(f, xs + ys) == FilterMap(f, xs) + FilterMap(f, ys)
  {
    if ys == [] {
      assert xs + ys == xs;
    } else {
      assert (xs + ys)[..|xs + ys| - 1] == xs + ys[..|ys| - 1];
      FilterMapAppend(f, xs, ys[..|ys| - 1]);
    }
  }

  /** One more element at the end. */
  lemma FilterMapSnoc<A, B>(f: A -> Option<B>, xs: seq<A>, x: A)
    ensures FilterMap(f, xs + [x]) ==
            match f(x)
            case Some(y) => FilterMap(f, xs) + [y]
            case None => FilterMap(f, xs)
  {
    assert (xs + [x])[..|xs|] == xs;
  }

  lemma {:induction false} FilterMapAll<A, B>(f: A -> Option<B>, xs: seq<A>, ys: seq<B>)
    requires |xs| == |ys|
    requires forall i | 0 <= i < |xs| :: f(xs[i]) == Some(ys[i])
    ensures FilterMap(f, xs) == ys
  {
    if xs != [] {
      FilterMapAll(f, xs[..|xs| - 1], ys[..|ys| - 1]);
    }
  }

  lemma {:induction false} FilterMapSame<A, B, C>(f: A -> Option<C>, xs: seq<A>, g: B -> Option<C>, ys: seq<B>)
    requires |xs| == |ys| && forall i | 0 <= i < |xs| :: f(xs[i]) == g(ys[i])
    ensures FilterMap(f, xs) == FilterMap(g, ys)
  {
    if xs != [] {
      FilterMapSame(f, xs[..|xs| - 1], g, ys[..|ys| - 1]);
    }
  }

  function Repeat<T>(n: nat, x: T): seq<T> {
    seq(n, _ => x)
  }

  /** xs arises from ys by deleting elements. */
  ghost predicate IsSubsequence<T>(xs: seq<T>, ys: seq<T>) {
    if ys == [] then xs == []
    else
      || IsSubsequence(xs, ys[..|ys| - 1])
      || (xs != [] && xs[|xs| - 1] == ys[|ys| - 1] && IsSubsequence(xs[..|xs| - 1], ys[..|ys| - 1]))
  }

  lemma {:induction false} SubsequenceSkip<T>(xs: seq<T>, ys: seq<T>, zs: seq<T>)
    requires IsSubsequence(xs, ys)
    ensures IsSubsequence(xs, ys + zs)
  {
    if zs == [] {
      assert ys + zs == ys;
    } else {
      SubsequenceSkip(xs, ys, zs[..|zs| - 1]);
      assert (ys + zs)[..|ys + zs| - 1] == ys + zs[..|zs| - 1];
    }
  }

  lemma {:induction false} SubsequenceKeep<T>(xs: seq<T>, ys: seq<T>, zs: seq<T>)
    requires IsSubsequence(xs, ys)
    ensures IsSubsequence(xs + zs, ys + zs)
  {
    if zs == [] {
      assert ys + zs == ys && xs + zs == xs;
    } else {
      SubsequenceKeep(xs, ys, zs[..|zs| - 1]);
      assert (ys + zs)[..|ys + zs| - 1] == ys + zs[..|zs| - 1];
      assert (xs + zs)[..|xs + zs| - 1] == xs + zs[..|zs| - 1];
    }
  }

  lemma {:induction false} SubsequenceInsert<T>(xs: seq<T>, a: seq<T>, b: seq<T>, c: seq<T>)
    requires IsSubsequence(xs, a + c)
    ensures IsSubsequence(xs, a + b + c)
  {
    if c == [] {
      assert a + c == a && a + b + c == a + b;
      SubsequenceSkip(xs, a, b);
    } else {
      var c' := c[..|c| - 1];
      assert (a + c)[..|a + c| - 1] == a + c';
      assert (a + b + c)[..|a + b + c| - 1] == a + b + c';
      if IsSubsequence(xs, a + c') {
        SubsequenceInsert(xs, a, b, c');
      } else {
        SubsequenceInsert(xs[..|xs| - 1], a, b, c');
      }
    }
  }

  lemma {:induction false} SubsequenceCounts<T>(xs: seq<T>, ys: seq<T>)
    requires IsSubsequence(xs, ys)
    ensures multiset(xs) <= multiset(ys)
  {
    if ys != [] {
      var ys' := ys[..|ys| - 1];
      assert ys == ys' + [ys[|ys| - 1]];
      if IsSubsequence(xs, ys') {
        SubsequenceCounts(xs, ys');
      } else {
        assert xs == xs[..|xs| - 1] + [xs[|xs| - 1]];
        SubsequenceCounts(xs[..|xs| - 1], ys');
      }
    }
  }

  /** How often x occurs in xs. */
  function Count<T(==)>(xs: seq<T>, x: T): nat {
    if xs == [] then 0 else Count(xs[..|xs| - 1], x) + (if xs[|xs| - 1] == x then 1 else 0)
  }

  function Range(n: nat): (r: set<int>)
    ensures |r| == n && forall i :: i in r <==> 0 <= i < n
  {
    if n == 0 then {} else Range(n - 1) + {n - 1}
  }

  lemma SubsetSize(a: set<int>, b: set<int>)
    requires a <= b
    ensures |a| <= |b|
    ensures |a| == |b| ==> a == b
  {
    assert b == a + (b - a);
    if |a| == |b| {
      assert b - a == {};
    }
  }

  function Elements(s: seq<int>): set<int> {
    set x | x in s
  }

  lemma NoElements(s: seq<int>)
    ensures Elements(s) == {} <==> s == []
  {
    if s != [] {
      assert s[0] in Elements(s);
    }
  }

  lemma {:induction false} DistinctSize(s: seq<int>)
    requires forall j, k | 0 <= j < k < |s| :: s[j] != s[k]
    ensures |Elements(s)| == |s|
  {
    if s != [] {
      var front, x := s[..|s| - 1], s[|s| - 1];
      DistinctSize(front);
      assert s == front + [x];
      assert Elements(s) == Elements(front) + {x};
    }
  }

  ghost predicate Increasing(s: seq<int>) {
    forall j, k | 0 <= j < k < |s| :: s[j] < s[k]
  }

  lemma IncreasingSnoc(s: seq<int>, x: int)
    requires Increasing(s) && forall k | 0 <= k < |s| :: s[k] < x
    ensures Increasing(s + [x])
  {
  }

  /** An increasing sequence is determined by its elements. */
  lemma {:induction false} IncreasingUnique(a: seq<int>, b: seq<int>)
    requires Increasing(a) && Increasing(b) && Elements(a) == Elements(b)
    ensures a == b
  {
    if a == [] || b == [] {
      NoElements(a);
      NoElements(b);
    } else {
      var a', m := a[..|a| - 1], a[|a| - 1];
      var b', n := b[..|b| - 1], b[|b| - 1];
      assert m in Elements(b) && n in Elements(a);
      assert a == a' + [m] && b == b' + [n];
      assert Elements(a') == Elements(a) - {m};
      assert Elements(b') == Elements(b) - {n};
      IncreasingUnique(a', b');
    }
  }
}
