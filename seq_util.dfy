/** Sequence helpers shared by the modules: duplicate-freedom, filtering,
  * `[...new Set(s)]` and the facts about them that the modules rely on. */
module SeqUtil {

  /** No element occurs twice. */
  predicate Distinct<T(==)>(s: seq<T>) {
    forall i, j | 0 <= i < j < |s| :: s[i] != s[j]
  }

  /** `s.filter(p)`: the elements of `s` satisfying `p`, in their order in `s`. */
  function Filter<T>(s: seq<T>, p: T -> bool): (r: seq<T>)
    ensures |r| <= |s|
    ensures forall x | x in r :: x in s && p(x)
    ensures forall x | x in s && p(x) :: x in r
  {
    if s == [] then [] else (if p(s[0]) then [s[0]] else []) + Filter(s[1..], p)
  }

  /** `s.slice(0, n)`. */
  function Take<T>(s: seq<T>, n: nat): (r: seq<T>)
    ensures |r| == if |s| < n then |s| else n
    ensures forall x :: x in r ==> x in s
    ensures r == s[..|r|]
  {
    if |s| <= n then s else s[..n]
  }

  /** `[...new Set(s)]`: the elements of `s`, each once, in order of first occurrence. */
  function Dedup<T(==)>(s: seq<T>): (r: seq<T>)
    ensures Distinct(r)
    ensures forall x | x in r :: x in s
    ensures forall x | x in s :: x in r
    ensures |r| <= |s|
  {
    if s == [] then []
    else
      var r := Dedup(s[..|s| - 1]);
      if s[|s| - 1] in r then r else r + [s[|s| - 1]]
  }

  /** A sequence without repeats that holds every member of `a` is at
    * least as long as `a` has distinct members. */
  lemma CountAtLeast<T>(a: seq<T>, u: seq<T>, n: nat)
    requires forall x | x in a :: x in u
    requires Distinct(u)
    requires |set x | x in a| >= n
    ensures |u| >= n
  {
    SubsetCard(set x | x in a, set x | x in u);
    DistinctCard(u);
  }

  /** Removing repeats from `a`, appending `b` and removing repeats again
    * keeps exactly the members of `a` and of `b`. */
  lemma DedupConcat<T>(a: seq<T>, b: seq<T>, x: T)
    ensures x in Dedup(Dedup(a) + b) <==> x in a || x in b
  {
  }

  /** `r` is `s` with some elements left out: what remains keeps the order of `s`. */
  predicate IsSubsequence<T(==)>(r: seq<T>, s: seq<T>)
    decreases |s|
  {
    if r == [] then true
    else if s == [] then false
    else if r[0] == s[0] then IsSubsequence(r[1..], s[1..])
    else IsSubsequence(r, s[1..])
  }

  /** Filtering one more element at the end: it is kept exactly when it
    * satisfies `p`. */
  lemma {:induction false} FilterSnoc<T>(s: seq<T>, x: T, p: T -> bool)
    ensures Filter(s + [x], p) == Filter(s, p) + (if p(x) then [x] else [])
  {
    if s == [] {
      assert [x][1..] == [];
    } else {
      assert (s + [x])[1..] == s[1..] + [x];
      FilterSnoc(s[1..], x, p);
    }
  }

  /** Filtering keeps the order of the input, and keeps it duplicate-free. */
  lemma {:induction false} FilterInOrder<T>(s: seq<T>, p: T -> bool)
    ensures IsSubsequence(Filter(s, p), s)
    ensures Distinct(s) ==> Distinct(Filter(s, p))
  {
    if s != [] {
      FilterInOrder(s[1..], p);
      var tail := Filter(s[1..], p);
      if p(s[0]) {
        assert Filter(s, p) == [s[0]] + tail;
        assert ([s[0]] + tail)[1..] == tail;
      } else {
        assert Filter(s, p) == tail;
        if tail != [] {
          assert IsSubsequence(tail, s[1..]);
        }
      }
    }
  }

  /** A duplicate-free sequence holds each element at most once. */
  lemma {:induction false} DistinctCount<T>(s: seq<T>, x: T)
    requires Distinct(s)
    ensures multiset(s)[x] <= 1
  {
    if s != [] {
      DistinctCount(s[1..], x);
      assert s == [s[0]] + s[1..];
      if s[0] == x {
        assert x !in s[1..];
      }
    }
  }

  /** A rearrangement of a duplicate-free sequence is duplicate-free. */
  lemma PermutationDistinct<T>(a: seq<T>, b: seq<T>)
    requires multiset(a) == multiset(b)
    requires Distinct(a)
    ensures Distinct(b)
  {
    forall i, j | 0 <= i < j < |b| ensures b[i] != b[j] {
      DistinctCount(a, b[j]);
      assert b == b[..j] + b[j..];
      assert b[i] in b[..j];
      assert b[j] in b[j..];
      assert multiset(b)[b[j]] == multiset(b[..j])[b[j]] + multiset(b[j..])[b[j]];
    }
  }

  /** A duplicate-free sequence has as many elements as its set. */
  lemma {:induction false} DistinctCard<T>(s: seq<T>)
    requires Distinct(s)
    ensures |set x | x in s| == |s|
  {
    if s != [] {
      DistinctCard(s[1..]);
      assert (set x | x in s) == {s[0]} + (set x | x in s[1..]);
      assert s[0] !in s[1..];
    }
  }

  /** A sequence has at least as many elements as its set. */
  lemma {:induction false} CardBound<T>(s: seq<T>)
    ensures |set x | x in s| <= |s|
  {
    if s != [] {
      CardBound(s[1..]);
      assert (set x | x in s) == {s[0]} + (set x | x in s[1..]);
    }
  }

  /** Matching the head of `xs` with an occurrence in a rearrangement `ys`:
    * what remains of each is still a rearrangement of the other. */
  lemma MultisetRemove<T>(xs: seq<T>, ys: seq<T>, k: nat)
    requires multiset(xs) == multiset(ys)
    requires xs != [] && k < |ys| && ys[k] == xs[0]
    ensures multiset(xs[1..]) == multiset(ys[..k] + ys[k + 1..])
  {
    assert ys == ys[..k] + [ys[k]] + ys[k + 1..];
    assert xs == [xs[0]] + xs[1..];
    calc {
      multiset(xs[1..]);
      multiset(xs) - multiset{xs[0]};
      multiset(ys) - multiset{ys[k]};
      multiset(ys[..k] + ys[k + 1..]);
    }
  }

  /** `s.map(f)`: `f` applied to every element, in order. */
  function Map<A, B>(f: A -> B, s: seq<A>): (r: seq<B>)
    ensures |r| == |s|
    ensures forall i | 0 <= i < |s| :: r[i] == f(s[i])
  {
    if s == [] then [] else [f(s[0])] + Map(f, s[1..])
  }

  /** Mapping two rearrangements of each other gives two rearrangements. */
  lemma {:induction false} MapPermutation<A, B>(f: A -> B, xs: seq<A>, ys: seq<A>)
    requires multiset(xs) == multiset(ys)
    ensures multiset(Map(f, xs)) == multiset(Map(f, ys))
    decreases |xs|
  {
    if xs == [] {
      assert |ys| == |multiset(ys)| == 0;
    } else {
      assert xs[0] in multiset(ys);
      var k :| 0 <= k < |ys| && ys[k] == xs[0];
      var rest := ys[..k] + ys[k + 1..];
      MultisetRemove(xs, ys, k);
      MapPermutation(f, xs[1..], rest);
      var fy := Map(f, ys);
      assert Map(f, rest) == fy[..k] + fy[k + 1..];
      assert fy == fy[..k] + [fy[k]] + fy[k + 1..];
      assert Map(f, xs) == [fy[k]] + Map(f, xs[1..]);
    }
  }

  /** A sequence that keeps every element of a repeat-free `s` except
    * possibly `x` has at least `|s| - 1` distinct elements. */
  lemma AllButOne<T>(s: seq<T>, x: T, r: seq<T>)
    requires Distinct(s)
    requires forall y | y in s && y != x :: y in r
    ensures |set y | y in r| >= |s| - 1
  {
    var rest := set y | y in r;
    DistinctCard(s);
    SubsetCard((set y | y in s), rest + {x});
    assert |rest + {x}| <= |rest| + 1;
  }

  /** A subset is no larger than its superset. */
  lemma SubsetCard<T>(a: set<T>, b: set<T>)
    requires a <= b
    ensures |a| <= |b|
  {
    assert b == a + (b - a);
    assert a * (b - a) == {};
  }

  /** Appending an element that satisfies `p` to a sequence whose elements
    * all satisfy `p` gives a sequence whose elements all satisfy `p`. */
  lemma AllAppend<T>(s: seq<T>, x: T, p: T -> bool)
    requires forall y | y in s :: p(y)
    requires p(x)
    ensures forall y | y in s + [x] :: p(y)
  {
  }

  /** A prefix one longer is the prefix and the next element. */
  lemma TakeOneMore<T>(s: seq<T>, n: nat)
    requires n < |s|
    ensures s[..n + 1] == s[..n] + [s[n]]
  {
  }
}
