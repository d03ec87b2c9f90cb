/** The contract of sort.SliceStable, and the insertion sort it runs on short slices. */
module Sorting {

  /** A strict weak order on the elements of s: asymmetric, and not being less is transitive. */
  ghost predicate StrictWeakOrder<T>(less: (T, T) -> bool, s: seq<T>) {
    && (forall x, y :: x in s && y in s && less(x, y) ==> !less(y, x))
    && (forall x, y, z :: x in s && y in s && z in s && !less(x, y) && !less(y, z) ==> !less(x, z))
  }

  /** p lists each of the first |p| positions once. */
  ghost predicate Places(p: seq<nat>) {
    && (forall i :: 0 <= i < |p| ==> p[i] < |p|)
    && (forall i, j :: 0 <= i < j < |p| ==> p[i] != p[j])
  }

  /** after is before rearranged by p, nothing follows what it is less than, and elements the
      order does not separate keep their places. */
  ghost predicate StablySorted<T>(less: (T, T) -> bool, before: seq<T>, after: seq<T>, p: seq<nat>) {
    && |before| == |after| == |p| && Places(p)
    && (forall i :: 0 <= i < |p| ==> after[i] == before[p[i]])
    && (forall i, j :: 0 <= i < j < |p| ==> !less(after[j], after[i]))
    && (forall i, j :: 0 <= i < j < |p| && !less(after[i], after[j]) ==> p[i] < p[j])
  }

  /** Every position is the image of some place, so both sides hold the same elements. */
  lemma SameElements<T>(less: (T, T) -> bool, before: seq<T>, after: seq<T>, p: seq<nat>)
    requires StablySorted(less, before, after, p)
    ensures forall x :: x in before <==> x in after
  {
    forall x | x in before ensures x in after {
      var k :| 0 <= k < |before| && before[k] == x;
      var i := Whence(p, k);
      assert after[i] == x;
    }
  }

  /** Distinct numbers below |p|, |p| of them: each number occurs. */
  lemma Whence(p: seq<nat>, k: nat) returns (i: nat)
    requires Places(p) && k < |p|
    ensures i < |p| && p[i] == k
  {
    var image := set j | 0 <= j < |p| :: p[j];
    ImageSize(p, |p|);
    NumbersBelow(|p|);
    assert image <= Below(|p|);
    if k !in image {
      SubsetSize(image, Below(|p|) - {k});
    }
    i :| 0 <= i < |p| && p[i] == k;
  }

  lemma {:induction false} ImageSize(p: seq<nat>, n: nat)
    requires n <= |p| && forall i, j :: 0 <= i < j < |p| ==> p[i] != p[j]
    ensures |set j | 0 <= j < n :: p[j]| == n
  {
    if n > 0 {
      ImageSize(p, n - 1);
      assert (set j | 0 <= j < n :: p[j]) == (set j | 0 <= j < n - 1 :: p[j]) + {p[n - 1]};
    }
  }

  function Below(n: nat): set<nat> {
    if n == 0 then {} else Below(n - 1) + {n - 1}
  }

  lemma {:induction false} NumbersBelow(n: nat)
    ensures |Below(n)| == n && forall k: nat :: k in Below(n) <==> k < n
  {
    if n > 0 {
      NumbersBelow(n - 1);
    }
  }

  lemma {:induction false} SubsetSize<T>(a: set<T>, b: set<T>)
    requires a <= b
    ensures |a| <= |b|
  {
    if a != {} {
      var x :| x in a;
      SubsetSize(a - {x}, b - {x});
    }
  }

  /** Each element comes before all later ones. */
  ghost predicate Ordered<T>(before: (T, T) -> bool, xs: seq<T>) {
    forall i, j :: 0 <= i < j < |xs| ==> before(xs[i], xs[j])
  }

  ghost predicate SameMembers<T>(xs: seq<T>, ys: seq<T>) {
    (forall x :: x in xs ==> x in ys) && forall y :: y in ys ==> y in xs
  }

  ghost predicate Asymmetric<T>(before: (T, T) -> bool, xs: seq<T>) {
    forall x, y :: x in xs && y in xs ==> !(before(x, y) && before(y, x))
  }

  lemma TailMembers<T>(before: (T, T) -> bool, xs: seq<T>, x: T)
    requires xs != [] && Ordered(before, xs) && Asymmetric(before, xs)
    ensures x in xs[1..] <==> x in xs && x != xs[0]
  {
  }

  lemma SameFirst<T>(before: (T, T) -> bool, xs: seq<T>, ys: seq<T>)
    requires xs != [] && ys != [] && Ordered(before, xs) && Ordered(before, ys)
    requires SameMembers(xs, ys) && Asymmetric(before, xs)
    ensures xs[0] == ys[0]
  {
    assert xs[0] in ys && ys[0] in xs;
    var i :| 0 <= i < |ys| && ys[i] == xs[0];
    var j :| 0 <= j < |xs| && xs[j] == ys[0];
  }

  /** A list in an asymmetric order is determined by its elements. */
  lemma {:induction false} OrderedIsUnique<T>(before: (T, T) -> bool, xs: seq<T>, ys: seq<T>)
    requires Ordered(before, xs) && Ordered(before, ys) && SameMembers(xs, ys) && Asymmetric(before, xs)
    ensures xs == ys
  {
    assert |xs| == 0 <==> |ys| == 0 by {
      if |xs| > 0 { assert xs[0] in ys; }
      if |ys| > 0 { assert ys[0] in xs; }
    }
    if xs != [] && ys != [] {
      SameFirst(before, xs, ys);
      var xs', ys' := xs[1..], ys[1..];
      forall x | x in xs' ensures x in ys' { TailMembers(before, xs, x); TailMembers(before, ys, x); }
      forall y | y in ys' ensures y in xs' { TailMembers(before, xs, y); TailMembers(before, ys, y); }
      OrderedIsUnique(before, xs', ys');
      assert xs == [xs[0]] + xs' && ys == [ys[0]] + ys';
    }
  }

  /** The first n elements are in order; the element at hole is being sifted down from n - 1
      and is less than everything it has passed. */
  ghost predicate Sifting<T>(less: (T, T) -> bool, before: seq<T>, s: seq<T>, p: seq<nat>, n: nat, hole: nat) {
    && hole < n <= |s| == |before| == |p|
    && (forall i :: 0 <= i < |p| ==> p[i] < |p|)
    && (forall i :: 0 <= i < |p| ==> s[i] == before[p[i]])
    && (forall i, j :: 0 <= i < j < |p| ==> p[i] != p[j])
    && (forall i :: n <= i < |p| ==> p[i] == i)
    && p[hole] == n - 1
    && (forall i, j :: 0 <= i < j < n && i != hole && j != hole ==> !less(s[j], s[i]))
    && (forall i, j :: 0 <= i < j < n && i != hole && j != hole && !less(s[i], s[j]) ==> p[i] < p[j])
    && (forall j :: hole < j < n ==> less(s[hole], s[j]))
    && (forall i :: 0 <= i < n && i != hole ==> p[i] < n - 1)
  }

  /** The first n elements are sorted, the rest untouched. */
  ghost predicate SortedUpTo<T>(less: (T, T) -> bool, before: seq<T>, s: seq<T>, p: seq<nat>, n: nat) {
    && n <= |s| == |before| == |p|
    && (forall i :: 0 <= i < |p| ==> p[i] < |p|)
    && (forall i :: 0 <= i < |p| ==> s[i] == before[p[i]])
    && (forall i, j :: 0 <= i < j < |p| ==> p[i] != p[j])
    && (forall i :: 0 <= i < n ==> p[i] < n)
    && (forall i :: n <= i < |p| ==> p[i] == i)
    && (forall i, j :: 0 <= i < j < n ==> !less(s[j], s[i]))
    && (forall i, j :: 0 <= i < j < n && !less(s[i], s[j]) ==> p[i] < p[j])
  }

  lemma SwapKeepsSifting<T>(less: (T, T) -> bool, before: seq<T>, s: seq<T>, s': seq<T>, p: seq<nat>, n: nat, hole: nat)
    returns (p': seq<nat>)
    requires StrictWeakOrder(less, before) && Sifting(less, before, s, p, n, hole + 1)
    requires less(s[hole + 1], s[hole]) && s' == s[hole + 1 := s[hole]][hole := s[hole + 1]]
    ensures Sifting(less, before, s', p', n, hole)
  {
    assert s[hole] in before && s[hole + 1] in before;
    p' := p[hole + 1 := p[hole]][hole := p[hole + 1]];
  }

  lemma SiftingEnds<T>(less: (T, T) -> bool, before: seq<T>, s: seq<T>, p: seq<nat>, n: nat, hole: nat)
    requires StrictWeakOrder(less, before) && Sifting(less, before, s, p, n, hole)
    requires hole == 0 || !less(s[hole], s[hole - 1])
    ensures SortedUpTo(less, before, s, p, n)
  {
  }

  lemma SiftingBegins<T>(less: (T, T) -> bool, before: seq<T>, s: seq<T>, p: seq<nat>, n: nat)
    requires SortedUpTo(less, before, s, p, n) && n < |s|
    ensures Sifting(less, before, s, p, n + 1, n)
  {
  }

  lemma AllSorted<T>(less: (T, T) -> bool, before: seq<T>, s: seq<T>, p: seq<nat>)
    requires SortedUpTo(less, before, s, p, |s|)
    ensures StablySorted(less, before, s, p)
  {
  }

  /** One exchange of neighbours. */
  method SwapDown<T>(a: array<T>, less: (T, T) -> bool, n: nat, hole: nat, ghost before: seq<T>, ghost p0: seq<nat>)
    returns (ghost p: seq<nat>)
    requires StrictWeakOrder(less, before) && Sifting(less, before, a[..], p0, n, hole + 1)
    requires less(a[hole + 1], a[hole])
    modifies a
    ensures Sifting(less, before, a[..], p, n, hole)
  {
    ghost var s := a[..];
    a[hole + 1], a[hole] := a[hole], a[hole + 1];
    p := SwapKeepsSifting(less, before, s, a[..], p0, n, hole);
  }

  /** The inner loop: element n goes down to its place among the first n. */
  method SiftDown<T>(a: array<T>, less: (T, T) -> bool, n: nat, ghost before: seq<T>, ghost p0: seq<nat>)
    returns (ghost p: seq<nat>)
    requires StrictWeakOrder(less, before) && n < a.Length && SortedUpTo(less, before, a[..], p0, n)
    modifies a
    ensures SortedUpTo(less, before, a[..], p, n + 1)
  {
    hide StrictWeakOrder, SortedUpTo, Sifting;
    p := p0;
    var hole := n;
    SiftingBegins(less, before, a[..], p, n);
    while hole > 0 && less(a[hole], a[hole - 1])
      invariant 0 <= hole <= n && Sifting(less, before, a[..], p, n + 1, hole)
    {
      hole := hole - 1;
      p := SwapDown(a, less, n + 1, hole, before, p);
    }
    SiftingEnds(less, before, a[..], p, n + 1, hole);
  }

  /** sort.SliceStable in place; p is where each element came from. */
  method StableSort<T>(a: array<T>, less: (T, T) -> bool) returns (ghost p: seq<nat>)
    requires StrictWeakOrder(less, a[..])
    modifies a
    ensures StablySorted(less, old(a[..]), a[..], p)
  {
    hide StrictWeakOrder;
    p := seq(a.Length, i => i);
    NothingSorted(less, a[..], p);
    for n := 0 to a.Length
      invariant SortedUpTo(less, old(a[..]), a[..], p, n)
    {
      p := SiftDown(a, less, n, old(a[..]), p);
    }
    AllSorted(less, old(a[..]), a[..], p);
  }

  lemma NothingSorted<T>(less: (T, T) -> bool, s: seq<T>, p: seq<nat>)
    requires |p| == |s| && forall i :: 0 <= i < |p| ==> p[i] == i
    ensures SortedUpTo(less, s, s, p, 0)
  {
  }
}
