/**
 * The array operations the core chains on its lists: `filter`, `slice(0, n)`, and the
 * positions `forEach((x, i) => …)` visits when it acts only on some elements.
 */
module Seqs {
  import opened Wrappers

  /** `xs.filter(p)`: the elements satisfying `p`, in their original order. */
  function Filter<T>(xs: seq<T>, p: T -> bool): (r: seq<T>)
    ensures |r| <= |xs|
    ensures forall i :: 0 <= i < |r| ==> p(r[i])
  {
    if xs == [] then []
    else
      var n := |xs| - 1;
      var rest := Filter(xs[..n], p);
      if p(xs[n]) then rest + [xs[n]] else rest
  }

  /** Every element satisfying `p` passes the filter, and nothing else does. */
  lemma {:induction false} FilterMembers<T>(xs: seq<T>, p: T -> bool)
    ensures forall x :: x in Filter(xs, p) <==> x in xs && p(x)
  {
    if xs != [] {
      var n := |xs| - 1;
      FilterMembers(xs[..n], p);
      assert xs == xs[..n] + [xs[n]];
    }
  }

  /** The indices of the elements satisfying `p`, increasing: exactly the `i` a guarded `forEach` acts on. */
  function Positions<T>(xs: seq<T>, p: T -> bool): (ps: seq<nat>)
    ensures |ps| <= |xs|
    ensures forall j :: 0 <= j < |ps| ==> ps[j] < |xs| && p(xs[ps[j]])
    ensures forall j, k :: 0 <= j < k < |ps| ==> ps[j] < ps[k]
  {
    if xs == [] then []
    else
      var n := |xs| - 1;
      var rest := Positions(xs[..n], p);
      if p(xs[n]) then rest + [n] else rest
  }

  /** Every index whose element satisfies `p` is among the positions. */
  lemma {:induction false} PositionsComplete<T>(xs: seq<T>, p: T -> bool, i: nat)
    requires i < |xs| && p(xs[i])
    ensures i in Positions(xs, p)
  {
    var n := |xs| - 1;
    var rest := Positions(xs[..n], p);
    if i < n {
      PositionsComplete(xs[..n], p, i);
      assert Positions(xs, p) == rest + [n] || Positions(xs, p) == rest;
    } else {
      assert Positions(xs, p) == rest + [n];
    }
  }

  /** The filtered list is the original read at the positions. */
  lemma {:induction false} FilterAtPositions<T>(xs: seq<T>, p: T -> bool)
    ensures |Filter(xs, p)| == |Positions(xs, p)|
    ensures forall j :: 0 <= j < |Filter(xs, p)| ==> Filter(xs, p)[j] == xs[Positions(xs, p)[j]]
  {
    if xs != [] {
      FilterAtPositions(xs[..|xs| - 1], p);
    }
  }

  /** `xs.slice(0, n)`: the first `n` elements, or all of them when there are fewer. */
  function Take<T>(xs: seq<T>, n: nat): (r: seq<T>)
    ensures |r| == if |xs| < n then |xs| else n
    ensures r == xs[..|r|]
  {
    if |xs| <= n then xs else xs[..n]
  }

  /** Filtering by a test and by its negation splits the list: the two lengths add up. */
  lemma {:induction false} FilterSplit<T>(xs: seq<T>, p: T -> bool, q: T -> bool)
    requires forall x :: q(x) == !p(x)
    ensures |Filter(xs, p)| + |Filter(xs, q)| == |xs|
  {
    if xs != [] {
      FilterSplit(xs[..|xs| - 1], p, q);
    }
  }

  /** Nothing passes the filter exactly when no element satisfies the test. */
  lemma FilterEmpty<T>(xs: seq<T>, p: T -> bool)
    ensures Filter(xs, p) == [] <==> forall i :: 0 <= i < |xs| ==> !p(xs[i])
  {
    FilterMembers(xs, p);
    if Filter(xs, p) != [] {
      assert Filter(xs, p)[0] in Filter(xs, p);
    } else {
      forall i | 0 <= i < |xs| ensures !p(xs[i]) {
        assert xs[i] in xs;
      }
    }
  }
  // ─── Collecting from heterogeneous arrays ──────────────────────────────────

  /**
   * `xs.forEach((x, i) => { if (…) out.push(…) })`: what `make` produces at each position, in
   * order, skipping the positions where it produces nothing.
   */
  function Collected<E, T>(xs: seq<E>, make: (nat, E) -> Option<T>): (r: seq<T>)
    ensures |r| <= |xs|
  {
    if xs == [] then []
    else
      var n := |xs| - 1;
      Collected(xs[..n], make) + match make(n, xs[n]) case Some(t) => [t] case None => []
  }

  /** The positions, increasing, at which `make` produces an element. */
  function ProducingPositions<E, T>(xs: seq<E>, make: (nat, E) -> Option<T>): (ps: seq<nat>)
    ensures |ps| <= |xs|
    ensures forall j :: 0 <= j < |ps| ==> ps[j] < |xs| && make(ps[j], xs[ps[j]]).Some?
    ensures forall j, k :: 0 <= j < k < |ps| ==> ps[j] < ps[k]
  {
    if xs == [] then []
    else
      var n := |xs| - 1;
      var rest := ProducingPositions(xs[..n], make);
      if make(n, xs[n]).Some? then rest + [n] else rest
  }

  /** The collected list is what `make` produces at the producing positions, in order. */
  lemma {:induction false} CollectedAtPositions<E, T>(xs: seq<E>, make: (nat, E) -> Option<T>)
    ensures var r, ps := Collected(xs, make), ProducingPositions(xs, make);
      |r| == |ps| && forall j :: 0 <= j < |r| ==> Some(r[j]) == make(ps[j], xs[ps[j]])
  {
    if xs != [] {
      var n := |xs| - 1;
      CollectedAtPositions(xs[..n], make);
      var r, ps := Collected(xs, make), ProducingPositions(xs, make);
      var r', ps' := Collected(xs[..n], make), ProducingPositions(xs[..n], make);
      if make(n, xs[n]).Some? {
        assert r == r' + [make(n, xs[n]).value] && ps == ps' + [n];
      } else {
        assert r == r' && ps == ps';
      }
      forall j | 0 <= j < |r| ensures Some(r[j]) == make(ps[j], xs[ps[j]]) {
        if j < |r'| {
          assert r[j] == r'[j] && ps[j] == ps'[j];
          assert xs[..n][ps'[j]] == xs[ps'[j]];
        }
      }
    }
  }

  /** Every collected element is produced from some position of the input. */
  lemma CollectedFrom<E, T>(xs: seq<E>, make: (nat, E) -> Option<T>, j: nat)
    requires j < |Collected(xs, make)|
    ensures exists i :: 0 <= i < |xs| && make(i, xs[i]) == Some(Collected(xs, make)[j])
  {
    CollectedAtPositions(xs, make);
    var ps := ProducingPositions(xs, make);
    assert make(ps[j], xs[ps[j]]) == Some(Collected(xs, make)[j]);
  }

  /** When every position produces, there is one element per input, in input order. */
  lemma {:induction false} CollectedEvery<E, T>(xs: seq<E>, make: (nat, E) -> Option<T>)
    requires forall i :: 0 <= i < |xs| ==> make(i, xs[i]).Some?
    ensures |Collected(xs, make)| == |xs|
    ensures forall i :: 0 <= i < |xs| ==> Some(Collected(xs, make)[i]) == make(i, xs[i])
  {
    if xs != [] {
      var n := |xs| - 1;
      assert forall i :: 0 <= i < n ==> xs[..n][i] == xs[i];
      CollectedEvery(xs[..n], make);
    }
  }

  /** `forEach` with a guarded `push`, appending to the list built so far. */
  method PushCollected<E, T>(acc: seq<T>, xs: seq<E>, make: (nat, E) -> Option<T>) returns (r: seq<T>)
    ensures r == acc + Collected(xs, make)
  {
    r := acc;
    var i := 0;
    while i < |xs|
      invariant 0 <= i <= |xs|
      invariant r == acc + Collected(xs[..i], make)
    {
      assert xs[..i + 1][..i] == xs[..i];
      var item := make(i, xs[i]);
      if item.Some? {
        r := r + [item.value];
      }
      i := i + 1;
    }
    assert xs[..i] == xs;
  }
}
