/** The array operations the handlers and reducers are built from:
    `findIndex`, `filter`, `splice(i, 1)` and `map`. */
module Lists {

  /** `xs.findIndex(p)`: the first index whose element satisfies `p`, or -1. */
  function FindIndex<T>(xs: seq<T>, p: T -> bool): (r: int)
    ensures -1 <= r < |xs|
    ensures r == -1 <==> forall i :: 0 <= i < |xs| ==> !p(xs[i])
    ensures 0 <= r ==> p(xs[r]) && forall i :: 0 <= i < r ==> !p(xs[i])
  {
    if xs == [] then -1
    else if p(xs[0]) then 0
    else
      var k := FindIndex(xs[1..], p);
      assert forall i :: 1 <= i < |xs| ==> xs[i] == xs[1..][i - 1];
      if k == -1 then -1 else k + 1
  }

  /** The test that holds where `p` does not. */
  function Not<T>(p: T -> bool): T -> bool {
    x => !p(x)
  }

  /** An element appended after a prefix with no match is found at the end. */
  lemma {:induction false} FindIndexAppend<T>(xs: seq<T>, x: T, p: T -> bool)
    requires FindIndex(xs, p) == -1 && p(x)
    ensures FindIndex(xs + [x], p) == |xs|
  {
    if xs != [] {
      assert (xs + [x])[1..] == xs[1..] + [x];
      FindIndexAppend(xs[1..], x, p);
    }
  }

  /** `xs.filter(keep)`: the elements that satisfy `keep`, in their order. */
  function Filter<T>(xs: seq<T>, keep: T -> bool): (r: seq<T>)
    ensures |r| <= |xs|
    ensures forall x :: x in r ==> x in xs && keep(x)
    ensures forall i :: 0 <= i < |xs| && keep(xs[i]) ==> xs[i] in r
  {
    if xs == [] then []
    else
      var rest := Filter(xs[1..], keep);
      assert forall i :: 1 <= i < |xs| ==> xs[i] == xs[1..][i - 1];
      if keep(xs[0]) then [xs[0]] + rest else rest
  }

  /** Filtering distributes over concatenation: the survivors of a prefix all
      come before the survivors of the rest, so the relative order is kept. */
  lemma {:induction false} FilterAppend<T>(a: seq<T>, b: seq<T>, keep: T -> bool)
    ensures Filter(a + b, keep) == Filter(a, keep) + Filter(b, keep)
  {
    if a == [] {
      assert a + b == b;
    } else {
      assert (a + b)[1..] == a[1..] + b;
      FilterAppend(a[1..], b, keep);
    }
  }

  /** Each value occurs in the result exactly as often as in the input if it
      is kept, and not at all otherwise. */
  lemma {:induction false} FilterCounts<T>(xs: seq<T>, keep: T -> bool, x: T)
    ensures multiset(Filter(xs, keep))[x] == if keep(x) then multiset(xs)[x] else 0
  {
    if xs != [] {
      FilterCounts(xs[1..], keep, x);
      assert xs == [xs[0]] + xs[1..];
      assert multiset(xs) == multiset{xs[0]} + multiset(xs[1..]);
    }
  }

  /** The result is shorter than the input exactly when some element is dropped. */
  lemma {:induction false} FilterShrinks<T>(xs: seq<T>, keep: T -> bool)
    ensures |Filter(xs, keep)| < |xs| <==> exists i :: 0 <= i < |xs| && !keep(xs[i])
  {
    if xs != [] {
      FilterShrinks(xs[1..], keep);
      if keep(xs[0]) {
        assert forall i :: 1 <= i < |xs| ==> xs[i] == xs[1..][i - 1];
        if exists i :: 0 <= i < |xs| && !keep(xs[i]) {
          var i :| 0 <= i < |xs| && !keep(xs[i]);
          assert !keep(xs[1..][i - 1]);
        }
      }
    }
  }

  /** When nothing is dropped, the result is the input itself. */
  lemma {:induction false} FilterKeepsAll<T>(xs: seq<T>, keep: T -> bool)
    requires forall i :: 0 <= i < |xs| ==> keep(xs[i])
    ensures Filter(xs, keep) == xs
  {
    if xs != [] {
      assert forall i :: 1 <= i < |xs| ==> xs[i] == xs[1..][i - 1];
      FilterKeepsAll(xs[1..], keep);
    }
  }

  /** Filtering twice by the same test is filtering once. */
  lemma FilterIdempotent<T>(xs: seq<T>, keep: T -> bool)
    ensures Filter(Filter(xs, keep), keep) == Filter(xs, keep)
  {
    var r := Filter(xs, keep);
    assert forall i :: 0 <= i < |r| ==> r[i] in r;
    FilterKeepsAll(r, keep);
  }

  /** `xs.splice(i, 1)`: the element at `i` is taken out, the others keep their order. */
  function RemoveAt<T>(xs: seq<T>, i: nat): (r: seq<T>)
    requires i < |xs|
    ensures |r| == |xs| - 1
    ensures forall j :: 0 <= j < i ==> r[j] == xs[j]
    ensures forall j :: i <= j < |r| ==> r[j] == xs[j + 1]
  {
    xs[..i] + xs[i + 1..]
  }

  /** Filtering out the one dropped element between two kept runs leaves
      the two runs joined. */
  lemma {:induction false} FilterDropsOne<T>(before: seq<T>, x: T, after: seq<T>, keep: T -> bool)
    requires forall j :: 0 <= j < |before| ==> keep(before[j])
    requires forall j :: 0 <= j < |after| ==> keep(after[j])
    requires !keep(x)
    ensures Filter(before + [x] + after, keep) == before + after
  {
    FilterKeepsAll(before, keep);
    FilterKeepsAll(after, keep);
    assert Filter([x], keep) == [];
    FilterAppend(before, [x], keep);
    assert Filter(before + [x], keep) == before;
    FilterAppend(before + [x], after, keep);
  }

  /** `xs.splice(i, 1)` for any index: the element at `i` goes when there is
      one; an index past the end removes nothing. */
  function Splice<T>(xs: seq<T>, i: nat): (r: seq<T>)
    ensures |r| == if i < |xs| then |xs| - 1 else |xs|
    ensures forall j :: 0 <= j < |r| ==> r[j] == xs[if j < i then j else j + 1]
  {
    if i < |xs| then RemoveAt(xs, i) else xs
  }

  /** Taking the element at `i` out removes one occurrence of it and nothing else. */
  lemma RemoveAtCounts<T>(xs: seq<T>, i: nat)
    requires i < |xs|
    ensures multiset(RemoveAt(xs, i)) + multiset{xs[i]} == multiset(xs)
  {
    assert xs == xs[..i] + [xs[i]] + xs[i + 1..];
  }

  /** Removing a match is the same as filtering out every match when it is
      the only one (then it is also the first, the one `findIndex` gives). */
  lemma {:induction false} RemoveOnlyMatch<T>(xs: seq<T>, p: T -> bool, i: nat)
    requires i < |xs| && p(xs[i])
    requires forall j :: 0 <= j < |xs| && j != i ==> !p(xs[j])
    ensures RemoveAt(xs, i) == Filter(xs, Not(p))
  {
    var keep := Not(p);
    var before, after := xs[..i], xs[i + 1..];
    assert xs == before + [xs[i]] + after;
    forall j | 0 <= j < |before| ensures keep(before[j]) {
      assert before[j] == xs[j];
    }
    forall j | 0 <= j < |after| ensures keep(after[j]) {
      assert after[j] == xs[i + 1 + j];
    }
    FilterDropsOne(before, xs[i], after, keep);
  }

  /** `xs.map(f)`: the same length, `f` applied at every position. */
  function Map<T, U>(xs: seq<T>, f: T -> U): (r: seq<U>)
    ensures |r| == |xs|
    ensures forall i :: 0 <= i < |xs| ==> r[i] == f(xs[i])
  {
    seq(|xs|, i requires 0 <= i < |xs| => f(xs[i]))
  }
}
