/** Types and small facts every other module of the model shares. */
module Common {

  datatype Option<+T> = None | Some(value: T)

  /** Time is an integer number of ticks; `Instant` and `Duration` name the two uses. */
  type Instant = int
  type Duration = int

  /** How long a claimed calibration job is held before another replica may take it, in minutes. */
  const LEASE_MINUTES: int := 30

  /** The elements of `s` that satisfy `p`, in order. */
  function Filter<T(!new)>(s: seq<T>, p: T -> bool): (r: seq<T>)
    ensures |r| <= |s|
    ensures forall x :: x in r <==> x in s && p(x)
  {
    if s == [] then []
    else (if p(s[0]) then [s[0]] else []) + Filter(s[1..], p)
  }

  lemma {:induction false} FilterConcat<T(!new)>(a: seq<T>, b: seq<T>, p: T -> bool)
    ensures Filter(a + b, p) == Filter(a, p) + Filter(b, p)
  {
    if a == [] {
      assert a + b == b;
    } else {
      assert (a + b)[1..] == a[1..] + b;
      FilterConcat(a[1..], b, p);
    }
  }

  /** Predicates that agree keep the same elements. */
  lemma {:induction false} FilterSame<T(!new)>(s: seq<T>, p: T -> bool, q: T -> bool)
    requires forall x :: x in s ==> p(x) == q(x)
    ensures Filter(s, p) == Filter(s, q)
  {
    if s != [] {
      assert s[0] in s;
      FilterSame(s[1..], p, q);
    }
  }

  /** Filtering keeps an element as often as it occurs, or not at all. */
  lemma {:induction false} FilterOccurs<T(!new)>(s: seq<T>, p: T -> bool, x: T)
    ensures multiset(Filter(s, p))[x] == if p(x) then multiset(s)[x] else 0
  {
    if s != [] {
      FilterOccurs(s[1..], p, x);
      assert s == [s[0]] + s[1..];
    }
  }

  /** The sum of `f` over a sequence. */
  function Sum<T>(s: seq<T>, f: T -> int): (n: int)
  {
    if s == [] then 0 else f(s[0]) + Sum(s[1..], f)
  }

  lemma {:induction false} SumConcat<T>(a: seq<T>, b: seq<T>, f: T -> int)
    ensures Sum(a + b, f) == Sum(a, f) + Sum(b, f)
  {
    if a == [] {
      assert a + b == b;
    } else {
      assert (a + b)[1..] == a[1..] + b;
      SumConcat(a[1..], b, f);
    }
  }

  /** Appending one element adds its value: the step of every accumulating loop. */
  lemma SumSnoc<T>(s: seq<T>, k: nat, f: T -> int)
    requires k < |s|
    ensures Sum(s[..k + 1], f) == Sum(s[..k], f) + f(s[k])
  {
    assert s[..k + 1] == s[..k] + [s[k]];
    SumConcat(s[..k], [s[k]], f);
    assert Sum([s[k]], f) == f(s[k]);
  }

  /** Appending one element filters just that element. */
  lemma FilterSnoc<T(!new)>(s: seq<T>, k: nat, p: T -> bool)
    requires k < |s|
    ensures Filter(s[..k + 1], p) == Filter(s[..k], p) + (if p(s[k]) then [s[k]] else [])
  {
    assert s[..k + 1] == s[..k] + [s[k]];
    FilterConcat(s[..k], [s[k]], p);
  }

  /** A sum does not depend on the order of its terms. */
  lemma {:induction false} SumPermutation<T>(a: seq<T>, b: seq<T>, f: T -> int)
    requires multiset(a) == multiset(b)
    ensures Sum(a, f) == Sum(b, f)
  {
    if a == [] {
      assert |b| == |multiset(b)| == 0;
    } else {
      assert a[0] in multiset(b);
      var i :| 0 <= i < |b| && b[i] == a[0];
      RemoveAt(b, i, f);
      RemoveOne(b, i);
      assert a == [a[0]] + a[1..];
      assert multiset(a[1..]) == multiset(a) - multiset{a[0]};
      SumPermutation(a[1..], b[..i] + b[i + 1..], f);
    }
  }

  lemma SplitAt<T>(b: seq<T>, i: nat)
    requires i < |b|
    ensures b == b[..i] + ([b[i]] + b[i + 1..])
  {
  }

  lemma SumCons<T>(x: T, s: seq<T>, f: T -> int)
    ensures Sum([x] + s, f) == f(x) + Sum(s, f)
  {
    assert ([x] + s)[1..] == s;
  }

  /** Taking one element out takes its value out of the sum. */
  lemma RemoveAt<T>(b: seq<T>, i: nat, f: T -> int)
    requires i < |b|
    ensures Sum(b[..i] + b[i + 1..], f) == Sum(b, f) - f(b[i])
  {
    SplitAt(b, i);
    SumConcat(b[..i], [b[i]] + b[i + 1..], f);
    SumConcat(b[..i], b[i + 1..], f);
    SumCons(b[i], b[i + 1..], f);
  }

  lemma RemoveOne<T>(b: seq<T>, i: nat)
    requires i < |b|
    ensures multiset(b[..i] + b[i + 1..]) == multiset(b) - multiset{b[i]}
  {
    SplitAt(b, i);
    assert multiset(b) == multiset(b[..i]) + (multiset{b[i]} + multiset(b[i + 1..]));
  }

  // ------------------------------------------------------------------
  // Sorting ids.

  ghost predicate Ascending(xs: seq<int>)
  {
    forall i, j :: 0 <= i < j < |xs| ==> xs[i] < xs[j]
  }

  function Insert(xs: seq<int>, x: int): (r: seq<int>)
    ensures forall y :: y in r <==> y in xs || y == x
  {
    if xs == [] || x < xs[0] then [x] + xs else [xs[0]] + Insert(xs[1..], x)
  }

  lemma {:induction false} InsertKeeps(xs: seq<int>, x: int)
    requires Ascending(xs) && x !in xs
    ensures Ascending(Insert(xs, x))
  {
    if xs != [] && xs[0] < x {
      var rest := Insert(xs[1..], x);
      InsertKeeps(xs[1..], x);
      forall k | 0 <= k < |rest| ensures xs[0] < rest[k] {
        assert rest[k] in rest;
      }
    }
  }

  /** Ascending order of ids that are all different. */
  method Sort(xs: seq<int>) returns (out: seq<int>)
    requires forall i, j :: 0 <= i < j < |xs| ==> xs[i] != xs[j]
    ensures Ascending(out) && forall x :: x in out <==> x in xs
  {
    out := [];
    for i := 0 to |xs|
      invariant Ascending(out) && forall x :: x in out <==> x in xs[..i]
    {
      InsertKeeps(out, xs[i]);
      out := Insert(out, xs[i]);
    }
    assert xs[..|xs|] == xs;
  }

  // ------------------------------------------------------------------
  // Latches.

  /** Set at `i`, and not reset since. */
  ghost predicate LatchedAt(begins: seq<bool>, ends: seq<bool>, i: nat)
    requires |begins| == |ends|
  {
    i < |begins| && begins[i] && forall j :: i < j < |ends| ==> !ends[j]
  }

  /** What starts off, is set by some steps and reset by others is on at the end exactly when some step set it and none since reset it. */
  lemma {:induction false} LatchIff(on: seq<bool>, begins: seq<bool>, ends: seq<bool>)
    requires |on| == |begins| + 1 == |ends| + 1 && !on[0]
    requires forall i :: 0 <= i < |begins| ==> (on[i + 1] <==> begins[i] || (on[i] && !ends[i]))
    ensures on[|begins|] <==> exists i: nat :: LatchedAt(begins, ends, i)
    decreases |on|
  {
    if begins != [] {
      var n := |begins| - 1;
      LatchIff(on[..n + 1], begins[..n], ends[..n]);
      forall i: nat | i < n ensures LatchedAt(begins, ends, i) <==> LatchedAt(begins[..n], ends[..n], i) && !ends[n] {
        assert forall j :: 0 <= j < n ==> ends[..n][j] == ends[j];
      }
      assert LatchedAt(begins, ends, n) <==> begins[n];
    }
  }
}
