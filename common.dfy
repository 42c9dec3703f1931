/** Shared vocabulary of the lap and telemetry model: optional values, tyre
    compounds with pandas' missing value, and the small aggregates (sum, mean,
    minimum, maximum, distinct values) that every analyser uses. */
module Common {

  datatype Option<T> = None | Some(value: T)

  /** A lap time or any other duration, in seconds; timing data only ever
      holds positive durations. */
  type Seconds = x: real | x > 0.0 witness 1.0

  /** A tyre compound as the timing feed labels it ("SOFT", "MEDIUM", ...),
      or the missing value a lap row has when the compound is unknown. */
  datatype Compound = Tyre(name: string) | Missing

  /** Python's `a != b` on two compound cells: a missing value (NaN) is
      unequal to everything, itself included. */
  predicate Differs(a: Compound, b: Compound)
  {
    a.Missing? || b.Missing? || a != b
  }

  lemma DiffersSymmetric(a: Compound, b: Compound)
    ensures Differs(a, b) == Differs(b, a)
  {
  }

  /** The library statistics the analysers call (standard deviation,
      regression slope, quantiles, correlation) are taken as given: the
      model's properties never depend on their values. */
  type Statistic = seq<real> -> real

  /** A spread statistic such as the standard deviation: never negative. */
  type Deviation = f: Statistic | forall s :: f(s) >= 0.0 witness (s: seq<real>) => 0.0

  /** A statistic of paired samples (x, y): a regression slope, intercept
      or correlation coefficient. */
  type Regression = (seq<real>, seq<real>) -> real

  /** A centred rolling statistic of the given window over a series; each
      position is None where pandas yields NaN. */
  type Rolling = (seq<real>, nat) -> seq<Option<real>>

  /** Position `i` of a rolling series, None past its end. */
  function At(s: seq<Option<real>>, i: nat): Option<real>
  {
    if i < |s| then s[i] else None
  }

  /** The regression positions 0, 1, ..., n - 1. */
  function Positions(n: nat): (x: seq<real>)
    ensures |x| == n
  {
    seq(n, k requires 0 <= k < n => k as real)
  }

  function Sum(s: seq<real>): real
  {
    if s == [] then 0.0 else s[0] + Sum(s[1..])
  }

  lemma {:induction false} SumAppend(a: seq<real>, b: seq<real>)
    ensures Sum(a + b) == Sum(a) + Sum(b)
  {
    if a == [] {
      assert a + b == b;
    } else {
      assert (a + b)[1..] == a[1..] + b;
      SumAppend(a[1..], b);
    }
  }

  lemma {:induction false} SumBounds(s: seq<real>, lo: real, hi: real)
    requires forall i :: 0 <= i < |s| ==> lo <= s[i] <= hi
    ensures lo * |s| as real <= Sum(s) <= hi * |s| as real
  {
    if s != [] {
      SumBounds(s[1..], lo, hi);
    }
  }

  function Mean(s: seq<real>): real
    requires |s| > 0
  {
    Sum(s) / |s| as real
  }

  /** A mean lies between any bounds of its samples. */
  lemma {:induction false} MeanBounds(s: seq<real>, lo: real, hi: real)
    requires |s| > 0
    requires forall i :: 0 <= i < |s| ==> lo <= s[i] <= hi
    ensures lo <= Mean(s) <= hi
  {
    SumBounds(s, lo, hi);
  }

  /** The smallest element of a non-empty sequence. */
  function MinOf(s: seq<real>): (m: real)
    requires |s| > 0
    ensures m in s
    ensures forall i :: 0 <= i < |s| ==> m <= s[i]
  {
    if |s| == 1 then s[0]
    else
      var rest := MinOf(s[1..]);
      if s[0] <= rest then s[0] else rest
  }

  /** The largest element of a non-empty sequence. */
  function MaxOf(s: seq<real>): (m: real)
    requires |s| > 0
    ensures m in s
    ensures forall i :: 0 <= i < |s| ==> s[i] <= m
  {
    if |s| == 1 then s[0]
    else
      var rest := MaxOf(s[1..]);
      if s[0] >= rest then s[0] else rest
  }

  /** The minimum, the mean and the maximum of a sample are ordered. */
  lemma {:induction false} MinMeanMax(s: seq<real>)
    requires |s| > 0
    ensures MinOf(s) <= Mean(s) <= MaxOf(s)
  {
    MeanBounds(s, MinOf(s), MaxOf(s));
  }

  /** A sample of positive values has a positive mean. */
  lemma {:induction false} MeanPositive(s: seq<real>)
    requires |s| > 0
    requires forall i :: 0 <= i < |s| ==> s[i] > 0.0
    ensures Mean(s) > 0.0
  {
    MeanBounds(s, MinOf(s), MaxOf(s));
  }

  /** `a / b` for a positive divisor: the number that b times gives a. */
  function Quotient(a: real, b: real): (q: real)
    requires b > 0.0
    ensures q * b == a
    ensures q > 0.0 <==> a > 0.0
    ensures q == 0.0 <==> a == 0.0
    ensures q >= 0.0 <==> a >= 0.0
  {
    a / b
  }

  /** Number of elements of `s` that satisfy `p`. */
  function CountWhere<T>(s: seq<T>, p: T -> bool): (n: nat)
    ensures n <= |s|
  {
    if s == [] then 0 else (if p(s[0]) then 1 else 0) + CountWhere(s[1..], p)
  }

  lemma {:induction false} CountWhereAppend<T>(a: seq<T>, b: seq<T>, p: T -> bool)
    ensures CountWhere(a + b, p) == CountWhere(a, p) + CountWhere(b, p)
  {
    if a == [] {
      assert a + b == b;
    } else {
      assert (a + b)[1..] == a[1..] + b;
      CountWhereAppend(a[1..], b, p);
    }
  }

  /** The `filter` of `s` by `p`, in order. */
  function Filter<T>(s: seq<T>, p: T -> bool): (r: seq<T>)
    ensures |r| == CountWhere(s, p)
    ensures forall i :: 0 <= i < |r| ==> p(r[i]) && r[i] in s
  {
    if s == [] then [] else (if p(s[0]) then [s[0]] else []) + Filter(s[1..], p)
  }

  lemma {:induction false} FilterAppend<T>(a: seq<T>, b: seq<T>, p: T -> bool)
    ensures Filter(a + b, p) == Filter(a, p) + Filter(b, p)
  {
    if a == [] {
      assert a + b == b;
    } else {
      assert (a + b)[1..] == a[1..] + b;
      FilterAppend(a[1..], b, p);
    }
  }

  lemma {:induction false} FilterSnoc<T>(s: seq<T>, x: T, p: T -> bool)
    ensures Filter(s + [x], p) == Filter(s, p) + (if p(x) then [x] else [])
  {
    FilterAppend(s, [x], p);
    assert [x][1..] == [];
  }

  lemma {:induction false} FilterComplete<T>(s: seq<T>, p: T -> bool, x: T)
    ensures x in Filter(s, p) <==> x in s && p(x)
  {
    if s != [] {
      FilterComplete(s[1..], p, x);
      assert x in s <==> x == s[0] || x in s[1..];
    }
  }

  lemma {:induction false} FilterNoDuplicates<T>(s: seq<T>, p: T -> bool)
    requires NoDuplicates(s)
    ensures NoDuplicates(Filter(s, p))
  {
    if s != [] {
      FilterNoDuplicates(s[1..], p);
      FilterComplete(s[1..], p, s[0]);
      assert s[0] !in s[1..];
    }
  }

  /** The values `f` yields for `xs`, in order, leaving out those it yields
      None for: the per-driver loops that skip a driver and keep the rest. */
  function Collect<T, U>(xs: seq<T>, f: T -> Option<U>): (r: seq<U>)
    ensures |r| <= |xs|
  {
    if xs == [] then []
    else
      var last := f(xs[|xs| - 1]);
      Collect(xs[..|xs| - 1], f) + (if last.Some? then [last.value] else [])
  }

  lemma {:induction false} CollectStep<T, U>(xs: seq<T>, f: T -> Option<U>, i: nat)
    requires i < |xs|
    ensures Collect(xs[..i + 1], f) == Collect(xs[..i], f) + (if f(xs[i]).Some? then [f(xs[i]).value] else [])
  {
    assert xs[..i + 1][..i] == xs[..i];
  }

  /** A property every yielded value has holds of every collected value. */
  lemma {:induction false} CollectAll<T, U>(xs: seq<T>, f: T -> Option<U>, p: U -> bool)
    requires forall x :: f(x).Some? ==> p(f(x).value)
    ensures forall k :: 0 <= k < |Collect(xs, f)| ==> p(Collect(xs, f)[k])
  {
    if xs != [] {
      CollectAll(xs[..|xs| - 1], f, p);
    }
  }

  /** A value is collected for every input that yields one, and only for those. */
  lemma {:induction false} CollectExactly<T, U>(xs: seq<T>, f: T -> Option<U>, x: T)
    ensures f(x).Some? && x in xs ==> f(x).value in Collect(xs, f)
    ensures forall k :: 0 <= k < |Collect(xs, f)| ==> exists j :: 0 <= j < |xs| && f(xs[j]) == Some(Collect(xs, f)[k])
  {
    if xs != [] {
      var init := xs[..|xs| - 1];
      CollectExactly(init, f, x);
      MemberSplit(xs, x);
      var prev := Collect(init, f);
      var r := Collect(xs, f);
      assert r == prev + (if f(xs[|xs| - 1]).Some? then [f(xs[|xs| - 1]).value] else []);
      if f(x).Some? && x in xs && x !in init {
        assert r[|prev|] == f(x).value;
      }
      forall k | 0 <= k < |r|
        ensures exists j :: 0 <= j < |xs| && f(xs[j]) == Some(r[k])
      {
        if k < |prev| {
          assert r[k] == prev[k];
          var j :| 0 <= j < |init| && f(init[j]) == Some(prev[k]);
          assert xs[j] == init[j];
          assert 0 <= j < |xs| && f(xs[j]) == Some(r[k]);
        } else {
          var j := |xs| - 1;
          assert 0 <= j < |xs| && f(xs[j]) == Some(r[k]);
        }
      }
      assert forall k :: 0 <= k < |r| ==> exists j :: 0 <= j < |xs| && f(xs[j]) == Some(r[k]);
    } else {
      assert Collect(xs, f) == [];
    }
  }

  /** Collected values keep the order of the inputs they came from. */
  lemma {:induction false} CollectOrdered<T, U>(xs: seq<T>, f: T -> Option<U>, k1: nat, k2: nat)
    requires k1 < k2 < |Collect(xs, f)|
    ensures exists j1, j2 :: 0 <= j1 < j2 < |xs| && f(xs[j1]) == Some(Collect(xs, f)[k1]) && f(xs[j2]) == Some(Collect(xs, f)[k2])
  {
    var init := xs[..|xs| - 1];
    var prev := Collect(init, f);
    var r := Collect(xs, f);
    assert r == prev + (if f(xs[|xs| - 1]).Some? then [f(xs[|xs| - 1]).value] else []);
    assert r[k1] == prev[k1];
    if k2 < |prev| {
      CollectOrdered(init, f, k1, k2);
      var j1, j2 :| 0 <= j1 < j2 < |init| && f(init[j1]) == Some(prev[k1]) && f(init[j2]) == Some(prev[k2]);
      assert xs[j1] == init[j1] && xs[j2] == init[j2];
      assert r[k2] == prev[k2];
    } else {
      CollectExactly(init, f, xs[0]);
      var j1 :| 0 <= j1 < |init| && f(init[j1]) == Some(prev[k1]);
      assert xs[j1] == init[j1];
      var j2 := |xs| - 1;
      assert 0 <= j1 < j2 < |xs| && f(xs[j1]) == Some(r[k1]) && f(xs[j2]) == Some(r[k2]);
    }
  }

  /** A property holds of every element of a non-empty sequence exactly
      when it holds of every element of its front and of its last one. */
  lemma {:induction false} AllSplit<T>(s: seq<T>, init: seq<T>, p: T -> bool)
    requires s != [] && init == s[..|s| - 1]
    ensures (forall k :: 0 <= k < |s| ==> p(s[k])) <==>
      (forall k :: 0 <= k < |init| ==> p(init[k])) && p(s[|s| - 1])
  {
    assert forall k :: 0 <= k < |init| ==> init[k] == s[k];
  }

  /** Membership in a non-empty sequence splits into its front and its last element. */
  lemma {:induction false} MemberSplit<T>(s: seq<T>, x: T)
    requires s != []
    ensures x in s <==> x in s[..|s| - 1] || x == s[|s| - 1]
  {
    assert s == s[..|s| - 1] + [s[|s| - 1]];
  }

  predicate NoDuplicates<T(==)>(s: seq<T>)
  {
    forall i, j :: 0 <= i < j < |s| ==> s[i] != s[j]
  }

  /** pandas' `unique()`: the distinct values of `s` in order of first
      appearance. */
  function Unique<T(==,!new)>(s: seq<T>): (r: seq<T>)
    ensures NoDuplicates(r)
    ensures forall x :: x in r <==> x in s
    ensures |r| <= |s|
  {
    if s == [] then []
    else
      var prefix := Unique(s[..|s| - 1]);
      var last := s[|s| - 1];
      assert forall x :: x in s <==> x in s[..|s| - 1] || x == last;
      if last in prefix then prefix else prefix + [last]
  }

  /** Appending a value to the input appends it to the distinct values
      unless it is already among them. */
  lemma {:induction false} UniqueSnoc<T(!new)>(s: seq<T>, x: T)
    ensures Unique(s + [x]) == if x in Unique(s) then Unique(s) else Unique(s) + [x]
  {
    assert (s + [x])[..|s + [x]| - 1] == s;
  }

  lemma {:induction false} DistinctCardinality<T>(r: seq<T>)
    requires NoDuplicates(r)
    ensures |set x | x in r| == |r|
  {
    if r != [] {
      var init := r[..|r| - 1];
      assert NoDuplicates(init);
      DistinctCardinality(init);
      var last := r[|r| - 1];
      assert (set x | x in r) == (set x | x in init) + {last};
      assert last !in init;
    }
  }

  /** The number of distinct values is the size of the set of values. */
  lemma {:induction false} UniqueCount<T(!new)>(s: seq<T>)
    ensures |Unique(s)| == |set x | x in s|
  {
    var r := Unique(s);
    DistinctCardinality(r);
    assert (set x | x in r) == (set x | x in s);
  }

  /** `count / total * 100` as a real. */
  function Percentage(count: nat, total: nat): (p: real)
    requires total > 0
    ensures 0.0 <= p
    ensures count <= total ==> p <= 100.0
    ensures count == 0 <==> p == 0.0
  {
    var q := count as real / total as real;
    assert q * total as real == count as real;
    assert count <= total ==> q <= 1.0 by {
      if q > 1.0 {
        assert q * total as real > total as real;
      }
    }
    q * 100.0
  }
}
