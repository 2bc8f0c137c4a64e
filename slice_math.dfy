/** Specification of the value aggregation done by the pie chart: the raw
    values pulled from the data source, their running total, each slice's
    proportion of that total, and each proportion as a sweep in radians.
    Arithmetic is over exact reals in place of double / CGFloat. */
module SliceMath {

  /** M_PI as the platform's math header defines it. */
  const Pi: real := 3.14159265358979323846264338327950288

  /** A full circle in radians, computed as the class does (M_PI * 2.0). */
  const TwoPi: real := Pi * 2.0

  /** The first `n` values the fetch block yields, in index order. */
  function Fetched(fetch: nat -> real, n: nat): (s: seq<real>)
    ensures |s| == n
    ensures forall i :: 0 <= i < n ==> s[i] == fetch(i)
  {
    if n == 0 then [] else Fetched(fetch, n - 1) + [fetch(n - 1)]
  }

  /** Left-to-right running total starting from 0, the order in which the
      class accumulates its sum. With nothing to add it stays at 0;
      TotalExtend gives each further step. */
  function Total(s: seq<real>): (r: real)
    ensures s == [] ==> r == 0.0
  {
    if s == [] then 0.0 else Total(s[..|s| - 1]) + s[|s| - 1]
  }

  /** Adding one more value to the running total. */
  lemma TotalExtend(s: seq<real>, x: real)
    ensures Total(s + [x]) == Total(s) + x
  {
    assert (s + [x])[..|s|] == s;
  }

  /** Each value divided by `sum`; no division happens for an empty sequence.
      Against a positive sum, a proportion is non-negative exactly when its
      value is and positive exactly when its value is. */
  function Proportions(s: seq<real>, sum: real): (p: seq<real>)
    requires sum != 0.0 || s == []
    ensures |p| == |s|
    ensures sum > 0.0 ==> forall i :: 0 <= i < |s| ==>
      (0.0 <= p[i] <==> 0.0 <= s[i]) && (0.0 < p[i] <==> 0.0 < s[i])
  {
    seq(|s|, i requires 0 <= i < |s| => s[i] / sum)
  }

  /** Each proportion scaled to radians of a full circle. Every sweep,
      divided by 2 pi, gives its proportion back. */
  function Sweeps(p: seq<real>): (a: seq<real>)
    ensures |a| == |p|
    ensures forall i :: 0 <= i < |p| ==> a[i] / TwoPi == p[i]
  {
    seq(|p|, i requires 0 <= i < |p| => TwoPi * p[i])
  }

  ghost predicate NonNegative(s: seq<real>)
  {
    forall i :: 0 <= i < |s| ==> 0.0 <= s[i]
  }

  /** Dividing every value by the same divisor divides the total by it. */
  lemma {:induction false} TotalOfProportions(s: seq<real>, sum: real)
    requires sum != 0.0
    ensures Total(Proportions(s, sum)) == Total(s) / sum
    decreases |s|
  {
    if s != [] {
      var n := |s| - 1;
      var p := Proportions(s, sum);
      assert p[..n] == Proportions(s[..n], sum);
      TotalOfProportions(s[..n], sum);
      assert Total(p) == Total(s[..n]) / sum + s[n] / sum;
      DivideSum(Total(s[..n]), s[n], sum);
    }
  }

  /** Scaling every proportion by 2 pi scales the total by 2 pi. */
  lemma {:induction false} TotalOfSweeps(p: seq<real>)
    ensures Total(Sweeps(p)) == TwoPi * Total(p)
    decreases |p|
  {
    if p != [] {
      var n := |p| - 1;
      assert Sweeps(p)[..n] == Sweeps(p[..n]);
      TotalOfSweeps(p[..n]);
    }
  }

  /** With a nonzero total, the proportions of all slices add up to one. */
  lemma ProportionsTotalOne(s: seq<real>)
    requires Total(s) != 0.0
    ensures Total(Proportions(s, Total(s))) == 1.0
  {
    TotalOfProportions(s, Total(s));
    DivideSelf(Total(s));
  }

  /** With a nonzero total, the sweeps of all slices add up to a full circle. */
  lemma SweepsTotalFullCircle(s: seq<real>)
    requires Total(s) != 0.0
    ensures Total(Sweeps(Proportions(s, Total(s)))) == TwoPi
  {
    ProportionsTotalOne(s);
    TotalOfSweeps(Proportions(s, Total(s)));
  }

  /** A total that starts at 0 and adds only non-negative values is
      non-negative. */
  lemma {:induction false} TotalNonNegative(s: seq<real>)
    requires NonNegative(s)
    ensures 0.0 <= Total(s)
    decreases |s|
  {
    if s != [] {
      TotalNonNegative(s[..|s| - 1]);
    }
  }

  /** No non-negative value exceeds the total it is part of. */
  lemma {:induction false} ValueAtMostTotal(s: seq<real>, i: nat)
    requires NonNegative(s) && i < |s|
    ensures s[i] <= Total(s)
    decreases |s|
  {
    var n := |s| - 1;
    if i == n {
      TotalNonNegative(s[..n]);
    } else {
      ValueAtMostTotal(s[..n], i);
    }
  }

  /** For non-negative values that do not all vanish, every slice takes
      between none and all of the pie, and between 0 and 2 pi radians. */
  lemma SliceWithinCircle(s: seq<real>, i: nat)
    requires NonNegative(s) && Total(s) != 0.0 && i < |s|
    ensures 0.0 <= Proportions(s, Total(s))[i] <= 1.0
    ensures 0.0 <= Sweeps(Proportions(s, Total(s)))[i] <= TwoPi
  {
    TotalNonNegative(s);
    ValueAtMostTotal(s, i);
    ShareWithinCircle(s, Total(s), i);
  }

  /** The bound of SliceWithinCircle for an arbitrary nonzero divisor: stated
      apart so that the division is reasoned about without the recursive
      definition of Total in scope. */
  lemma ShareWithinCircle(s: seq<real>, sum: real, i: nat)
    requires i < |s| && 0.0 <= s[i] <= sum && sum != 0.0
    ensures 0.0 <= Proportions(s, sum)[i] <= 1.0
    ensures 0.0 <= Sweeps(Proportions(s, sum))[i] <= TwoPi
  {
  }

  /** With a positive total, a larger value gets a larger proportion and a
      larger sweep, and conversely. */
  lemma LargerValueLargerSlice(s: seq<real>, i: nat, j: nat)
    requires Total(s) > 0.0 && i < |s| && j < |s|
    ensures s[i] < s[j] <==> Proportions(s, Total(s))[i] < Proportions(s, Total(s))[j]
    ensures s[i] < s[j] <==> Sweeps(Proportions(s, Total(s)))[i] < Sweeps(Proportions(s, Total(s)))[j]
  {
    ShareOrder(s, Total(s), i, j);
  }

  /** The ordering of LargerValueLargerSlice for an arbitrary positive divisor:
      stated apart so that the division is reasoned about without the
      recursive definition of Total in scope. */
  lemma ShareOrder(s: seq<real>, sum: real, i: nat, j: nat)
    requires sum > 0.0 && i < |s| && j < |s|
    ensures s[i] < s[j] <==> Proportions(s, sum)[i] < Proportions(s, sum)[j]
    ensures s[i] < s[j] <==> Sweeps(Proportions(s, sum))[i] < Sweeps(Proportions(s, sum))[j]
  {
    var p := Proportions(s, sum);
    assert p[i] == s[i] / sum && p[j] == s[j] / sum;
    DivideMonotone(s[i], s[j], sum);
    assert Sweeps(p)[i] == TwoPi * p[i] && Sweeps(p)[j] == TwoPi * p[j];
  }

  /** x / x == 1, stated apart so that ProportionsTotalOne reasons about the
      division without the recursive definition of Total in scope. */
  lemma DivideSelf(t: real)
    requires t != 0.0
    ensures t / t == 1.0
  {
  }

  /** Adding two quotients by the same divisor; kept apart from the
      recursive definitions so that the solver sees only the arithmetic. */
  lemma DivideSum(a: real, b: real, d: real)
    requires d != 0.0
    ensures a / d + b / d == (a + b) / d
  {
  }

  /** Division by a positive number keeps strict order, both ways; kept apart
      from the recursive definitions so that the solver sees only the
      arithmetic. */
  lemma DivideMonotone(a: real, b: real, t: real)
    requires t > 0.0
    ensures a < b <==> a / t < b / t
  {
    assert a / t * t == a && b / t * t == b;
    if a / t < b / t {
      assert a / t * t < b / t * t;
    }
  }

  /** Two equal slices: half the pie and pi radians each. */
  lemma TwoEqualSlices()
    ensures Total([1.0, 1.0]) == 2.0
    ensures Proportions([1.0, 1.0], 2.0) == [0.5, 0.5]
    ensures Sweeps([0.5, 0.5]) == [Pi, Pi]
  {
  }

  /** Four equal slices: a quarter of the pie and pi / 2 radians each. */
  lemma FourEqualSlices()
    ensures Total([1.0, 1.0, 1.0, 1.0]) == 4.0
    ensures Proportions([1.0, 1.0, 1.0, 1.0], 4.0) == [0.25, 0.25, 0.25, 0.25]
    ensures Sweeps([0.25, 0.25, 0.25, 0.25]) == [Pi / 2.0, Pi / 2.0, Pi / 2.0, Pi / 2.0]
  {
    var s := [1.0, 1.0, 1.0, 1.0];
    assert s[..3] == [1.0, 1.0, 1.0];
    assert [1.0, 1.0, 1.0][..2] == [1.0, 1.0];
    assert [1.0, 1.0][..1] == [1.0];
    assert [1.0][..0] == [];
    assert Total([1.0]) == 1.0;
    assert Total([1.0, 1.0]) == 2.0;
    assert Total([1.0, 1.0, 1.0]) == 3.0;
  }

  /** Slices of 10, 20 and 70: tenths 1, 2 and 7 of the pie. */
  lemma UnequalSlices()
    ensures Total([10.0, 20.0, 70.0]) == 100.0
    ensures Proportions([10.0, 20.0, 70.0], 100.0) == [0.1, 0.2, 0.7]
    ensures Sweeps([0.1, 0.2, 0.7]) == [0.2 * Pi, 0.4 * Pi, 1.4 * Pi]
  {
    var s := [10.0, 20.0, 70.0];
    assert s[..2] == [10.0, 20.0];
    assert [10.0, 20.0][..1] == [10.0];
    assert [10.0][..0] == [];
    assert Total([10.0]) == 10.0;
    assert Total([10.0, 20.0]) == 30.0;
  }

  /** Slices of -1 and -3: against their negative total every sign flips,
      so both percentages and both angles are positive. */
  lemma NegativeSlices()
    ensures Total([-1.0, -3.0]) == -4.0
    ensures Proportions([-1.0, -3.0], -4.0) == [0.25, 0.75]
    ensures Sweeps([0.25, 0.75]) == [0.5 * Pi, 1.5 * Pi]
  {
    assert [-1.0, -3.0][..1] == [-1.0];
    assert [-1.0][..0] == [];
    assert Total([-1.0]) == -1.0;
  }
}
