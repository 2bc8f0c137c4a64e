/** The class that collects the slice values from the chart's data source
    and derives each slice's percentage and angle. */
module PieChart {
  import opened SliceMath

  /** One observable step of the construction: a call of the fetch block for
      an index, or the division that turns that index's value into a
      percentage (with the divisor it used). */
  datatype Step = Fetch(index: nat) | Divide(index: nat, divisor: real)

  /** The first pass: the fetch block is called for 0, 1, ..., n - 1. That is
      n calls, each for an index below n, in strictly increasing index order,
      so every index is fetched exactly once. */
  function FetchPass(n: nat): (t: seq<Step>)
    ensures |t| == n
    ensures forall k :: 0 <= k < |t| ==> t[k].Fetch? && t[k].index < n
    ensures forall k, l :: 0 <= k < l < |t| ==> t[k].index < t[l].index
  {
    seq(n, i requires 0 <= i => Fetch(i))
  }

  /** The second pass: indices 0, 1, ..., n - 1 are divided by `sum`. That is
      n divisions, all by `sum`, each for an index below n, in strictly
      increasing index order, so every index is divided exactly once. */
  function DividePass(n: nat, sum: real): (t: seq<Step>)
    ensures |t| == n
    ensures forall k :: 0 <= k < |t| ==> t[k].Divide? && t[k].index < n && t[k].divisor == sum
    ensures forall k, l :: 0 <= k < l < |t| ==> t[k].index < t[l].index
  {
    seq(n, i requires 0 <= i => Divide(i, sum))
  }

  /** Every step the constructor takes, in the order it takes them: no call
      of the fetch block ever follows a division. */
  function Schedule(n: nat, sum: real): (t: seq<Step>)
    ensures |t| == 2 * n
    ensures forall k, l :: 0 <= k < l < |t| && t[k].Divide? ==> t[l].Divide?
  {
    FetchPass(n) + DividePass(n, sum)
  }

  /** The schedule calls the fetch block exactly once per index, in increasing
      index order, finishes every call before the first division, and divides
      every index by the same, completed, sum; with no slices it does nothing. */
  lemma ScheduleOrder(n: nat, sum: real)
    ensures |Schedule(n, sum)| == 2 * n
    ensures n == 0 ==> Schedule(n, sum) == []
    ensures forall p :: 0 <= p < n ==> Schedule(n, sum)[p] == Fetch(p)
    ensures forall p, q ::
      (0 <= p < |Schedule(n, sum)| && 0 <= q < |Schedule(n, sum)| &&
       Schedule(n, sum)[p].Fetch? && Schedule(n, sum)[q].Divide?) ==> p < q
    ensures forall q :: 0 <= q < |Schedule(n, sum)| && Schedule(n, sum)[q].Divide? ==>
      Schedule(n, sum)[q] == Divide(q - n, sum)
    ensures forall q :: n <= q < 2 * n ==> Schedule(n, sum)[q] == Divide(q - n, sum)
  {
  }

  /** Values divided one by one by `sum` are the proportions of those values. */
  lemma SharesAreProportions(v: seq<real>, p: seq<real>, sum: real)
    requires |p| == |v| && (v == [] || sum != 0.0)
    requires forall i :: 0 <= i < |v| ==> p[i] == v[i] / sum
    ensures p == Proportions(v, sum)
  {
  }

  /** Percentages scaled one by one by 2 pi are the sweeps of those percentages. */
  lemma AnglesAreSweeps(p: seq<real>, a: seq<real>)
    requires |a| == |p|
    requires forall i :: 0 <= i < |p| ==> a[i] == TwoPi * p[i]
    ensures a == Sweeps(p)
  {
  }

  class BTSPieViewValues {
    /** The slice count and fetch block the object was built from. */
    ghost const sliceCount: nat
    ghost const fetchBlock: nat -> real

    var sum: real
    const percentages: array<real>
    const values: array<real>
    const angles: array<real>

    /** The steps taken so far by the constructor. */
    ghost var trace: seq<Step>

    ghost predicate Valid()
      reads this, values, percentages, angles
    {
      && values.Length == sliceCount
      && percentages.Length == sliceCount
      && angles.Length == sliceCount
      && values[..] == Fetched(fetchBlock, sliceCount)
      && sum == Total(values[..])
      && (sliceCount == 0 || sum != 0.0)
      && percentages[..] == Proportions(values[..], sum)
      && angles[..] == Sweeps(percentages[..])
      && trace == Schedule(sliceCount, sum)
    }

    /** Fetches every slice's value, accumulating the sum, then derives every
        percentage and angle from the completed sum. The source divides by
        the sum unguarded, so a set of slices whose values total zero is
        excluded. */
    constructor (sliceCount: nat, fetchBlock: nat -> real)
      requires sliceCount == 0 || Total(Fetched(fetchBlock, sliceCount)) != 0.0
      ensures Valid()
      ensures this.sliceCount == sliceCount && this.fetchBlock == fetchBlock
      ensures fresh(values) && fresh(percentages) && fresh(angles)
      ensures values.Length == sliceCount && percentages.Length == sliceCount && angles.Length == sliceCount
      ensures values[..] == Fetched(fetchBlock, sliceCount)
      ensures sum == Total(values[..])
      ensures percentages[..] == Proportions(values[..], sum)
      ensures angles[..] == Sweeps(percentages[..])
      ensures trace == Schedule(sliceCount, sum)
    {
      this.sliceCount := sliceCount;
      this.fetchBlock := fetchBlock;
      sum := 0.0;
      percentages := new real[sliceCount];
      values := new real[sliceCount];
      angles := new real[sliceCount];
      trace := [];
      new;
      AccumulateValues(fetchBlock);
      ComputeShares();
    }

    /** The constructor's first pass: calls the fetch block for every index in
        increasing order, stores each value and adds it to the sum, which
        starts at zero. */
    method AccumulateValues(fetchBlock: nat -> real)
      requires sum == 0.0 && trace == []
      requires values != percentages && values != angles
      modifies this`sum, this`trace, values
      ensures values[..] == Fetched(fetchBlock, values.Length)
      ensures sum == Total(values[..])
      ensures trace == FetchPass(values.Length)
    {
      var i := 0;
      while i < values.Length
        invariant 0 <= i <= values.Length
        invariant values[..i] == Fetched(fetchBlock, i)
        invariant sum == Total(values[..i])
        invariant trace == FetchPass(i)
      {
        values[i] := fetchBlock(i);
        trace := trace + [Fetch(i)];
        sum := sum + values[i];
        assert values[..i + 1] == values[..i] + [values[i]];
        TotalExtend(values[..i], values[i]);
        assert FetchPass(i + 1) == FetchPass(i) + [Fetch(i)];
        i := i + 1;
      }
      assert values[..] == values[..values.Length];
    }

    /** The constructor's second pass: divides every value by the completed
        sum to get its percentage, and scales the percentage to an angle. */
    method ComputeShares()
      requires percentages.Length == values.Length && angles.Length == values.Length
      requires values != percentages && values != angles && percentages != angles
      requires values.Length == 0 || sum != 0.0
      modifies this`trace, percentages, angles
      ensures forall i :: 0 <= i < values.Length ==> percentages[i] == values[i] / sum
      ensures forall i :: 0 <= i < values.Length ==> angles[i] == TwoPi * percentages[i]
      ensures percentages[..] == Proportions(values[..], sum)
      ensures angles[..] == Sweeps(percentages[..])
      ensures trace == old(trace) + DividePass(values.Length, sum)
    {
      var i := 0;
      while i < values.Length
        invariant 0 <= i <= values.Length
        invariant forall k :: 0 <= k < i ==> percentages[k] == values[k] / sum
        invariant forall k :: 0 <= k < i ==> angles[k] == TwoPi * percentages[k]
        invariant trace == old(trace) + DividePass(i, sum)
      {
        var percentage := values[i] / sum;
        trace := trace + [Divide(i, sum)];
        percentages[i] := percentage;
        var angle := TwoPi * percentage;
        angles[i] := angle;
        i := i + 1;
      }
      SharesAreProportions(values[..], percentages[..], sum);
      AnglesAreSweeps(percentages[..], angles[..]);
    }

    /** The raw values, one per slice in index order, as the fetch block
        returned them. */
    method Values() returns (r: seq<real>)
      requires Valid()
      ensures r == Fetched(fetchBlock, sliceCount)
    {
      r := values[..];
    }

    /** Each slice's share of the sum; when there are slices, the shares add
        up to one. */
    method Percentages() returns (r: seq<real>)
      requires Valid()
      ensures r == Proportions(Fetched(fetchBlock, sliceCount), Total(Fetched(fetchBlock, sliceCount)))
      ensures sliceCount > 0 ==> Total(r) == 1.0
    {
      r := percentages[..];
      if sliceCount > 0 {
        ProportionsTotalOne(values[..]);
      }
    }

    /** Each slice's sweep in radians; when there are slices, the sweeps add
        up to a full circle. */
    method Angles() returns (r: seq<real>)
      requires Valid()
      ensures r == Sweeps(Proportions(Fetched(fetchBlock, sliceCount), Total(Fetched(fetchBlock, sliceCount))))
      ensures sliceCount > 0 ==> Total(r) == TwoPi
    {
      r := angles[..];
      if sliceCount > 0 {
        SweepsTotalFullCircle(values[..]);
      }
    }

    /** The total of all fetched values. */
    method Sum() returns (r: real)
      requires Valid()
      ensures r == Total(Fetched(fetchBlock, sliceCount))
    {
      r := sum;
    }
  }
}
