/**
 * The running-statistics accumulator of the classifier's utilities: it keeps
 * the latest value recorded, the weighted sum of all values, the total weight
 * and the running average. Values are modelled as exact reals.
 */
module Meter {

  /** One call of `update`: the value passed and its weight `n`. */
  datatype Entry = Entry(value: real, weight: int)

  /** Sum of `value * weight` over a history of updates, oldest first. */
  function WeightedSum(h: seq<Entry>): real
  {
    if h == [] then 0.0
    else WeightedSum(h[..|h| - 1]) + h[|h| - 1].value * h[|h| - 1].weight as real
  }

  /** Sum of the weights over a history of updates. */
  function TotalWeight(h: seq<Entry>): int
  {
    if h == [] then 0 else TotalWeight(h[..|h| - 1]) + h[|h| - 1].weight
  }

  /** Plain sum of a sequence of reals. */
  function Sum(xs: seq<real>): real
  {
    if xs == [] then 0.0 else Sum(xs[..|xs| - 1]) + xs[|xs| - 1]
  }

  /** Arithmetic mean of a non-empty sequence of reals. */
  function Mean(xs: seq<real>): real
    requires xs != []
  {
    Sum(xs) / |xs| as real
  }

  /** The history left by calling `update(x)` (so `n = 1`) for each `x` of `xs` in turn. */
  function UnitEntries(xs: seq<real>): seq<Entry>
  {
    seq(|xs|, i requires 0 <= i < |xs| => Entry(xs[i], 1))
  }

  /**
   * Unit-weight updates make the weighted sum the plain sum and the total
   * weight the number of updates, so the meter's average is the mean.
   */
  lemma {:induction false} UnitEntriesTotals(xs: seq<real>)
    ensures WeightedSum(UnitEntries(xs)) == Sum(xs)
    ensures TotalWeight(UnitEntries(xs)) == |xs|
  {
    if xs != [] {
      var init := xs[..|xs| - 1];
      UnitEntriesTotals(init);
      assert UnitEntries(xs)[..|xs| - 1] == UnitEntries(init);
    }
  }

  /** One more unit-weight update extends the history by one entry. */
  lemma UnitEntriesStep(xs: seq<real>, i: nat)
    requires i < |xs|
    ensures UnitEntries(xs[..i + 1]) == UnitEntries(xs[..i]) + [Entry(xs[i], 1)]
  {
  }

  /**
   * After a reset followed by unit-weight updates with the values `xs`, the
   * meter's count is the number of updates and its average is their mean.
   */
  lemma UnitUpdatesAverage(m: AverageMeter, xs: seq<real>)
    requires m.Valid()
    requires m.history == UnitEntries(xs)
    ensures m.count == |xs|
    ensures xs != [] ==> m.avg == Mean(xs)
    ensures xs == [] ==> m.avg == 0.0
  {
    UnitEntriesTotals(xs);
  }

  /**
   * The invariant the running mean keeps: with a non-zero count the average
   * times the count is the sum; with a zero count everything is zero.
   */
  lemma AverageTimesCount(m: AverageMeter)
    requires m.Valid()
    ensures m.count != 0 ==> m.avg * m.count as real == m.sum
    ensures m.count == 0 ==> m.avg == 0.0 && m.sum == 0.0 && m.val == 0.0
  {
  }

  class AverageMeter {
    var val: real
    var avg: real
    var sum: real
    var count: int
    /** The updates recorded since the last reset, oldest first. */
    ghost var history: seq<Entry>

    /**
     * The meter's invariant: `sum` and `count` are the weighted sum and total
     * weight of the history, `val` is the latest value, and once anything was
     * recorded `count` is non-zero and `avg * count == sum`.
     */
    ghost predicate Valid()
      reads this
    {
      sum == WeightedSum(history) && count == TotalWeight(history) &&
      (history == [] ==> val == 0.0 && avg == 0.0) &&
      (history != [] ==> val == history[|history| - 1].value && count != 0 && avg == sum / count as real)
    }

    constructor ()
      ensures Valid()
      ensures val == 0.0 && avg == 0.0 && sum == 0.0 && count == 0 && history == []
    {
      new;
      Reset();
    }

    method Reset()
      modifies this
      ensures Valid()
      ensures val == 0.0 && avg == 0.0 && sum == 0.0 && count == 0 && history == []
    {
      val := 0.0;
      avg := 0.0;
      sum := 0.0;
      count := 0;
      history := [];
    }

    /** Records `v` with weight `n`; the new total weight must not be zero, as it divides the sum. */
    method Update(v: real, n: int := 1)
      requires Valid()
      requires count + n != 0
      modifies this
      ensures Valid()
      ensures val == v
      ensures sum == old(sum) + v * n as real
      ensures count == old(count) + n
      ensures avg == sum / count as real
      ensures history == old(history) + [Entry(v, n)]
    {
      val := v;
      sum := sum + v * n as real;
      count := count + n;
      avg := sum / count as real;
      history := history + [Entry(v, n)];
      assert history[..|history| - 1] == old(history);
    }
  }
}
