/**
 * The evaluation pass of the image classifier with the network abstracted
 * away: each batch arrives with the top-1 predicted labels the network chose,
 * the target labels and the batch loss. The pass feeds three meters (elapsed
 * time, loss and top-1 error) and collects every target and every prediction.
 */
module Evaluation {
  import opened Meter

  /** One batch as the loader and the network deliver it. */
  datatype Batch = Batch(predictions: seq<int>, targets: seq<int>, loss: real)

  /** Why the evaluation pass stops with an exception instead of returning. */
  datatype EvalError =
    | EmptyBatch(index: nat)   // the per-batch error divides by a batch size of zero
    | ZeroPrintFrequency       // the logging test takes the batch index modulo zero

  /** What the evaluation pass returns: the three averages and the two label lists. */
  datatype Summary = Summary(timeAvg: real, lossAvg: real, errorAvg: real,
                             targets: seq<int>, predictions: seq<int>)

  datatype Result = Ok(value: Summary) | Err(error: EvalError)

  // ---------------------------------------------------------------------------
  // Top-1 error of one batch

  /** Number of positions where the prediction differs from the target. */
  function Mismatches(p: seq<int>, t: seq<int>): (m: nat)
    requires |p| == |t|
    ensures m <= |t|
  {
    if t == [] then 0
    else
      var k := |t| - 1;
      Mismatches(p[..k], t[..k]) + (if p[k] != t[k] then 1 else 0)
  }

  /** The positions where the prediction differs from the target. */
  function MismatchIndices(p: seq<int>, t: seq<int>): set<nat>
    requires |p| == |t|
  {
    set i: nat | i < |t| && p[i] != t[i]
  }

  /** Mismatches counts exactly the positions at which prediction and target differ. */
  lemma {:induction false} MismatchesCountsIndices(p: seq<int>, t: seq<int>)
    requires |p| == |t|
    ensures Mismatches(p, t) == |MismatchIndices(p, t)|
  {
    if t != [] {
      var k := |t| - 1;
      MismatchesCountsIndices(p[..k], t[..k]);
      var prefix := MismatchIndices(p[..k], t[..k]);
      var last: set<nat> := if p[k] != t[k] then {k} else {};
      assert MismatchIndices(p, t) == prefix + last;
      assert prefix * last == {};
    }
  }

  /**
   * No mismatch exactly when every prediction is right, and a mismatch at
   * every position exactly when every prediction is wrong.
   */
  lemma {:induction false} MismatchesExtremes(p: seq<int>, t: seq<int>)
    requires |p| == |t|
    ensures Mismatches(p, t) == 0 <==> p == t
    ensures Mismatches(p, t) == |t| <==> forall i :: 0 <= i < |t| ==> p[i] != t[i]
  {
    if t != [] {
      var k := |t| - 1;
      MismatchesExtremes(p[..k], t[..k]);
      assert p == p[..k] + [p[k]] && t == t[..k] + [t[k]];
      if Mismatches(p, t) == |t| {
        forall i | 0 <= i < |t| ensures p[i] != t[i] {
          if i < k {
            assert p[..k][i] == p[i] && t[..k][i] == t[i];
          }
        }
      }
    }
  }

  /** Mismatches add up over concatenated label lists. */
  lemma {:induction false} MismatchesConcat(p1: seq<int>, t1: seq<int>, p2: seq<int>, t2: seq<int>)
    requires |p1| == |t1| && |p2| == |t2|
    ensures Mismatches(p1 + p2, t1 + t2) == Mismatches(p1, t1) + Mismatches(p2, t2)
  {
    if t2 != [] {
      var k := |t2| - 1;
      MismatchesConcat(p1, t1, p2[..k], t2[..k]);
      assert (p1 + p2)[..|t1| + k] == p1 + p2[..k];
      assert (t1 + t2)[..|t1| + k] == t1 + t2[..k];
    } else {
      assert p1 + p2 == p1 && t1 + t2 == t1;
    }
  }

  /** A count `m` of at most `n` items, `n` positive, is a fraction of `n` in [0, 1]. */
  lemma FractionOf(m: nat, n: nat)
    requires m <= n && n > 0
    ensures 0.0 <= m as real / n as real <= 1.0
    ensures m as real / n as real * n as real == m as real
  {
  }

  /** `m` out of `n` as a real fraction, zero when `n` is zero. */
  function Fraction(m: nat, n: nat): (q: real)
    requires m <= n
    ensures 0.0 <= q <= 1.0
    ensures q * n as real == m as real
  {
    if n == 0 then 0.0
    else
      FractionOf(m, n);
      m as real / n as real
  }

  /** The network gives exactly one top-1 prediction per input of the batch. */
  predicate WellShaped(b: Batch)
  {
    |b.predictions| == |b.targets|
  }

  /** The top-1 error of one non-empty batch: the fraction of its inputs misclassified. */
  function BatchError(b: Batch): (e: real)
    requires WellShaped(b) && b.targets != []
    ensures 0.0 <= e <= 1.0
    ensures e * |b.targets| as real == Mismatches(b.predictions, b.targets) as real
  {
    Fraction(Mismatches(b.predictions, b.targets), |b.targets|)
  }

  /** A batch has zero error exactly when every prediction is right. */
  lemma BatchErrorZero(b: Batch)
    requires WellShaped(b) && b.targets != []
    ensures BatchError(b) == 0.0 <==> b.predictions == b.targets
  {
    MismatchesExtremes(b.predictions, b.targets);
  }

  // ---------------------------------------------------------------------------
  // Totals over a sequence of batches

  /** Every batch of the sequence is well shaped. */
  predicate AllWellShaped(bs: seq<Batch>)
  {
    forall i :: 0 <= i < |bs| ==> WellShaped(bs[i])
  }

  /** Every batch of the sequence holds at least one input. */
  predicate NoneEmpty(bs: seq<Batch>)
  {
    forall i :: 0 <= i < |bs| ==> bs[i].targets != []
  }

  /** Total number of inputs over a sequence of batches. */
  function TotalSamples(bs: seq<Batch>): nat
  {
    if bs == [] then 0 else TotalSamples(bs[..|bs| - 1]) + |bs[|bs| - 1].targets|
  }

  /** Total number of misclassified inputs over a sequence of well-shaped batches. */
  function TotalMismatches(bs: seq<Batch>): nat
    requires AllWellShaped(bs)
  {
    if bs == [] then 0
    else
      var last := bs[|bs| - 1];
      TotalMismatches(bs[..|bs| - 1]) + Mismatches(last.predictions, last.targets)
  }

  /** Sum of the batch losses. */
  function TotalLoss(bs: seq<Batch>): real
  {
    if bs == [] then 0.0 else TotalLoss(bs[..|bs| - 1]) + bs[|bs| - 1].loss
  }

  /** All target labels, batch after batch. */
  function AllTargets(bs: seq<Batch>): seq<int>
  {
    if bs == [] then [] else AllTargets(bs[..|bs| - 1]) + bs[|bs| - 1].targets
  }

  /** All top-1 predictions, batch after batch. */
  function AllPredictions(bs: seq<Batch>): seq<int>
  {
    if bs == [] then [] else AllPredictions(bs[..|bs| - 1]) + bs[|bs| - 1].predictions
  }

  /** Misclassified inputs never outnumber the inputs. */
  lemma {:induction false} TotalMismatchesBound(bs: seq<Batch>)
    requires AllWellShaped(bs)
    ensures TotalMismatches(bs) <= TotalSamples(bs)
  {
    if bs != [] {
      TotalMismatchesBound(bs[..|bs| - 1]);
    }
  }

  /** The fraction of all inputs misclassified (zero when there were none). */
  function ErrorRate(bs: seq<Batch>): (r: real)
    requires AllWellShaped(bs)
    ensures 0.0 <= r <= 1.0
  {
    TotalMismatchesBound(bs);
    Fraction(TotalMismatches(bs), TotalSamples(bs))
  }

  /**
   * The collected lists line up input by input: both hold one label per
   * input, and the mismatches counted batch by batch are the mismatches
   * between the two lists.
   */
  lemma {:induction false} CollectedListsAgree(bs: seq<Batch>)
    requires AllWellShaped(bs)
    ensures |AllTargets(bs)| == TotalSamples(bs)
    ensures |AllPredictions(bs)| == TotalSamples(bs)
    ensures Mismatches(AllPredictions(bs), AllTargets(bs)) == TotalMismatches(bs)
  {
    if bs != [] {
      var init := bs[..|bs| - 1];
      var last := bs[|bs| - 1];
      assert AllWellShaped(init) by {
        forall i | 0 <= i < |init| ensures WellShaped(init[i]) {
          assert init[i] == bs[i];
        }
      }
      CollectedListsAgree(init);
      MismatchesConcat(AllPredictions(init), AllTargets(init), last.predictions, last.targets);
    }
  }

  /** Extending a prefix of the batches by the next batch extends every total by that batch. */
  lemma PrefixStep(bs: seq<Batch>, i: nat)
    requires AllWellShaped(bs) && i < |bs|
    ensures AllWellShaped(bs[..i]) && AllWellShaped(bs[..i + 1])
    ensures TotalSamples(bs[..i + 1]) == TotalSamples(bs[..i]) + |bs[i].targets|
    ensures AllTargets(bs[..i + 1]) == AllTargets(bs[..i]) + bs[i].targets
    ensures AllPredictions(bs[..i + 1]) == AllPredictions(bs[..i]) + bs[i].predictions
  {
    assert bs[..i + 1][..i] == bs[..i];
  }

  // ---------------------------------------------------------------------------
  // What the meters record

  /** The history the error meter records: each batch's top-1 error weighted by its size. */
  function ErrorEntries(bs: seq<Batch>): (h: seq<Entry>)
    requires AllWellShaped(bs) && NoneEmpty(bs)
    ensures |h| == |bs|
  {
    if bs == [] then []
    else ErrorEntries(bs[..|bs| - 1]) + [Entry(BatchError(bs[|bs| - 1]), |bs[|bs| - 1].targets|)]
  }

  /** The history the loss meter records: each batch's loss divided by its size, weighted by its size. */
  function LossEntries(bs: seq<Batch>): (h: seq<Entry>)
    requires NoneEmpty(bs)
    ensures |h| == |bs|
  {
    if bs == [] then []
    else
      var last := bs[|bs| - 1];
      LossEntries(bs[..|bs| - 1]) + [Entry(last.loss / |last.targets| as real, |last.targets|)]
  }

  /** Appending an entry whose weighted value is `w` adds `w` to the weighted sum. */
  lemma WeightedSumSnoc(h: seq<Entry>, v: real, n: int, w: real)
    requires v * n as real == w
    ensures WeightedSum(h + [Entry(v, n)]) == WeightedSum(h) + w
    ensures TotalWeight(h + [Entry(v, n)]) == TotalWeight(h) + n
  {
    assert (h + [Entry(v, n)])[..|h|] == h;
  }

  /**
   * Weighting each batch's error by its size undoes the division by the
   * size: the error meter's sum is the number of misclassified inputs and its
   * count the number of inputs.
   */
  lemma {:induction false} ErrorEntriesTotals(bs: seq<Batch>)
    requires AllWellShaped(bs) && NoneEmpty(bs)
    ensures WeightedSum(ErrorEntries(bs)) == TotalMismatches(bs) as real
    ensures TotalWeight(ErrorEntries(bs)) == TotalSamples(bs)
  {
    if bs != [] {
      var init := bs[..|bs| - 1];
      var last := bs[|bs| - 1];
      var e, n, m := BatchError(last), |last.targets|, Mismatches(last.predictions, last.targets);
      assert e * n as real == m as real;
      assert AllWellShaped(init) && NoneEmpty(init) by {
        forall i | 0 <= i < |init| ensures WellShaped(init[i]) && init[i].targets != [] {
          assert init[i] == bs[i];
        }
      }
      ErrorEntriesTotals(init);
      assert ErrorEntries(bs) == ErrorEntries(init) + [Entry(e, n)];
      WeightedSumSnoc(ErrorEntries(init), e, n, m as real);
    }
  }

  /** Likewise the loss meter's sum is the total loss and its count the number of inputs. */
  lemma {:induction false} LossEntriesTotals(bs: seq<Batch>)
    requires NoneEmpty(bs)
    ensures WeightedSum(LossEntries(bs)) == TotalLoss(bs)
    ensures TotalWeight(LossEntries(bs)) == TotalSamples(bs)
  {
    if bs != [] {
      var init := bs[..|bs| - 1];
      var last := bs[|bs| - 1];
      var n := |last.targets|;
      assert last.loss / n as real * n as real == last.loss;
      assert NoneEmpty(init) by {
        forall i | 0 <= i < |init| ensures init[i].targets != [] {
          assert init[i] == bs[i];
        }
      }
      LossEntriesTotals(init);
      assert LossEntries(bs) == LossEntries(init) + [Entry(last.loss / n as real, n)];
      WeightedSumSnoc(LossEntries(init), last.loss / n as real, n, last.loss);
    }
  }

  /** Extending a prefix of well-shaped, non-empty batches extends both meter histories by one entry. */
  lemma EntriesStep(bs: seq<Batch>, i: nat)
    requires AllWellShaped(bs) && i < |bs| && NoneEmpty(bs[..i]) && bs[i].targets != []
    ensures AllWellShaped(bs[..i]) && NoneEmpty(bs[..i + 1])
    ensures ErrorEntries(bs[..i + 1]) == ErrorEntries(bs[..i]) + [Entry(BatchError(bs[i]), |bs[i].targets|)]
    ensures LossEntries(bs[..i + 1]) == LossEntries(bs[..i]) + [Entry(bs[i].loss / |bs[i].targets| as real, |bs[i].targets|)]
  {
    assert bs[..i + 1][..i] == bs[..i];
    assert bs[..i + 1][i] == bs[i];
  }

  /** An error meter that recorded the error history of a pass holds the error rate as its average. */
  lemma ErrorMeterAverage(bs: seq<Batch>, error: AverageMeter)
    requires AllWellShaped(bs) && NoneEmpty(bs)
    requires error.Valid() && error.history == ErrorEntries(bs)
    ensures error.avg == ErrorRate(bs)
  {
    ErrorEntriesTotals(bs);
  }

  /** A loss meter that recorded the loss history of a pass holds the summed batch losses over the number of inputs as its average. */
  lemma LossMeterAverage(bs: seq<Batch>, losses: AverageMeter)
    requires NoneEmpty(bs)
    requires losses.Valid() && losses.history == LossEntries(bs)
    ensures losses.avg == if bs == [] then 0.0 else TotalLoss(bs) / TotalSamples(bs) as real
  {
    LossEntriesTotals(bs);
  }

  // ---------------------------------------------------------------------------
  // The evaluation pass

  /** Index of the first empty batch, or the number of batches when none is empty. */
  function FirstEmpty(bs: seq<Batch>): (k: nat)
    ensures k <= |bs|
    ensures forall j :: 0 <= j < k ==> bs[j].targets != []
    ensures k < |bs| ==> bs[k].targets == []
  {
    if bs == [] then 0
    else if bs[0].targets == [] then 0
    else
      var k := 1 + FirstEmpty(bs[1..]);
      assert forall j :: 1 <= j < k ==> bs[j] == bs[1..][j - 1];
      k
  }

  /**
   * What the evaluation pass over `bs`, with batch times `ds`, ends in. Batch
   * `i` fails on its error computation when it is empty; otherwise, with a print
   * frequency of zero, the logging test of the very first batch fails. A pass
   * that gets through every batch returns the summary.
   */
  function Outcome(bs: seq<Batch>, ds: seq<real>, printFreq: int): Result
    requires |ds| == |bs| && AllWellShaped(bs)
  {
    var k := FirstEmpty(bs);
    if bs != [] && k == 0 then Err(EmptyBatch(0))
    else if bs != [] && printFreq == 0 then Err(ZeroPrintFrequency)
    else if k < |bs| then Err(EmptyBatch(k))
    else
      Ok(Summary(if ds == [] then 0.0 else Mean(ds),
                 if bs == [] then 0.0 else TotalLoss(bs) / TotalSamples(bs) as real,
                 ErrorRate(bs),
                 AllTargets(bs),
                 AllPredictions(bs)))
  }

  /** A pass whose batch `i` is the first empty one, reached with a usable print frequency, fails there. */
  lemma OutcomeEmptyBatch(bs: seq<Batch>, ds: seq<real>, printFreq: int, i: nat)
    requires |ds| == |bs| && AllWellShaped(bs)
    requires i < |bs| && bs[i].targets == [] && NoneEmpty(bs[..i]) && (i > 0 ==> printFreq != 0)
    ensures Outcome(bs, ds, printFreq) == Err(EmptyBatch(i))
  {
  }

  /** A pass with print frequency zero whose first batch is not empty fails on its logging test. */
  lemma OutcomeZeroPrintFrequency(bs: seq<Batch>, ds: seq<real>, printFreq: int)
    requires |ds| == |bs| && AllWellShaped(bs)
    requires bs != [] && bs[0].targets != [] && printFreq == 0
    ensures Outcome(bs, ds, printFreq) == Err(ZeroPrintFrequency)
  {
  }

  /** A pass over non-empty batches, with a usable print frequency, returns the summary. */
  lemma OutcomeSummary(bs: seq<Batch>, ds: seq<real>, printFreq: int, s: Summary)
    requires |ds| == |bs| && AllWellShaped(bs) && NoneEmpty(bs) && (bs != [] ==> printFreq != 0)
    requires s.timeAvg == (if ds == [] then 0.0 else Mean(ds))
    requires s.lossAvg == (if bs == [] then 0.0 else TotalLoss(bs) / TotalSamples(bs) as real)
    requires s.errorAvg == ErrorRate(bs)
    requires s.targets == AllTargets(bs) && s.predictions == AllPredictions(bs)
    ensures Outcome(bs, ds, printFreq) == Ok(s)
  {
  }

  /** The pass runs to the end: no batch is empty, and the print frequency is usable once a batch is seen. */
  predicate Completes(bs: seq<Batch>, printFreq: int)
  {
    NoneEmpty(bs) && (bs != [] ==> printFreq != 0)
  }

  /**
   * The pass succeeds exactly when it completes; a failure names the first
   * empty batch, or a zero print frequency when the first batch is not empty.
   */
  lemma OutcomeFailures(bs: seq<Batch>, ds: seq<real>, printFreq: int)
    requires |ds| == |bs| && AllWellShaped(bs)
    ensures Outcome(bs, ds, printFreq).Ok? <==> Completes(bs, printFreq)
    ensures Outcome(bs, ds, printFreq).Err? && Outcome(bs, ds, printFreq).error.EmptyBatch? ==>
      var i := Outcome(bs, ds, printFreq).error.index;
      i < |bs| && bs[i].targets == [] && (i > 0 ==> printFreq != 0) &&
      forall j :: 0 <= j < i ==> bs[j].targets != []
    ensures Outcome(bs, ds, printFreq) == Err(ZeroPrintFrequency) <==>
      printFreq == 0 && bs != [] && bs[0].targets != []
  {
  }

  /**
   * A successful pass returns one target and one prediction per input, and
   * its error average is the fraction of positions at which the two returned
   * lists disagree: a value in [0, 1] that is zero exactly when every
   * prediction is right.
   */
  lemma {:induction false} OutcomeErrorAverage(bs: seq<Batch>, ds: seq<real>, printFreq: int)
    requires |ds| == |bs| && AllWellShaped(bs)
    requires Outcome(bs, ds, printFreq).Ok?
    ensures var s := Outcome(bs, ds, printFreq).value;
      |s.targets| == |s.predictions| == TotalSamples(bs) &&
      s.errorAvg == Fraction(Mismatches(s.predictions, s.targets), |s.targets|) &&
      0.0 <= s.errorAvg <= 1.0 &&
      (s.errorAvg == 0.0 <==> s.predictions == s.targets)
  {
    CollectedListsAgree(bs);
    MismatchesExtremes(AllPredictions(bs), AllTargets(bs));
    var s := Outcome(bs, ds, printFreq).value;
    var m, n := Mismatches(s.predictions, s.targets), |s.targets|;
    if n > 0 {
      FractionOf(m, n);
    }
  }

  /** The meter updates of one batch of the evaluation pass. */
  method RecordBatch(b: Batch, duration: real, batchTime: AverageMeter, losses: AverageMeter, error: AverageMeter)
    requires WellShaped(b) && b.targets != []
    requires batchTime != losses && batchTime != error && losses != error
    requires batchTime.Valid() && losses.Valid() && error.Valid()
    requires batchTime.count >= 0 && losses.count >= 0 && error.count >= 0
    modifies batchTime, losses, error
    ensures batchTime.Valid() && losses.Valid() && error.Valid()
    ensures error.history == old(error.history) + [Entry(BatchError(b), |b.targets|)]
    ensures error.count == old(error.count) + |b.targets|
    ensures losses.history == old(losses.history) + [Entry(b.loss / |b.targets| as real, |b.targets|)]
    ensures losses.count == old(losses.count) + |b.targets|
    ensures batchTime.history == old(batchTime.history) + [Entry(duration, 1)]
    ensures batchTime.count == old(batchTime.count) + 1
  {
    var batchSize := |b.targets|;
    error.Update(BatchError(b), batchSize);
    losses.Update(b.loss / batchSize as real, batchSize);
    batchTime.Update(duration);
  }

  /**
   * The evaluation pass over the batches of a loader. `durations[i]` is the
   * wall-clock time measured for batch `i`; `printFreq` is the logging
   * interval, whose only effect modelled here is the failure when it is zero.
   */
  method Evaluate(batches: seq<Batch>, durations: seq<real>, printFreq: int := 1) returns (r: Result)
    requires |durations| == |batches|
    requires AllWellShaped(batches)
    ensures r == Outcome(batches, durations, printFreq)
  {
    var batchTime := new AverageMeter();
    var losses := new AverageMeter();
    var error := new AverageMeter();
    var targetList: seq<int> := [];
    var predTop1List: seq<int> := [];
    for i := 0 to |batches|
      invariant batchTime.Valid() && losses.Valid() && error.Valid()
      invariant NoneEmpty(batches[..i])
      invariant batchTime.history == UnitEntries(durations[..i]) && batchTime.count == i
      invariant losses.history == LossEntries(batches[..i])
      invariant error.history == ErrorEntries(batches[..i])
      invariant losses.count == error.count == TotalSamples(batches[..i])
      invariant targetList == AllTargets(batches[..i])
      invariant predTop1List == AllPredictions(batches[..i])
      invariant i > 0 ==> printFreq != 0
    {
      var b := batches[i];
      PrefixStep(batches, i);
      var batchSize := |b.targets|;
      targetList := targetList + b.targets;
      predTop1List := predTop1List + b.predictions;
      if batchSize == 0 {
        OutcomeEmptyBatch(batches, durations, printFreq, i);
        return Err(EmptyBatch(i));
      }
      EntriesStep(batches, i);
      UnitEntriesStep(durations, i);
      RecordBatch(b, durations[i], batchTime, losses, error);
      if printFreq == 0 {
        OutcomeZeroPrintFrequency(batches, durations, printFreq);
        return Err(ZeroPrintFrequency);
      }
    }
    assert batches[..|batches|] == batches;
    assert durations[..|durations|] == durations;
    ErrorMeterAverage(batches, error);
    LossMeterAverage(batches, losses);
    UnitUpdatesAverage(batchTime, durations);
    var summary := Summary(batchTime.avg, losses.avg, error.avg, targetList, predTop1List);
    OutcomeSummary(batches, durations, printFreq, summary);
    r := Ok(summary);
  }
}
