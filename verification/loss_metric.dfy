/** `Loss.update` (pytorch/src/metrics/loss.py): the loss metric keeps two
    example-weighted sums, one for the whole epoch and one for the current
    logging window, and the number of examples seen in the epoch.

    The `Metric` base class is not part of this model; the record keeps the
    three accumulators `update` touches and the metric's name, which stands
    for every attribute `update` leaves alone. */
module LossMetric {

  datatype Metric = Metric(name: string, epochAvg: real, runningAvg: real, numExamples: int)

  /** What `update` reads from its `val_dict`: the batch's mean loss
      (`loss.item()`) and the number of examples in the batch. */
  datatype BatchValues = BatchValues(loss: real, batchSize: int)

  /** A metric with all three accumulators at zero, as after a reset. */
  function Fresh(name: string): (m: Metric)
  {
    Metric(name, 0.0, 0.0, 0)
  }

  /** `Loss.update`: returns the updated metric and the value handed back
      to the caller. */
  function Update(m: Metric, b: BatchValues): (r: (Metric, real))
    // the batch loss is returned unchanged, for immediate display
    ensures r.1 == b.loss
    // the epoch sum grows by the loss weighted by the batch size
    ensures r.0.epochAvg == m.epochAvg + r.1 * b.batchSize as real
    // the window sum grows by exactly as much as the epoch sum
    ensures r.0.runningAvg - m.runningAvg == r.0.epochAvg - m.epochAvg
    ensures r.0.numExamples == m.numExamples + b.batchSize
    ensures m.numExamples >= 0 && b.batchSize > 0 ==> r.0.numExamples > 0
    // nothing else about the metric changes
    ensures r.0.name == m.name
  {
    var weighted := b.loss * b.batchSize as real;
    (m.(epochAvg := m.epochAvg + weighted,
        runningAvg := m.runningAvg + weighted,
        numExamples := m.numExamples + b.batchSize),
     b.loss)
  }

  /** Applies `update` to each batch in turn. */
  function Accumulate(m: Metric, bs: seq<BatchValues>): (r: Metric)
    decreases |bs|
  {
    if bs == [] then m else Accumulate(Update(m, bs[0]).0, bs[1..])
  }

  /** Σ vᵢ·bᵢ over the batches. */
  function WeightedSum(bs: seq<BatchValues>): real
    decreases |bs|
  {
    if bs == [] then 0.0 else bs[0].loss * bs[0].batchSize as real + WeightedSum(bs[1..])
  }

  /** Σ bᵢ over the batches. */
  function TotalSize(bs: seq<BatchValues>): int
    decreases |bs|
  {
    if bs == [] then 0 else bs[0].batchSize + TotalSize(bs[1..])
  }

  /** Folding `update` over a sequence of batches adds the weighted loss sum
      to both accumulators and the total size to the example count. */
  lemma {:induction false} AccumulateSums(m: Metric, bs: seq<BatchValues>)
    ensures Accumulate(m, bs).epochAvg == m.epochAvg + WeightedSum(bs)
    ensures Accumulate(m, bs).runningAvg == m.runningAvg + WeightedSum(bs)
    ensures Accumulate(m, bs).numExamples == m.numExamples + TotalSize(bs)
    ensures Accumulate(m, bs).name == m.name
    decreases |bs|
  {
    if bs != [] {
      AccumulateSums(Update(m, bs[0]).0, bs[1..]);
    }
  }

  /** Between resets the window sum and the epoch sum move in lockstep: their
      difference is whatever it was before the batches. */
  lemma {:induction false} Lockstep(m: Metric, bs: seq<BatchValues>)
    ensures Accumulate(m, bs).runningAvg - Accumulate(m, bs).epochAvg == m.runningAvg - m.epochAvg
  {
    AccumulateSums(m, bs);
  }

  /** From a fresh metric, the epoch sum divided by the example count is the
      example-weighted mean of the batch losses, Σ vᵢ·bᵢ / Σ bᵢ. */
  lemma {:induction false} WeightedMean(name: string, bs: seq<BatchValues>)
    requires TotalSize(bs) != 0
    ensures Accumulate(Fresh(name), bs).numExamples == TotalSize(bs)
    ensures Accumulate(Fresh(name), bs).epochAvg / Accumulate(Fresh(name), bs).numExamples as real
            == WeightedSum(bs) / TotalSize(bs) as real
  {
    AccumulateSums(Fresh(name), bs);
  }

  /** A stream whose every batch has loss `v` has weighted sum `v` times
      its total size. */
  lemma {:induction false} ConstantWeightedSum(bs: seq<BatchValues>, v: real)
    requires forall k :: 0 <= k < |bs| ==> bs[k].loss == v
    ensures WeightedSum(bs) == v * TotalSize(bs) as real
    decreases |bs|
  {
    if bs != [] {
      ConstantWeightedSum(bs[1..], v);
    }
  }

  /** The weighted mean of a constant stream is that constant, whatever the
      batch sizes. */
  lemma {:induction false} ConstantMean(name: string, bs: seq<BatchValues>, v: real)
    requires forall k :: 0 <= k < |bs| ==> bs[k].loss == v
    requires TotalSize(bs) != 0
    ensures Accumulate(Fresh(name), bs).numExamples == TotalSize(bs)
    ensures Accumulate(Fresh(name), bs).epochAvg / Accumulate(Fresh(name), bs).numExamples as real == v
  {
    AccumulateSums(Fresh(name), bs);
    ConstantWeightedSum(bs, v);
    var acc := Accumulate(Fresh(name), bs);
    assert acc.epochAvg == v * TotalSize(bs) as real;
    assert acc.numExamples as real == TotalSize(bs) as real;
    DivideScaled(acc.epochAvg, acc.numExamples as real, v);
  }

  /** Four batches of sizes 10, 10, 10, 5 with losses 1.0, 0.5, 0.5, 0.4
      give an epoch loss of 22/35. */
  lemma PartialLastBatch(name: string)
    ensures var bs := [BatchValues(1.0, 10), BatchValues(0.5, 10), BatchValues(0.5, 10), BatchValues(0.4, 5)];
            Accumulate(Fresh(name), bs).epochAvg == 22.0
            && Accumulate(Fresh(name), bs).numExamples == 35
            && Accumulate(Fresh(name), bs).epochAvg / Accumulate(Fresh(name), bs).numExamples as real == 22.0 / 35.0
  {
    var bs := [BatchValues(1.0, 10), BatchValues(0.5, 10), BatchValues(0.5, 10), BatchValues(0.4, 5)];
    AccumulateSums(Fresh(name), bs);
    assert bs[1..] == [BatchValues(0.5, 10), BatchValues(0.5, 10), BatchValues(0.4, 5)];
    assert bs[1..][1..] == [BatchValues(0.5, 10), BatchValues(0.4, 5)];
    assert bs[1..][1..][1..] == [BatchValues(0.4, 5)];
  }

  lemma DivideScaled(x: real, n: real, v: real)
    requires n != 0.0 && x == v * n
    ensures x / n == v
  {
  }
}
