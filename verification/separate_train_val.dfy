/** The metric helpers and the epoch loop of train/train_separate_train_val.py.

    The `util.Metrics` object is seen only through its use here: four named
    unweighted sums (`epoch_loss`, `running_loss`, `epoch_acc`,
    `running_acc`) that `update` adds a value to and `reset` zeroes, plus the
    `epoch`, `num_examples` and `log_interval` it carries.  A SummaryWriter
    write is an appended `Write(tag, value, step)`. */
module SeparateTrainVal {
  import opened Wrappers
  import opened Modes

  datatype Metrics = Metrics(
    epoch: int,
    numExamples: int,
    logInterval: int,
    epochLoss: real,
    runningLoss: real,
    epochAcc: real,
    runningAcc: real)

  /** The four tags written: f'{mode} Loss', f'{mode} Accuracy',
      f'{mode} Epoch Loss' and f'{mode} Epoch Accuracy'. */
  datatype Tag = LossTag(mode: Mode) | AccuracyTag(mode: Mode) | EpochLossTag(mode: Mode) | EpochAccuracyTag(mode: Mode)

  datatype Write = Write(tag: Tag, value: real, step: int)

  /** The exception Python raises for `x % 0` or `x / 0`. */
  datatype Error = ZeroDivisionError

  datatype Logged = Logged(metrics: Metrics, writes: seq<Write>)

  /** One batch as `update_metrics` sees it: `loss.item()` and the batch
      accuracy. */
  datatype BatchObs = BatchObs(loss: real, accuracy: real)

  /** `metrics.reset()`: the four sums go back to zero. */
  function Reset(m: Metrics): (r: Metrics)
  {
    m.(epochLoss := 0.0, runningLoss := 0.0, epochAcc := 0.0, runningAcc := 0.0)
  }

  /** `metrics.set_num_examples(len(loader))` */
  function SetNumExamples(m: Metrics, n: nat): (r: Metrics)
  {
    m.(numExamples := n)
  }

  // ---------------------------------------------------------------------
  // Batch accuracy

  /** The number of rows whose predicted class equals the target. */
  function Matches(predicted: seq<int>, targets: seq<int>): (n: nat)
    requires |predicted| == |targets|
    ensures n <= |targets|
    ensures n == |targets| <==> forall k :: 0 <= k < |targets| ==> predicted[k] == targets[k]
    ensures n == 0 <==> forall k :: 0 <= k < |targets| ==> predicted[k] != targets[k]
    decreases |targets|
  {
    if targets == [] then 0
    else (if predicted[0] == targets[0] then 1 else 0) + Matches(predicted[1..], targets[1..])
  }

  /** `(output.argmax(1) == target).float().mean()`, with the row-wise
      argmax already taken (`predicted`); the tie-breaking of argmax is not
      modelled.  The batch is never empty. */
  function BatchAccuracy(predicted: seq<int>, targets: seq<int>): (acc: real)
    requires |predicted| == |targets| > 0
    ensures 0.0 <= acc <= 1.0
    ensures acc == 1.0 <==> forall k :: 0 <= k < |targets| ==> predicted[k] == targets[k]
    ensures acc == 0.0 <==> forall k :: 0 <= k < |targets| ==> predicted[k] != targets[k]
  {
    var c := Matches(predicted, targets);
    FractionBounds(c, |targets|);
    c as real / |targets| as real
  }

  /** c / n for 0 <= c <= n lies in [0, 1], and hits either end only at c = 0
      or c = n. */
  lemma FractionBounds(c: nat, n: nat)
    requires 0 < n && c <= n
    ensures 0.0 <= c as real / n as real <= 1.0
    ensures c as real / n as real == 1.0 <==> c == n
    ensures c as real / n as real == 0.0 <==> c == 0
  {
    var f := c as real / n as real;
    assert f * n as real == c as real;
  }

  // ---------------------------------------------------------------------
  // update_metrics

  /** `update_metrics(metrics, pbar, i, loss, output, target, mode)`.
      Python's `i % k` and Dafny's `i % k` differ for a negative `k`, but
      they are zero for the same `i`, which is all the test looks at. */
  function UpdateMetrics(m: Metrics, i: nat, b: BatchObs, mode: Mode): (r: Result<Logged, Error>)
    ensures r.Failure? <==> m.logInterval == 0
    ensures r.Success? ==>
              var n := r.value.metrics;
              // the same loss and accuracy go into the epoch sums
              && n.epochLoss == m.epochLoss + b.loss
              && n.epochAcc == m.epochAcc + b.accuracy
              // epoch, example count and interval are untouched
              && n.epoch == m.epoch && n.numExamples == m.numExamples && n.logInterval == m.logInterval
              // a flush happens exactly at the multiples of the interval ...
              && (r.value.writes != [] <==> i % m.logInterval == 0)
              // ... logs the window sums over the interval, and zeroes them
              && (i % m.logInterval == 0 ==>
                    && n.runningLoss == 0.0 && n.runningAcc == 0.0
                    && r.value.writes ==
                       [Write(LossTag(mode), (m.runningLoss + b.loss) / m.logInterval as real, (m.epoch - 1) * m.numExamples + i),
                        Write(AccuracyTag(mode), (m.runningAcc + b.accuracy) / m.logInterval as real, (m.epoch - 1) * m.numExamples + i)])
              // otherwise the window sums grow like the epoch sums
              && (i % m.logInterval != 0 ==>
                    n.runningLoss == m.runningLoss + b.loss && n.runningAcc == m.runningAcc + b.accuracy)
  {
    if m.logInterval == 0 then Failure(ZeroDivisionError)
    else
      var added := m.(epochLoss := m.epochLoss + b.loss, runningLoss := m.runningLoss + b.loss,
                      epochAcc := m.epochAcc + b.accuracy, runningAcc := m.runningAcc + b.accuracy);
      if i % m.logInterval == 0 then
        var step := (m.epoch - 1) * m.numExamples + i;
        var k := m.logInterval as real;
        Success(Logged(added.(runningLoss := 0.0, runningAcc := 0.0),
                       [Write(LossTag(mode), added.runningLoss / k, step),
                        Write(AccuracyTag(mode), added.runningAcc / k, step)]))
      else
        Success(Logged(added, []))
  }

  /** The batches of one pass, visited with indices 0, 1, ..., in order. */
  function Pass(m: Metrics, bs: seq<BatchObs>, mode: Mode): (r: Result<Logged, Error>)
    ensures r.Success? <==> (bs == [] || m.logInterval != 0)
    ensures r.Success? ==>
              && r.value.metrics.epoch == m.epoch
              && r.value.metrics.numExamples == m.numExamples
              && r.value.metrics.logInterval == m.logInterval
    decreases |bs|
  {
    if bs == [] then Success(Logged(m, []))
    else
      match Pass(m, bs[..|bs| - 1], mode)
      case Failure(e) => Failure(e)
      case Success(prev) =>
        match UpdateMetrics(prev.metrics, |bs| - 1, bs[|bs| - 1], mode)
        case Failure(e) => Failure(e)
        case Success(next) => Success(Logged(next.metrics, prev.writes + next.writes))
  }

  function SumLoss(bs: seq<BatchObs>): real
    decreases |bs|
  {
    if bs == [] then 0.0 else SumLoss(bs[..|bs| - 1]) + bs[|bs| - 1].loss
  }

  function SumAcc(bs: seq<BatchObs>): real
    decreases |bs|
  {
    if bs == [] then 0.0 else SumAcc(bs[..|bs| - 1]) + bs[|bs| - 1].accuracy
  }

  /** Over a pass, the epoch sums receive every batch value exactly once. */
  lemma {:induction false} PassSums(m: Metrics, bs: seq<BatchObs>, mode: Mode)
    requires Pass(m, bs, mode).Success?
    ensures Pass(m, bs, mode).value.metrics.epochLoss == m.epochLoss + SumLoss(bs)
    ensures Pass(m, bs, mode).value.metrics.epochAcc == m.epochAcc + SumAcc(bs)
    decreases |bs|
  {
    if bs != [] {
      PassSums(m, bs[..|bs| - 1], mode);
    }
  }

  /** The index at which the log window open after `t` batches started: the
      batch after the last flush, or 0 if there was none. */
  function WindowStart(t: nat, k: int): (s: nat)
    requires k != 0
    ensures s <= t
  {
    if t == 0 then 0 else if (t - 1) % k == 0 then t else WindowStart(t - 1, k)
  }

  /** After a pass the window sums hold exactly the batches since the last
      flush (plus what they held before, if no flush happened). */
  lemma {:induction false} PassWindow(m: Metrics, bs: seq<BatchObs>, mode: Mode)
    requires m.logInterval != 0
    ensures Pass(m, bs, mode).Success?
    ensures var s := WindowStart(|bs|, m.logInterval);
            var n := Pass(m, bs, mode).value.metrics;
            && n.runningLoss == (if s == 0 then m.runningLoss else 0.0) + SumLoss(bs[s..])
            && n.runningAcc == (if s == 0 then m.runningAcc else 0.0) + SumAcc(bs[s..])
    decreases |bs|
  {
    if bs != [] {
      var p := bs[..|bs| - 1];
      PassWindow(m, p, mode);
      var s := WindowStart(|bs|, m.logInterval);
      if (|bs| - 1) % m.logInterval == 0 {
        assert bs[s..] == [];
      } else {
        assert s == WindowStart(|p|, m.logInterval);
        assert bs[s..][..|bs[s..]| - 1] == p[s..];
      }
    }
  }

  /** The writes the last batch of a pass adds: a flush of the current
      window divided by the interval, at step `(epoch-1)*num_examples + i`,
      or nothing. */
  lemma {:induction false} FlushValue(m: Metrics, bs: seq<BatchObs>, mode: Mode)
    requires m.logInterval != 0 && bs != []
    ensures var i := |bs| - 1;
            var s := WindowStart(i, m.logInterval);
            var k := m.logInterval as real;
            var step := (m.epoch - 1) * m.numExamples + i;
            var before := Pass(m, bs[..i], mode).value.writes;
            var after := Pass(m, bs, mode).value.writes;
            && (i % m.logInterval != 0 ==> after == before)
            && (i % m.logInterval == 0 ==>
                  after == before +
                    [Write(LossTag(mode), ((if s == 0 then m.runningLoss else 0.0) + SumLoss(bs[s..])) / k, step),
                     Write(AccuracyTag(mode), ((if s == 0 then m.runningAcc else 0.0) + SumAcc(bs[s..])) / k, step)])
  {
    var i := |bs| - 1;
    var p := bs[..i];
    var s := WindowStart(i, m.logInterval);
    PassWindow(m, p, mode);
    assert bs[s..][..|bs[s..]| - 1] == p[s..];
  }

  /** Euclidean remainder is unique: a = k*q + r with 0 <= r < k means
      a % k == r. */
  lemma ModUnique(a: int, q: int, r: int, k: int)
    requires k > 0 && 0 <= r < k && a == k * q + r
    ensures a % k == r
  {
    var q', r' := a / k, a % k;
    var d := q - q';
    assert k * d == r' - r;
    assert d >= 1 ==> k * d >= k;
    assert d <= -1 ==> k * d <= -k;
  }

  /** `WindowStart` inside the q-th interval. */
  lemma {:induction false} WindowStartInInterval(q: nat, r: nat, k: int)
    requires k > 0 && r < k
    ensures WindowStart(q * k + r + 1, k) == q * k + 1
    decreases r
  {
    ModUnique(q * k, q, 0, k);
    if r > 0 {
      ModUnique(q * k + r, q, r, k);
      WindowStartInInterval(q, r - 1, k);
    }
  }

  /** With a positive interval k, the window flushed at index 0 holds one
      batch, and every later flush holds exactly k batches. */
  lemma WindowOfFlush(j: nat, k: int)
    requires k > 0 && j % k == 0 && j > 0
    ensures WindowStart(j, k) == j - k + 1
  {
    var q := j / k;
    assert j == q * k;
    assert q >= 1;
    assert j == (q - 1) * k + (k - 1) + 1;
    WindowStartInInterval(q - 1, k - 1, k);
  }

  lemma {:induction false} ConstantSumLoss(bs: seq<BatchObs>, v: real)
    requires forall j :: 0 <= j < |bs| ==> bs[j].loss == v
    ensures SumLoss(bs) == |bs| as real * v
    decreases |bs|
  {
    if bs != [] {
      ConstantSumLoss(bs[..|bs| - 1], v);
    }
  }

  /** A constant loss stream v logs v / k at the first flush (index 0,
      after a single batch, still divided by the interval k) and v at every
      later flush. */
  lemma ConstantStreamFlush(m: Metrics, bs: seq<BatchObs>, mode: Mode, v: real)
    requires m.logInterval > 0 && m.runningLoss == 0.0
    requires forall j :: 0 <= j < |bs| ==> bs[j].loss == v
    requires bs != [] && (|bs| - 1) % m.logInterval == 0
    ensures var w := Pass(m, bs, mode).value.writes;
            && |w| >= 2
            && w[|w| - 2] == Write(LossTag(mode),
                                   if |bs| == 1 then v / m.logInterval as real else v,
                                   (m.epoch - 1) * m.numExamples + |bs| - 1)
  {
    var i := |bs| - 1;
    var k := m.logInterval;
    FlushValue(m, bs, mode);
    var s := WindowStart(i, k);
    if i > 0 {
      WindowOfFlush(i, k);
      assert |bs[s..]| == k;
    }
    ConstantSumLoss(bs[s..], v);
  }

  /** One more batch extends a successful pass by one `update_metrics`. */
  lemma PassStep(m: Metrics, bs: seq<BatchObs>, b: BatchObs, mode: Mode, before: Logged, next: Logged)
    requires Pass(m, bs, mode) == Success(before)
    requires UpdateMetrics(before.metrics, |bs|, b, mode) == Success(next)
    ensures Pass(m, bs + [b], mode) == Success(Logged(next.metrics, before.writes + next.writes))
  {
    assert (bs + [b])[..|bs|] == bs;
  }

  /** Four batches with interval 2: the flush at index 0 logs the first
      batch's values divided by 2, the flush at index 2 the mean of the
      second and third batches, and the last batch stays in the unflushed
      window. */
  lemma LogIntervalTwo(mode: Mode, b0: BatchObs, b1: BatchObs, b2: BatchObs, b3: BatchObs)
    ensures Pass(Metrics(1, 4, 2, 0.0, 0.0, 0.0, 0.0), [b0, b1, b2, b3], mode) ==
              Success(Logged(Metrics(1, 4, 2, b0.loss + b1.loss + b2.loss + b3.loss, b3.loss,
                                     b0.accuracy + b1.accuracy + b2.accuracy + b3.accuracy, b3.accuracy),
                             [Write(LossTag(mode), b0.loss / 2.0, 0), Write(AccuracyTag(mode), b0.accuracy / 2.0, 0),
                              Write(LossTag(mode), (b1.loss + b2.loss) / 2.0, 2),
                              Write(AccuracyTag(mode), (b1.accuracy + b2.accuracy) / 2.0, 2)]))
  {
    var m := Metrics(1, 4, 2, 0.0, 0.0, 0.0, 0.0);
    var w0 := [Write(LossTag(mode), b0.loss / 2.0, 0), Write(AccuracyTag(mode), b0.accuracy / 2.0, 0)];
    var w2 := [Write(LossTag(mode), (b1.loss + b2.loss) / 2.0, 2),
               Write(AccuracyTag(mode), (b1.accuracy + b2.accuracy) / 2.0, 2)];
    var m1 := Metrics(1, 4, 2, b0.loss, 0.0, b0.accuracy, 0.0);
    var m2 := Metrics(1, 4, 2, b0.loss + b1.loss, b1.loss, b0.accuracy + b1.accuracy, b1.accuracy);
    var m3 := Metrics(1, 4, 2, b0.loss + b1.loss + b2.loss, 0.0, b0.accuracy + b1.accuracy + b2.accuracy, 0.0);
    var m4 := Metrics(1, 4, 2, b0.loss + b1.loss + b2.loss + b3.loss, b3.loss,
                      b0.accuracy + b1.accuracy + b2.accuracy + b3.accuracy, b3.accuracy);
    assert UpdateMetrics(m, 0, b0, mode) == Success(Logged(m1, w0));
    PassStep(m, [], b0, mode, Logged(m, []), Logged(m1, w0));
    assert [] + [b0] == [b0] && [] + w0 == w0;
    assert UpdateMetrics(m1, 1, b1, mode) == Success(Logged(m2, []));
    PassStep(m, [b0], b1, mode, Logged(m1, w0), Logged(m2, []));
    assert [b0] + [b1] == [b0, b1] && w0 + [] == w0;
    assert UpdateMetrics(m2, 2, b2, mode) == Success(Logged(m3, w2));
    PassStep(m, [b0, b1], b2, mode, Logged(m2, w0), Logged(m3, w2));
    assert [b0, b1] + [b2] == [b0, b1, b2];
    assert UpdateMetrics(m3, 3, b3, mode) == Success(Logged(m4, []));
    PassStep(m, [b0, b1, b2], b3, mode, Logged(m3, w0 + w2), Logged(m4, []));
    assert [b0, b1, b2] + [b3] == [b0, b1, b2, b3];
    assert w0 + w2 + [] == w0 + w2
           == [Write(LossTag(mode), b0.loss / 2.0, 0), Write(AccuracyTag(mode), b0.accuracy / 2.0, 0),
               Write(LossTag(mode), (b1.loss + b2.loss) / 2.0, 2),
               Write(AccuracyTag(mode), (b1.accuracy + b2.accuracy) / 2.0, 2)];
  }

  // ---------------------------------------------------------------------
  // get_results

  datatype Results = Results(metrics: Metrics, loss: real, writes: seq<Write>)

  /** `get_results(metrics, mode)`: the epoch means, written at step
      `epoch`, after which every sum is reset.  `num_examples` is the
      number of batches, so this is a mean over batches. */
  function GetResults(m: Metrics, mode: Mode): (r: Result<Results, Error>)
    ensures r.Failure? <==> m.numExamples == 0
    ensures r.Success? ==>
              && r.value.loss * m.numExamples as real == m.epochLoss
              && r.value.writes ==
                 [Write(EpochLossTag(mode), r.value.loss, m.epoch),
                  Write(EpochAccuracyTag(mode), 100.0 * m.epochAcc / m.numExamples as real, m.epoch)]
              && r.value.metrics == Reset(m)
  {
    if m.numExamples == 0 then Failure(ZeroDivisionError)
    else
      var n := m.numExamples as real;
      var totalLoss := m.epochLoss / n;
      var totalAcc := 100.0 * m.epochAcc / n;
      Success(Results(Reset(m), totalLoss,
                      [Write(EpochLossTag(mode), totalLoss, m.epoch), Write(EpochAccuracyTag(mode), totalAcc, m.epoch)]))
  }

  /** The metric side of `train_model` / `validate_model`: declare the
      batch count, run the batches, then `get_results`. */
  function RunLoader(m: Metrics, bs: seq<BatchObs>, mode: Mode): (r: Result<Results, Error>)
  {
    match Pass(SetNumExamples(m, |bs|), bs, mode)
    case Failure(e) => Failure(e)
    case Success(l) =>
      match GetResults(l.metrics, mode)
      case Failure(e) => Failure(e)
      case Success(res) => Success(Results(res.metrics, res.loss, l.writes + res.writes))
  }

  /** A pass over an empty loader, or with a zero interval, raises
      ZeroDivisionError.  Otherwise, starting from reset sums, the returned
      loss is the unweighted mean of the batch losses, the logged accuracy
      is 100 times the mean batch accuracy, and every sum is zero again. */
  lemma EpochMean(m: Metrics, bs: seq<BatchObs>, mode: Mode)
    requires m.epochLoss == 0.0 && m.epochAcc == 0.0
    ensures RunLoader(m, bs, mode).Failure? <==> (bs == [] || m.logInterval == 0)
    ensures RunLoader(m, bs, mode).Success? ==>
              var r := RunLoader(m, bs, mode).value;
              && r.loss == SumLoss(bs) / |bs| as real
              && r.writes[|r.writes| - 1] == Write(EpochAccuracyTag(mode), 100.0 * SumAcc(bs) / |bs| as real, m.epoch)
              && r.metrics == Reset(m).(numExamples := |bs|)
  {
    var m0 := SetNumExamples(m, |bs|);
    if bs != [] && m.logInterval != 0 {
      PassSums(m0, bs, mode);
    }
  }

  /** Batch accuracies in [0, 1] give an epoch accuracy in [0, 100]. */
  lemma {:induction false} SumAccBounds(bs: seq<BatchObs>)
    requires forall j :: 0 <= j < |bs| ==> 0.0 <= bs[j].accuracy <= 1.0
    ensures 0.0 <= SumAcc(bs) <= |bs| as real
    decreases |bs|
  {
    if bs != [] {
      SumAccBounds(bs[..|bs| - 1]);
    }
  }

  lemma AccuracyPercentBounds(m: Metrics, bs: seq<BatchObs>, mode: Mode)
    requires m.epochLoss == 0.0 && m.epochAcc == 0.0
    requires forall j :: 0 <= j < |bs| ==> 0.0 <= bs[j].accuracy <= 1.0
    requires RunLoader(m, bs, mode).Success?
    ensures var w := RunLoader(m, bs, mode).value.writes;
            0.0 <= w[|w| - 1].value <= 100.0
  {
    EpochMean(m, bs, mode);
    SumAccBounds(bs);
  }

  // ---------------------------------------------------------------------
  // Best-loss tracking and the epoch loop of `main`

  /** `is_best = val_loss < best_loss; best_loss = min(val_loss, best_loss)`
      with `None` for `np.inf`. */
  function CheckBest(best: Option<real>, valLoss: real): (r: (bool, Option<real>))
    ensures r.0 <==> (best.None? || valLoss < best.value)
    ensures r.1.Some? && r.1.value <= valLoss
    ensures best.Some? ==> r.1.value <= best.value
    ensures r.1 == Some(valLoss) || r.1 == best
  {
    var isBest := best.None? || valLoss < best.value;
    (isBest, if best.Some? && best.value < valLoss then best else Some(valLoss))
  }

  /** The `is_best` flags of a run and the final `best_loss`, starting from
      `np.inf`. */
  function TrackBest(vs: seq<real>): (r: (seq<bool>, Option<real>))
    ensures |r.0| == |vs|
    ensures r.1.None? <==> vs == []
    decreases |vs|
  {
    if vs == [] then ([], None)
    else
      var prev := TrackBest(vs[..|vs| - 1]);
      var step := CheckBest(prev.1, vs[|vs| - 1]);
      (prev.0 + [step.0], step.1)
  }

  /** `best_loss` is always the minimum validation loss seen so far. */
  lemma {:induction false} TrackBestIsMin(vs: seq<real>)
    requires vs != []
    ensures TrackBest(vs).1.value in vs
    ensures forall j :: 0 <= j < |vs| ==> TrackBest(vs).1.value <= vs[j]
    decreases |vs|
  {
    var p := vs[..|vs| - 1];
    if p != [] {
      TrackBestIsMin(p);
      assert forall j :: 0 <= j < |p| ==> vs[j] == p[j];
    }
  }

  /** `best_loss` never increases. */
  lemma BestNeverIncreases(vs: seq<real>, v: real)
    requires vs != []
    ensures TrackBest(vs + [v]).1.value <= TrackBest(vs).1.value
  {
    assert (vs + [v])[..|vs|] == vs;
  }

  /** An epoch is flagged best exactly when its validation loss is strictly
      below every earlier one; ties are not best. */
  lemma {:induction false} BestIffStrictlyBelowAll(vs: seq<real>)
    ensures forall t :: 0 <= t < |vs| ==>
              (TrackBest(vs).0[t] <==> forall s :: 0 <= s < t ==> vs[t] < vs[s])
    decreases |vs|
  {
    if vs != [] {
      var p := vs[..|vs| - 1];
      BestIffStrictlyBelowAll(p);
      assert forall j :: 0 <= j < |p| ==> vs[j] == p[j];
      if p != [] {
        TrackBestIsMin(p);
        var b := TrackBest(p).1.value;
        var i :| 0 <= i < |p| && p[i] == b;
        assert TrackBest(vs).0[|vs| - 1] <==> vs[|vs| - 1] < b;
      }
    }
  }

  /** What `main` reads from a loaded checkpoint. */
  datatype LoadedCheckpoint = LoadedCheckpoint(runName: string, epoch: int)

  /** One `util.save_checkpoint` call: the run, the stored epoch and the
      best flag (model, optimizer and RNG state are opaque and omitted). */
  datatype Saved = Saved(runName: string, epoch: int, isBest: bool)

  /** `checkpoint['epoch'] if checkpoint else 1` */
  function StartEpoch(ckpt: Option<LoadedCheckpoint>): int
  {
    if ckpt.Some? then ckpt.value.epoch else 1
  }

  /** Python's `range(start, last + 1)`. */
  function EpochRange(start: int, last: int): (r: seq<int>)
    ensures |r| == if last < start then 0 else last - start + 1
    ensures forall j :: 0 <= j < |r| ==> r[j] == start + j
  {
    if last < start then [] else seq(last - start + 1, j => start + j)
  }

  /** The epoch loop of `main`: `valLoss(e)` is what the validation pass of
      epoch `e` returns, and `freshName` what `util.get_run_name()` gives. */
  function Main(ckpt: Option<LoadedCheckpoint>, freshName: string, epochs: int, valLoss: int -> real): (saves: seq<Saved>)
    // epochs start..args.epochs inclusive, one save each
    ensures |saves| == if epochs < StartEpoch(ckpt) then 0 else epochs - StartEpoch(ckpt) + 1
    ensures forall j :: 0 <= j < |saves| ==> saves[j].epoch == StartEpoch(ckpt) + j
    ensures forall j :: 0 <= j < |saves| ==> saves[j].runName == (if ckpt.Some? then ckpt.value.runName else freshName)
    // a save is best iff its validation loss beats every earlier one of this run
    ensures forall j :: 0 <= j < |saves| ==>
              (saves[j].isBest <==> forall s :: 0 <= s < j ==> valLoss(saves[j].epoch) < valLoss(saves[s].epoch))
    // best_loss is not restored, so the first epoch of every run is best
    ensures saves != [] ==> saves[0].isBest
    // a resumed run starts by re-running the epoch stored in the checkpoint
    ensures ckpt.Some? && saves != [] ==> saves[0].epoch == ckpt.value.epoch
  {
    var runName := if ckpt.Some? then ckpt.value.runName else freshName;
    var range := EpochRange(StartEpoch(ckpt), epochs);
    var vs := seq(|range|, j requires 0 <= j < |range| => valLoss(range[j]));
    var flags := TrackBest(vs).0;
    BestIffStrictlyBelowAll(vs);
    var saves := seq(|range|, j requires 0 <= j < |range| => Saved(runName, range[j], flags[j]));
    assert forall j :: 0 <= j < |saves| ==> saves[j].isBest == flags[j] && valLoss(saves[j].epoch) == vs[j];
    saves
  }
}
