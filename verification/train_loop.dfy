/** The training-loop driver of src/train_temp.py: `train_and_validate` and
    the epoch loop of `main`, as a function that emits the trace of calls the
    driver makes on its collaborators.

    Model, optimizer, criterion, `MetricTracker`, `util` and the three RNGs
    are not part of this model.  Their combined state is an abstract world
    `W`; every call that returns nothing moves the world through
    `Env.apply`, and the calls whose results the driver uses are the other
    fields of `Env`.  Values the driver only hands on (batches, parameter
    and RNG states, metric snapshots) are opaque `Token`s. */
module TrainLoop {
  import opened Wrappers
  import opened Modes

  datatype Token = Token(id: int)

  /** The dictionary passed to `util.save_checkpoint`. */
  datatype Bundle = Bundle(
    modelInit: Token,
    stateDict: Token,
    optimizerState: Token,
    rngState: Token,
    npRngState: Token,
    torchRngState: Token,
    runName: string,
    metricObj: Token)

  /** What the driver reads off its collaborators when it saves:
      `model.state_dict()`, `optimizer.state_dict()`, `random.getstate()`,
      `np.random.get_state()`, `torch.get_rng_state()`, `metrics.json_repr()`. */
  datatype Capture = Capture(
    stateDict: Token,
    optimizerState: Token,
    rngState: Token,
    npRngState: Token,
    torchRngState: Token,
    metricObj: Token)

  /** The keys of the loaded `checkpoint` dictionary that `main` reads
      itself; a fresh start is the empty dictionary, `Checkpoint(None, None)`. */
  datatype Checkpoint = Checkpoint(runName: Option<string>, metricObj: Option<Token>)

  /** One call of the driver on a collaborator. */
  datatype Event =
    | VerifyModel                                        // verify_model(...)
    | LoadStateDict                                      // util.load_state_dict(checkpoint, ...)
    | BuildTracker(runName: string, metricObj: Option<Token>) // MetricTracker(..., **metric_checkpoint)
    | AddNetwork                                         // metrics.add_network(...)
    | Visualize                                          // visualize(...)
    | RestoreRng                                         // util.set_rng_state(checkpoint)
    | NextEpoch(epoch: int)                              // metrics.next_epoch()
    | SetMode(mode: Mode)                                // model.train()/eval() and set_grad_enabled
    | SetNumExamples(n: nat)                             // metrics.set_num_examples(len(loader))
    | ZeroGrad(index: nat)                               // optimizer.zero_grad()
    | Forward(index: nat, batch: Token)                  // output = model(data)
    | ComputeLoss(index: nat)                            // loss = criterion(output, target)
    | Backward(index: nat)                               // loss.backward()
    | OptimizerStep(index: nat)                          // optimizer.step()
    | BatchUpdate(index: nat, batch: Token, mode: Mode)  // metrics.batch_update(i, data, ..., mode)
    | EpochResults(mode: Mode, loss: real)               // metrics.get_epoch_results(mode)
    | UpdateBest(valLoss: real, isBest: bool)            // metrics.update_best_metric(val_loss)
    | Save(bundle: Bundle, isBest: bool)                 // util.save_checkpoint(bundle, run_name, is_best)
    | VisualizeTrained                                   // visualize_trained(...)

  /** The collaborators, as functions of the world. */
  datatype Env<!W> = Env(
    apply: (W, Event) -> W,
    epochResults: (W, Mode) -> (W, real),
    updateBest: (W, real) -> (W, bool),
    trackerEpoch: W -> int,
    capture: W -> Capture)

  /** Applies calls that return nothing, in order. */
  function RunEvents<W>(env: Env<W>, w: W, es: seq<Event>): W
    decreases |es|
  {
    if es == [] then w else env.apply(RunEvents(env, w, es[..|es| - 1]), es[|es| - 1])
  }

  // ---------------------------------------------------------------------
  // Replaying a trace against the collaborators

  /** The fields of a saved bundle the driver reads off its collaborators. */
  predicate Captured(b: Bundle, c: Capture)
  {
    && b.stateDict == c.stateDict && b.optimizerState == c.optimizerState
    && b.rngState == c.rngState && b.npRngState == c.npRngState
    && b.torchRngState == c.torchRngState && b.metricObj == c.metricObj
  }

  /** A call whose result, if any, the driver ignores. */
  predicate Silent(e: Event)
  {
    !e.EpochResults? && !e.UpdateBest? && !e.Save?
  }

  /** Replays one recorded call in world `w`: `get_epoch_results` and
      `update_best_metric` must return there what the trace records, and a
      save must carry what the driver reads off the collaborators in `w`.
      `None` when the record disagrees with the collaborators. */
  function ReplayStep<W>(env: Env<W>, w: W, e: Event): Option<W>
  {
    match e
    case EpochResults(mode, loss) =>
      var (w', l) := env.epochResults(w, mode);
      if l == loss then Some(w') else None
    case UpdateBest(valLoss, isBest) =>
      var (w', b) := env.updateBest(w, valLoss);
      if b == isBest then Some(w') else None
    case Save(bundle, _) =>
      if Captured(bundle, env.capture(w)) then Some(env.apply(w, e)) else None
    case _ => Some(env.apply(w, e))
  }

  /** Replays a trace from `w`, giving the world it ends in, or `None` if
      some recorded result is not what the collaborators return. */
  function Replay<W>(env: Env<W>, w: W, es: seq<Event>): Option<W>
    decreases |es|
  {
    if es == [] then Some(w)
    else match Replay(env, w, es[..|es| - 1])
      case None => None
      case Some(w1) => ReplayStep(env, w1, es[|es| - 1])
  }

  lemma ReplaySnoc<W>(env: Env<W>, w: W, es: seq<Event>, e: Event)
    ensures Replay(env, w, es).None? ==> Replay(env, w, es + [e]).None?
    ensures Replay(env, w, es).Some? ==> Replay(env, w, es + [e]) == ReplayStep(env, Replay(env, w, es).value, e)
  {
    assert (es + [e])[..|es|] == es;
  }

  /** Replaying two traces in a row is replaying their concatenation. */
  lemma {:induction false} ReplayConcat<W>(env: Env<W>, w: W, a: seq<Event>, b: seq<Event>)
    ensures Replay(env, w, a).None? ==> Replay(env, w, a + b).None?
    ensures Replay(env, w, a).Some? ==> Replay(env, w, a + b) == Replay(env, Replay(env, w, a).value, b)
    decreases |b|
  {
    if b == [] {
      assert a + b == a;
    } else {
      var b' := b[..|b| - 1];
      var e := b[|b| - 1];
      assert a + b == (a + b') + [e];
      assert b == b' + [e];
      ReplayConcat(env, w, a, b');
      ReplaySnoc(env, w, a + b', e);
      if Replay(env, w, a).Some? {
        ReplaySnoc(env, Replay(env, w, a).value, b', e);
      }
    }
  }

  /** Calls without results replay exactly as they run. */
  lemma {:induction false} ReplaySilent<W>(env: Env<W>, w: W, es: seq<Event>)
    requires forall j :: 0 <= j < |es| ==> Silent(es[j])
    ensures Replay(env, w, es) == Some(RunEvents(env, w, es))
    decreases |es|
  {
    if es != [] {
      ReplaySilent(env, w, es[..|es| - 1]);
    }
  }

  // ---------------------------------------------------------------------
  // Counting events by kind

  datatype Kind =
    | KSetup | KRestoreRng | KNextEpoch | KSetMode | KSetNumExamples
    | KZeroGrad | KForward | KComputeLoss | KBackward | KOptimizerStep
    | KBatchUpdate | KEpochResults | KUpdateBest | KSave | KVisualizeTrained

  function KindOf(e: Event): Kind
  {
    match e
    case VerifyModel => KSetup
    case LoadStateDict => KSetup
    case BuildTracker(_, _) => KSetup
    case AddNetwork => KSetup
    case Visualize => KSetup
    case RestoreRng => KRestoreRng
    case NextEpoch(_) => KNextEpoch
    case SetMode(_) => KSetMode
    case SetNumExamples(_) => KSetNumExamples
    case ZeroGrad(_) => KZeroGrad
    case Forward(_, _) => KForward
    case ComputeLoss(_) => KComputeLoss
    case Backward(_) => KBackward
    case OptimizerStep(_) => KOptimizerStep
    case BatchUpdate(_, _, _) => KBatchUpdate
    case EpochResults(_, _) => KEpochResults
    case UpdateBest(_, _) => KUpdateBest
    case Save(_, _) => KSave
    case VisualizeTrained => KVisualizeTrained
  }

  /** 1 when `e` is of kind `k`, else 0. */
  function Ind(e: Event, k: Kind): nat
  {
    if KindOf(e) == k then 1 else 0
  }

  /** The number of events of kind `k`. */
  function Count(es: seq<Event>, k: Kind): (n: nat)
    decreases |es|
  {
    if es == [] then 0 else Count(es[..|es| - 1], k) + Ind(es[|es| - 1], k)
  }

  lemma CountSnoc(es: seq<Event>, e: Event, k: Kind)
    ensures Count(es + [e], k) == Count(es, k) + Ind(e, k)
  {
    assert (es + [e])[..|es|] == es;
  }

  /** Counting a prefix one event longer. */
  lemma CountPrefix(es: seq<Event>, j: nat, k: Kind)
    requires 0 < j <= |es|
    ensures Count(es[..j], k) == Count(es[..j - 1], k) + Ind(es[j - 1], k)
  {
    assert es[..j][..j - 1] == es[..j - 1];
  }

  lemma CountThree(es: seq<Event>, k: Kind)
    requires |es| == 3
    ensures Count(es, k) == Ind(es[0], k) + Ind(es[1], k) + Ind(es[2], k)
  {
    assert es[..0] == [];
    CountPrefix(es, 1, k);
    CountPrefix(es, 2, k);
    CountPrefix(es, 3, k);
    assert es[..3] == es;
  }

  lemma CountSix(es: seq<Event>, k: Kind)
    requires |es| == 6
    ensures Count(es, k) == Ind(es[0], k) + Ind(es[1], k) + Ind(es[2], k) + Ind(es[3], k) + Ind(es[4], k) + Ind(es[5], k)
  {
    assert es[..0] == [];
    CountPrefix(es, 1, k);
    CountPrefix(es, 2, k);
    CountPrefix(es, 3, k);
    CountPrefix(es, 4, k);
    CountPrefix(es, 5, k);
    CountPrefix(es, 6, k);
    assert es[..6] == es;
  }

  lemma CountPair(a: Event, b: Event, k: Kind)
    ensures Count([a, b], k) == Ind(a, k) + Ind(b, k)
  {
    var es := [a, b];
    assert es[..0] == [];
    CountPrefix(es, 1, k);
    CountPrefix(es, 2, k);
    assert es[..2] == es;
  }

  lemma {:induction false} CountConcat(a: seq<Event>, b: seq<Event>, k: Kind)
    ensures Count(a + b, k) == Count(a, k) + Count(b, k)
    decreases |b|
  {
    if b == [] {
      assert a + b == a;
    } else {
      var b' := b[..|b| - 1];
      assert a + b == (a + b') + [b[|b| - 1]];
      CountSnoc(a + b', b[|b| - 1], k);
      CountConcat(a, b', k);
    }
  }

  /** `n` copies of `c` are one copy more than `n - 1` copies. */
  lemma MulSucc(n: nat, c: nat)
    requires n > 0
    ensures n * c == (n - 1) * c + c
  {
  }

  /** The subsequence of `batch_update` calls. */
  function Updates(es: seq<Event>): (r: seq<Event>)
    ensures forall j :: 0 <= j < |r| ==> r[j].BatchUpdate?
    decreases |es|
  {
    if es == [] then []
    else Updates(es[..|es| - 1]) + (if es[|es| - 1].BatchUpdate? then [es[|es| - 1]] else [])
  }

  lemma UpdatesSnoc(es: seq<Event>, e: Event)
    ensures Updates(es + [e]) == Updates(es) + (if e.BatchUpdate? then [e] else [])
  {
    assert (es + [e])[..|es|] == es;
  }

  lemma {:induction false} UpdatesConcat(a: seq<Event>, b: seq<Event>)
    ensures Updates(a + b) == Updates(a) + Updates(b)
    decreases |b|
  {
    if b == [] {
      assert a + b == a;
    } else {
      var b' := b[..|b| - 1];
      assert a + b == (a + b') + [b[|b| - 1]];
      assert b == b' + [b[|b| - 1]];
      UpdatesSnoc(a + b', b[|b| - 1]);
      UpdatesSnoc(b', b[|b| - 1]);
      UpdatesConcat(a, b');
    }
  }

  // ---------------------------------------------------------------------
  // train_and_validate

  /** The calls made for batch `i` of a pass: in TRAIN mode zero_grad,
      forward, loss, backward and step, then `batch_update`; in VAL mode
      only forward, loss and `batch_update`. */
  function BatchEvents(mode: Mode, i: nat, batch: Token): seq<Event>
  {
    if mode == Train then
      [ZeroGrad(i), Forward(i, batch), ComputeLoss(i), Backward(i), OptimizerStep(i), BatchUpdate(i, batch, mode)]
    else
      [Forward(i, batch), ComputeLoss(i), BatchUpdate(i, batch, mode)]
  }

  /** Whether a batch makes a call of kind `k` (it makes at most one):
      forward, loss and metric update always, the optimizer's three calls
      only in TRAIN. */
  predicate InBatch(mode: Mode, k: Kind)
  {
    || k == KForward || k == KComputeLoss || k == KBatchUpdate
    || (mode == Train && (k == KZeroGrad || k == KBackward || k == KOptimizerStep))
  }

  lemma BatchEventsCount(mode: Mode, i: nat, batch: Token, k: Kind)
    ensures Count(BatchEvents(mode, i, batch), k) == if InBatch(mode, k) then 1 else 0
  {
    if mode == Train {
      TrainBatchCount(i, batch, k);
    } else {
      ValBatchCount(i, batch, k);
    }
  }

  lemma TrainBatchCount(i: nat, batch: Token, k: Kind)
    ensures Count(BatchEvents(Train, i, batch), k) == if InBatch(Train, k) then 1 else 0
  {
    CountSix(BatchEvents(Train, i, batch), k);
  }

  lemma ValBatchCount(i: nat, batch: Token, k: Kind)
    ensures Count(BatchEvents(Val, i, batch), k) == if InBatch(Val, k) then 1 else 0
  {
    CountThree(BatchEvents(Val, i, batch), k);
  }

  /** The only metric update of a batch is the last of its calls. */
  lemma BatchEventsUpdates(mode: Mode, i: nat, batch: Token)
    ensures Updates(BatchEvents(mode, i, batch)) == [BatchUpdate(i, batch, mode)]
  {
    var es := BatchEvents(mode, i, batch);
    var p := es[..|es| - 1];
    assert es == p + [es[|es| - 1]];
    UpdatesSnoc(p, es[|es| - 1]);
    assert forall j :: 0 <= j < |p| ==> !p[j].BatchUpdate?;
    UpdatesNone(p);
  }

  /** A trace without metric updates has none to list. */
  lemma {:induction false} UpdatesNone(es: seq<Event>)
    requires forall j :: 0 <= j < |es| ==> !es[j].BatchUpdate?
    ensures Updates(es) == []
    decreases |es|
  {
    if es != [] {
      UpdatesNone(es[..|es| - 1]);
    }
  }

  /** The loop `for i, (data, target) in enumerate(loader)`. */
  function Batches(mode: Mode, loader: seq<Token>): seq<Event>
    decreases |loader|
  {
    if loader == [] then []
    else Batches(mode, loader[..|loader| - 1]) + BatchEvents(mode, |loader| - 1, loader[|loader| - 1])
  }

  /** Each batch makes each of its calls once. */
  lemma {:induction false} BatchesCount(mode: Mode, loader: seq<Token>, k: Kind)
    ensures Count(Batches(mode, loader), k) == if InBatch(mode, k) then |loader| else 0
    decreases |loader|
  {
    if loader != [] {
      var n := |loader|;
      BatchesCount(mode, loader[..n - 1], k);
      CountConcat(Batches(mode, loader[..n - 1]), BatchEvents(mode, n - 1, loader[n - 1]), k);
      BatchEventsCount(mode, n - 1, loader[n - 1], k);
    }
  }

  /** The metric updates one per batch, in loader order, with the
      `enumerate` indices 0..n-1. */
  function Indexed(mode: Mode, loader: seq<Token>): (r: seq<Event>)
    ensures |r| == |loader|
  {
    seq(|loader|, i requires 0 <= i < |loader| => BatchUpdate(i, loader[i], mode))
  }

  lemma IndexedSnoc(mode: Mode, loader: seq<Token>)
    requires loader != []
    ensures Indexed(mode, loader) == Indexed(mode, loader[..|loader| - 1]) + [BatchUpdate(|loader| - 1, loader[|loader| - 1], mode)]
  {
  }

  /** The loop updates the metric exactly as `Indexed` lists. */
  lemma {:induction false} BatchesUpdates(mode: Mode, loader: seq<Token>)
    ensures Updates(Batches(mode, loader)) == Indexed(mode, loader)
    decreases |loader|
  {
    if loader != [] {
      var n := |loader|;
      BatchesUpdates(mode, loader[..n - 1]);
      UpdatesConcat(Batches(mode, loader[..n - 1]), BatchEvents(mode, n - 1, loader[n - 1]));
      BatchEventsUpdates(mode, n - 1, loader[n - 1]);
      IndexedSnoc(mode, loader);
    }
  }

  datatype PassOut<W> = PassOut(world: W, trace: seq<Event>, loss: real)

  /** The calls a pass makes before `get_epoch_results`. */
  function PassCalls(mode: Mode, loader: seq<Token>): seq<Event>
  {
    [SetMode(mode), SetNumExamples(|loader|)] + Batches(mode, loader)
  }

  /** `trace` is the trace of one pass over `loader` in `mode` returning `loss`. */
  predicate IsPass(trace: seq<Event>, mode: Mode, loader: seq<Token>, loss: real)
  {
    trace == PassCalls(mode, loader) + [EpochResults(mode, loss)]
  }

  /** The calls of the batch loop return nothing the driver uses. */
  lemma {:induction false} BatchesSilent(mode: Mode, loader: seq<Token>)
    ensures forall j :: 0 <= j < |Batches(mode, loader)| ==> Silent(Batches(mode, loader)[j])
    decreases |loader|
  {
    if loader != [] {
      var n := |loader|;
      BatchesSilent(mode, loader[..n - 1]);
    }
  }

  /** Before `get_epoch_results`, a pass replays as it runs. */
  lemma PassCallsReplay<W>(env: Env<W>, w: W, mode: Mode, loader: seq<Token>)
    ensures Replay(env, w, PassCalls(mode, loader)) == Some(RunEvents(env, w, PassCalls(mode, loader)))
  {
    BatchesSilent(mode, loader);
    ReplaySilent(env, w, PassCalls(mode, loader));
  }

  /** `train_and_validate(model, loader, optimizer, criterion, device, metrics, mode)` */
  function Pass<W>(env: Env<W>, w: W, mode: Mode, loader: seq<Token>): (r: PassOut<W>)
    ensures IsPass(r.trace, mode, loader, r.loss)
    // the returned loss and world are what `get_epoch_results(mode)` gives
    ensures Replay(env, w, r.trace) == Some(r.world)
  {
    var calls := PassCalls(mode, loader);
    var (w', loss) := env.epochResults(RunEvents(env, w, calls), mode);
    PassCallsReplay(env, w, mode, loader);
    ReplaySnoc(env, w, calls, EpochResults(mode, loss));
    PassOut(w', calls + [EpochResults(mode, loss)], loss)
  }

  /** How many calls of kind `k` a pass over `n` batches makes. */
  function PassCount(mode: Mode, n: nat, k: Kind): nat
  {
    if k == KSetMode || k == KSetNumExamples || k == KEpochResults then 1
    else if InBatch(mode, k) then n
    else 0
  }

  /** A pass sets the mode, declares the batch count before any
      `batch_update`, and ends with `get_epoch_results(mode)`. */
  lemma PassOrder(trace: seq<Event>, mode: Mode, loader: seq<Token>, loss: real)
    requires IsPass(trace, mode, loader, loss)
    ensures |trace| >= 3
    ensures trace[0] == SetMode(mode) && trace[1] == SetNumExamples(|loader|)
    ensures trace[|trace| - 1] == EpochResults(mode, loss)
    ensures forall j :: 0 <= j < |trace| && trace[j].BatchUpdate? ==> 1 < j < |trace| - 1
  {
  }

  /** A pass over `n` batches whose batch calls are counted correctly makes
      one `SetMode`, one `set_num_examples` and one `get_epoch_results` besides. */
  lemma PassFrame(mode: Mode, n: nat, body: seq<Event>, loss: real, k: Kind)
    requires Count(body, k) == if InBatch(mode, k) then n else 0
    ensures Count([SetMode(mode), SetNumExamples(n)] + body + [EpochResults(mode, loss)], k) == PassCount(mode, n, k)
  {
    CountPair(SetMode(mode), SetNumExamples(n), k);
    CountConcat([SetMode(mode), SetNumExamples(n)], body, k);
    CountSnoc([SetMode(mode), SetNumExamples(n)] + body, EpochResults(mode, loss), k);
  }

  /** Over a whole pass: `set_num_examples` is called once, the metric is
      updated once per batch, and the optimizer is stepped once per batch in
      TRAIN and never in VAL. */
  lemma PassCounts(trace: seq<Event>, mode: Mode, loader: seq<Token>, loss: real, k: Kind)
    requires IsPass(trace, mode, loader, loss)
    ensures Count(trace, k) == PassCount(mode, |loader|, k)
  {
    BatchesCount(mode, loader, k);
    PassFrame(mode, |loader|, Batches(mode, loader), loss, k);
  }

  /** The metric updates of a pass are those of its batches, in loader order. */
  lemma PassUpdates(trace: seq<Event>, mode: Mode, loader: seq<Token>, loss: real)
    requires IsPass(trace, mode, loader, loss)
    ensures Updates(trace) == Indexed(mode, loader)
  {
    var head := [SetMode(mode), SetNumExamples(|loader|)];
    UpdatesNone(head);
    UpdatesConcat(head, Batches(mode, loader));
    UpdatesSnoc(head + Batches(mode, loader), EpochResults(mode, loss));
    BatchesUpdates(mode, loader);
  }

  // ---------------------------------------------------------------------
  // One epoch of `main`

  datatype EpochRecord = EpochRecord(
    epoch: int,
    train: seq<Event>,
    trainLoss: real,
    val: seq<Event>,
    valLoss: real,
    isBest: bool,
    bundle: Bundle)

  /** The calls of one epoch, in order. */
  function EpochTrace(r: EpochRecord): seq<Event>
  {
    [NextEpoch(r.epoch)] + r.train + r.val + [UpdateBest(r.valLoss, r.isBest), Save(r.bundle, r.isBest)]
  }

  /** A well-formed epoch: a TRAIN pass over the training loader, a VAL pass
      over the validation loader, and a bundle carrying the run's name and
      model parameters. */
  predicate EpochShape(r: EpochRecord, trainLoader: seq<Token>, valLoader: seq<Token>, runName: string, initParams: Token)
  {
    && IsPass(r.train, Train, trainLoader, r.trainLoss)
    && IsPass(r.val, Val, valLoader, r.valLoss)
    && r.bundle.runName == runName
    && r.bundle.modelInit == initParams
  }

  datatype EpochOut<W> = EpochOut(world: W, record: EpochRecord)

  /** One iteration of the epoch loop: next_epoch, TRAIN pass, VAL pass,
      best check on the validation loss, save. */
  function Epoch<W>(env: Env<W>, w: W, epoch: int, trainLoader: seq<Token>, valLoader: seq<Token>,
                    runName: string, initParams: Token): (r: EpochOut<W>)
    ensures r.record.epoch == epoch
    ensures EpochShape(r.record, trainLoader, valLoader, runName, initParams)
    // the best flag is `update_best_metric`'s answer to the VAL loss, and the
    // saved states are those of the collaborators at the save
    ensures Replay(env, w, EpochTrace(r.record)) == Some(r.world)
  {
    var w0 := env.apply(w, NextEpoch(epoch));
    var tp := Pass(env, w0, Train, trainLoader);
    var vp := Pass(env, tp.world, Val, valLoader);
    var (w', isBest) := env.updateBest(vp.world, vp.loss);
    var c := env.capture(w');
    var bundle := Bundle(initParams, c.stateDict, c.optimizerState, c.rngState, c.npRngState,
                         c.torchRngState, runName, c.metricObj);
    var rec := EpochRecord(epoch, tp.trace, tp.loss, vp.trace, vp.loss, isBest, bundle);
    EpochReplays(env, w, rec, w0, tp.world, vp.world, w');
    EpochOut(env.apply(w', Save(bundle, isBest)), rec)
  }

  /** An epoch replays through the worlds its calls pass: after
      `next_epoch`, after the TRAIN pass, after the VAL pass, and after the
      best check. */
  lemma EpochReplays<W>(env: Env<W>, w: W, r: EpochRecord, w0: W, wt: W, wv: W, wb: W)
    requires w0 == env.apply(w, NextEpoch(r.epoch))
    requires Replay(env, w0, r.train) == Some(wt)
    requires Replay(env, wt, r.val) == Some(wv)
    requires env.updateBest(wv, r.valLoss) == (wb, r.isBest)
    requires Captured(r.bundle, env.capture(wb))
    ensures Replay(env, w, EpochTrace(r)) == Some(env.apply(wb, Save(r.bundle, r.isBest)))
  {
    var head := [NextEpoch(r.epoch)];
    var ub, sv := UpdateBest(r.valLoss, r.isBest), Save(r.bundle, r.isBest);
    assert EpochTrace(r) == head + r.train + r.val + [ub] + [sv];
    ReplaySnoc(env, w, [], NextEpoch(r.epoch));
    assert [] + head == head;
    ReplayConcat(env, w, head, r.train);
    ReplayConcat(env, w, head + r.train, r.val);
    ReplaySnoc(env, w, head + r.train + r.val, ub);
    ReplaySnoc(env, w, head + r.train + r.val + [ub], sv);
  }

  /** Within a well-formed epoch record the order is next_epoch, the TRAIN
      pass, the VAL pass, the best check and the save; the best check is
      recorded with the loss the VAL pass recorded, and the save with its
      verdict. */
  lemma TraceOrder(r: EpochRecord, trainLoader: seq<Token>, valLoader: seq<Token>, runName: string, initParams: Token)
    requires EpochShape(r, trainLoader, valLoader, runName, initParams)
    ensures var t := EpochTrace(r);
            && t[0] == NextEpoch(r.epoch)
            && t[1] == SetMode(Train)
            && t[1 + |r.train|] == SetMode(Val)
            && t[|t| - 3] == EpochResults(Val, r.valLoss)
            && t[|t| - 2] == UpdateBest(r.valLoss, r.isBest)
            && t[|t| - 1] == Save(r.bundle, r.isBest)
  {
    PassOrder(r.train, Train, trainLoader, r.trainLoss);
    PassOrder(r.val, Val, valLoader, r.valLoss);
  }

  /** One epoch of the driver: next_epoch, the TRAIN pass, the VAL pass, the
      best check and the save, in that order.  The best check is fed the
      loss `get_epoch_results(VAL)` returned, its flag is what
      `update_best_metric` answered, and the save carries that flag and the
      collaborators' states at that point. */
  lemma EpochOrder<W>(env: Env<W>, w: W, epoch: int, trainLoader: seq<Token>, valLoader: seq<Token>,
                      runName: string, initParams: Token)
    ensures var r := Epoch(env, w, epoch, trainLoader, valLoader, runName, initParams);
            var t := EpochTrace(r.record);
            && t[0] == NextEpoch(epoch)
            && t[1] == SetMode(Train)
            && t[1 + |r.record.train|] == SetMode(Val)
            && t[|t| - 3] == EpochResults(Val, r.record.valLoss)
            && t[|t| - 2] == UpdateBest(r.record.valLoss, r.record.isBest)
            && t[|t| - 1] == Save(r.record.bundle, r.record.isBest)
            && Replay(env, w, t) == Some(r.world)
  {
    var r := Epoch(env, w, epoch, trainLoader, valLoader, runName, initParams);
    TraceOrder(r.record, trainLoader, valLoader, runName, initParams);
  }

  /** How many calls of kind `k` one epoch makes. */
  function EpochCount(k: Kind, nTrain: nat, nVal: nat): nat
  {
    match k
    case KNextEpoch => 1
    case KUpdateBest => 1
    case KSave => 1
    case KSetMode => 2
    case KSetNumExamples => 2
    case KEpochResults => 2
    case KForward => nTrain + nVal
    case KComputeLoss => nTrain + nVal
    case KBatchUpdate => nTrain + nVal
    case KZeroGrad => nTrain
    case KBackward => nTrain
    case KOptimizerStep => nTrain
    case _ => 0
  }

  /** One epoch makes the calls `EpochCount` counts: in particular it steps
      the optimizer once per training batch only. */
  lemma EpochCounts(r: EpochRecord, trainLoader: seq<Token>, valLoader: seq<Token>, runName: string, initParams: Token, k: Kind)
    requires EpochShape(r, trainLoader, valLoader, runName, initParams)
    ensures Count(EpochTrace(r), k) == EpochCount(k, |trainLoader|, |valLoader|)
  {
    PassCounts(r.train, Train, trainLoader, r.trainLoss, k);
    PassCounts(r.val, Val, valLoader, r.valLoss, k);
    EpochFrame(r, |trainLoader|, |valLoader|, k);
  }

  /** An epoch whose two passes are counted correctly makes one
      `next_epoch`, one best check and one save besides. */
  lemma EpochFrame(r: EpochRecord, nTrain: nat, nVal: nat, k: Kind)
    requires Count(r.train, k) == PassCount(Train, nTrain, k)
    requires Count(r.val, k) == PassCount(Val, nVal, k)
    ensures Count(EpochTrace(r), k) == EpochCount(k, nTrain, nVal)
  {
    EpochSplit(r, k);
    EpochArith(r, nTrain, nVal, k);
  }

  /** Counting an epoch piece by piece. */
  lemma EpochSplit(r: EpochRecord, k: Kind)
    ensures Count(EpochTrace(r), k) == Ind(NextEpoch(r.epoch), k) + Count(r.train, k) + Count(r.val, k)
                                       + Ind(UpdateBest(r.valLoss, r.isBest), k) + Ind(Save(r.bundle, r.isBest), k)
  {
    var n := NextEpoch(r.epoch);
    var tail := [UpdateBest(r.valLoss, r.isBest), Save(r.bundle, r.isBest)];
    CountPair(UpdateBest(r.valLoss, r.isBest), Save(r.bundle, r.isBest), k);
    CountPrefix([n], 1, k);
    assert [n][..0] == [] && [n][..1] == [n];
    CountConcat([n], r.train, k);
    CountConcat([n] + r.train, r.val, k);
    CountConcat([n] + r.train + r.val, tail, k);
  }

  /** The per-epoch tally of `EpochCount`, from the pass tallies. */
  lemma EpochArith(r: EpochRecord, nTrain: nat, nVal: nat, k: Kind)
    ensures Ind(NextEpoch(r.epoch), k) + PassCount(Train, nTrain, k) + PassCount(Val, nVal, k)
            + Ind(UpdateBest(r.valLoss, r.isBest), k) + Ind(Save(r.bundle, r.isBest), k) == EpochCount(k, nTrain, nVal)
  {
  }

  // ---------------------------------------------------------------------
  // The epoch loop and `main`

  datatype LoopOut<W> = LoopOut(world: W, records: seq<EpochRecord>)

  /** `for epoch in range(start, start + count)` */
  function Epochs<W>(env: Env<W>, w: W, start: int, count: int, trainLoader: seq<Token>, valLoader: seq<Token>,
                     runName: string, initParams: Token): (r: LoopOut<W>)
    ensures |r.records| == if count < 0 then 0 else count
    ensures forall j :: 0 <= j < |r.records| ==> r.records[j].epoch == start + j
    ensures forall j :: 0 <= j < |r.records| ==> EpochShape(r.records[j], trainLoader, valLoader, runName, initParams)
    // every recorded result is what the collaborators return
    ensures Replay(env, w, Flatten(r.records)) == Some(r.world)
    decreases count
  {
    if count <= 0 then LoopOut(w, [])
    else
      var first := Epoch(env, w, start, trainLoader, valLoader, runName, initParams);
      var rest := Epochs(env, first.world, start + 1, count - 1, trainLoader, valLoader, runName, initParams);
      FlattenCons(first.record, rest.records);
      ReplayConcat(env, w, EpochTrace(first.record), Flatten(rest.records));
      LoopOut(rest.world, [first.record] + rest.records)
  }

  lemma FlattenCons(r: EpochRecord, rs: seq<EpochRecord>)
    ensures Flatten([r] + rs) == EpochTrace(r) + Flatten(rs)
  {
    assert ([r] + rs)[1..] == rs;
  }

  function Flatten(rs: seq<EpochRecord>): seq<Event>
    decreases |rs|
  {
    if rs == [] then [] else EpochTrace(rs[0]) + Flatten(rs[1..])
  }

  lemma {:induction false} FlattenCount(rs: seq<EpochRecord>, trainLoader: seq<Token>, valLoader: seq<Token>,
                                        runName: string, initParams: Token, k: Kind)
    requires forall j :: 0 <= j < |rs| ==> EpochShape(rs[j], trainLoader, valLoader, runName, initParams)
    ensures Count(Flatten(rs), k) == |rs| * EpochCount(k, |trainLoader|, |valLoader|)
    decreases |rs|
  {
    if rs != [] {
      EpochCounts(rs[0], trainLoader, valLoader, runName, initParams, k);
      FlattenCount(rs[1..], trainLoader, valLoader, runName, initParams, k);
      CountConcat(EpochTrace(rs[0]), Flatten(rs[1..]), k);
      MulSucc(|rs|, EpochCount(k, |trainLoader|, |valLoader|));
    }
  }

  /** The calls `main` makes before the epoch loop. */
  function Setup(ckpt: Checkpoint, freshName: string): seq<Event>
  {
    [VerifyModel, LoadStateDict, BuildTracker(ckpt.runName.GetOr(freshName), ckpt.metricObj),
     AddNetwork, Visualize, RestoreRng]
  }

  /** The set-up restores the RNG state once and makes no pass calls. */
  lemma SetupCount(ckpt: Checkpoint, freshName: string, k: Kind)
    ensures Count(Setup(ckpt, freshName), k) == (if k == KSetup then 5 else if k == KRestoreRng then 1 else 0)
  {
    CountSix(Setup(ckpt, freshName), k);
  }

  datatype RunOut<W> = RunOut(world: W, start: int, records: seq<EpochRecord>, trace: seq<Event>)

  /** The set-up calls return nothing the driver uses, so a run whose
      epochs replay replays as a whole. */
  lemma RunReplays<W>(env: Env<W>, w: W, ckpt: Checkpoint, freshName: string, epochs: seq<Event>, wl: W)
    requires Replay(env, RunEvents(env, w, Setup(ckpt, freshName)), epochs) == Some(wl)
    ensures Replay(env, w, Setup(ckpt, freshName) + epochs + [VisualizeTrained])
            == Some(env.apply(wl, VisualizeTrained))
  {
    var setup := Setup(ckpt, freshName);
    ReplaySilent(env, w, setup);
    ReplayConcat(env, w, setup, epochs);
    ReplaySnoc(env, w, setup + epochs, VisualizeTrained);
  }

  /** `main()`, from the point where the loaders, `init_params` and the
      checkpoint exist.  `freshName` is what `util.get_run_name(args)` gives. */
  function Main<W>(env: Env<W>, w: W, ckpt: Checkpoint, freshName: string, epochs: int,
                   trainLoader: seq<Token>, valLoader: seq<Token>, initParams: Token): (r: RunOut<W>)
    // the loop starts one past the epoch of the restored tracker ...
    ensures r.start == env.trackerEpoch(RunEvents(env, w, Setup(ckpt, freshName))) + 1
    // ... and runs exactly `epochs` epochs, numbered start .. start + epochs - 1
    ensures |r.records| == if epochs < 0 then 0 else epochs
    ensures forall j :: 0 <= j < |r.records| ==> r.records[j].epoch == r.start + j
    ensures forall j :: 0 <= j < |r.records| ==>
              EpochShape(r.records[j], trainLoader, valLoader, ckpt.runName.GetOr(freshName), initParams)
    ensures r.trace == Setup(ckpt, freshName) + Flatten(r.records) + [VisualizeTrained]
    // every loss, best flag and saved state in the trace is what the
    // collaborators return at that point of the run
    ensures Replay(env, w, r.trace) == Some(r.world)
  {
    var setup := Setup(ckpt, freshName);
    var w1 := RunEvents(env, w, setup);
    var start := env.trackerEpoch(w1) + 1;
    var loop := Epochs(env, w1, start, epochs, trainLoader, valLoader, ckpt.runName.GetOr(freshName), initParams);
    RunReplays(env, w, ckpt, freshName, Flatten(loop.records), loop.world);
    RunOut(env.apply(loop.world, VisualizeTrained), start, loop.records,
           setup + Flatten(loop.records) + [VisualizeTrained])
  }

  /** How many calls of kind `k` a whole run of `epochs` epochs makes. */
  function RunCount(k: Kind, epochs: nat, nTrain: nat, nVal: nat): nat
  {
    (if k == KSetup then 5 else if k == KRestoreRng || k == KVisualizeTrained then 1 else 0)
    + epochs * EpochCount(k, nTrain, nVal)
  }

  /** Over a whole run: one save, one best check and one `next_epoch` per
      epoch, `epochs * len(train_loader)` optimizer steps, one metric update
      per batch of either loader, and a single RNG restore. */
  lemma RunTraceCounts(ckpt: Checkpoint, freshName: string, rs: seq<EpochRecord>,
                       trainLoader: seq<Token>, valLoader: seq<Token>, initParams: Token, k: Kind)
    requires forall j :: 0 <= j < |rs| ==> EpochShape(rs[j], trainLoader, valLoader, ckpt.runName.GetOr(freshName), initParams)
    ensures Count(Setup(ckpt, freshName) + Flatten(rs) + [VisualizeTrained], k)
            == RunCount(k, |rs|, |trainLoader|, |valLoader|)
  {
    FlattenCount(rs, trainLoader, valLoader, ckpt.runName.GetOr(freshName), initParams, k);
    RunFrame(ckpt, freshName, Flatten(rs), |rs|, |trainLoader|, |valLoader|, k);
  }

  /** A run whose epochs are counted correctly makes the set-up calls and
      one `visualize_trained` besides. */
  lemma RunFrame(ckpt: Checkpoint, freshName: string, epochsTrace: seq<Event>, epochs: nat, nTrain: nat, nVal: nat, k: Kind)
    requires Count(epochsTrace, k) == epochs * EpochCount(k, nTrain, nVal)
    ensures Count(Setup(ckpt, freshName) + epochsTrace + [VisualizeTrained], k) == RunCount(k, epochs, nTrain, nVal)
  {
    SetupCount(ckpt, freshName, k);
    CountConcat(Setup(ckpt, freshName), epochsTrace, k);
    CountSnoc(Setup(ckpt, freshName) + epochsTrace, VisualizeTrained, k);
  }

  /** `RunTraceCounts` for the trace `main` produces. */
  lemma RunCounts<W>(env: Env<W>, w: W, ckpt: Checkpoint, freshName: string, epochs: nat,
                     trainLoader: seq<Token>, valLoader: seq<Token>, initParams: Token, k: Kind)
    ensures Count(Main(env, w, ckpt, freshName, epochs, trainLoader, valLoader, initParams).trace, k)
            == RunCount(k, epochs, |trainLoader|, |valLoader|)
  {
    var r := Main(env, w, ckpt, freshName, epochs, trainLoader, valLoader, initParams);
    RunTraceCounts(ckpt, freshName, r.records, trainLoader, valLoader, initParams, k);
  }

  /** The RNG state is restored before the driver's own batch loop: every
      forward pass and metric update the driver itself makes comes after the
      single `set_rng_state`.  (The set-up calls before it run inside single
      opaque events.)  The run name comes from the checkpoint if it has one,
      and the metric snapshot defaults to empty. */
  lemma RestoreBeforeBatches<W>(env: Env<W>, w: W, ckpt: Checkpoint, freshName: string, epochs: int,
                                trainLoader: seq<Token>, valLoader: seq<Token>, initParams: Token)
    ensures var t := Main(env, w, ckpt, freshName, epochs, trainLoader, valLoader, initParams).trace;
            && t[5] == RestoreRng
            && t[2] == BuildTracker(if ckpt.runName.Some? then ckpt.runName.value else freshName, ckpt.metricObj)
            && forall j :: 0 <= j < |t| && (t[j].Forward? || t[j].BatchUpdate?) ==> j > 5
  {
    var t := Main(env, w, ckpt, freshName, epochs, trainLoader, valLoader, initParams).trace;
    var setup := Setup(ckpt, freshName);
    assert t[..6] == setup;
    forall j | 0 <= j < 6
      ensures !t[j].Forward? && !t[j].BatchUpdate?
    {
      assert t[j] == setup[j];
    }
  }

  /** Every save of the run is marked best exactly when the best check that
      directly precedes it, fed that epoch's validation loss, said so; every
      save carries the run's name; replaying the whole run against the
      collaborators reproduces every recorded value. */
  lemma SaveFollowsValidation<W>(env: Env<W>, w: W, ckpt: Checkpoint, freshName: string, epochs: int,
                                 trainLoader: seq<Token>, valLoader: seq<Token>, initParams: Token)
    ensures var r := Main(env, w, ckpt, freshName, epochs, trainLoader, valLoader, initParams);
            forall j :: 0 <= j < |r.records| ==>
              var t := EpochTrace(r.records[j]);
              && t[|t| - 3] == EpochResults(Val, r.records[j].valLoss)
              && t[|t| - 2] == UpdateBest(r.records[j].valLoss, r.records[j].isBest)
              && t[|t| - 1] == Save(r.records[j].bundle, r.records[j].isBest)
              && r.records[j].bundle.runName == ckpt.runName.GetOr(freshName)
    // and each of those losses, flags and saved states is what the
    // collaborators returned when the run reached that call
    ensures var r := Main(env, w, ckpt, freshName, epochs, trainLoader, valLoader, initParams);
            && r.trace == Setup(ckpt, freshName) + Flatten(r.records) + [VisualizeTrained]
            && Replay(env, w, r.trace) == Some(r.world)
  {
    var r := Main(env, w, ckpt, freshName, epochs, trainLoader, valLoader, initParams);
    forall j | 0 <= j < |r.records|
      ensures var t := EpochTrace(r.records[j]);
              && t[|t| - 3] == EpochResults(Val, r.records[j].valLoss)
              && t[|t| - 2] == UpdateBest(r.records[j].valLoss, r.records[j].isBest)
              && t[|t| - 1] == Save(r.records[j].bundle, r.records[j].isBest)
    {
      TraceOrder(r.records[j], trainLoader, valLoader, ckpt.runName.GetOr(freshName), initParams);
    }
  }
}
