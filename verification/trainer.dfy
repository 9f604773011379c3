/** `CapsNetTrainer` of trainer/trainer.py: the training run over epochs, the
    train and test phases of each epoch and their batches, the ICLR2018 ramp
    of `lambda_` and `m`, the per-epoch learning-rate decay, and the final
    per-class tally.

    The network, the loss, autograd and Adam are not modelled; `net` stands
    for all of them: it gives, for every forward pass, the per-class scores
    and the loss of the batch, and is told which pass it is (stage, batch
    index, and the `lambda_` and `m` it receives). An optimiser step is
    counted, not performed. Images stay abstract; a batch is its labels. */
module Trainer {
  import opened Errors
  import opened Tensor
  import opened Schedule
  import opened Metrics
  import opened CapsuleModel

  datatype Arch = NIPS2017 | ICLR2018

  datatype Phase = Training | Testing

  /** Where a forward pass happens: a phase of an epoch, or the final
      per-class evaluation after the last epoch. */
  datatype Stage = InEpoch(epoch: nat, phase: Phase) | FinalTally

  /** The arguments of one forward pass: the batch, `lambda_` when the network
      is ICLR2018, and `m` when a loss is computed. */
  datatype Call = Call(stage: Stage, index: nat, lambda: Option<real>, m: Option<real>)

  /** What the network and the criterion give for one batch. */
  datatype Output = Output(scores: seq<seq<real>>, loss: real)

  /** A batch of a data loader, by its labels. */
  datatype Batch = Batch(labels: seq<int>)

  /** `running_loss / (i + 1)`, the mean batch loss the source computes in
      floating point, kept as its two operands. */
  datatype Mean = Mean(sum: real, count: nat)

  /** `float(correct) / float(total)`, kept as its two operands. */
  datatype Ratio = Ratio(num: nat, den: nat)
  {
    /** The value the floating-point division approximates. */
    function Value(): (v: real)
      requires den > 0
      ensures num <= den ==> 0.0 <= v <= 1.0
      ensures v == 1.0 <==> num == den
      ensures v == 0.0 <==> num == 0
    {
      QuotientBounds(num as real, den as real);
      num as real / den as real
    }
  }

  /** Where `x / d` lies for a positive `d`. */
  lemma QuotientBounds(x: real, d: real)
    requires 0.0 <= x && 0.0 < d
    ensures x <= d ==> 0.0 <= x / d <= 1.0
    ensures x / d == 1.0 <==> x == d
    ensures x / d == 0.0 <==> x == 0.0
  {
    var v := x / d;
    assert v * d == x;
    if x <= d {
      assert v * d <= 1.0 * d;
    }
    if v == 1.0 {
      assert x == 1.0 * d;
    }
    if v == 0.0 {
      assert x == 0.0 * d;
    }
  }

  /** A ratio with a positive denominator and a value in [0, 1]. */
  predicate InUnit(q: Ratio)
  {
    0 < q.den && q.num <= q.den
  }

  /** One pair of `scalar_summary` calls: loss and accuracy of a phase. */
  datatype LogRecord = LogRecord(phase: Phase, epoch: nat, loss: Mean, accuracy: Ratio)

  /** What a completed run leaves: the last accuracy, which names the
      checkpoint, and the per-class tables with their percentages. */
  datatype Report = Report(
    accuracy: Ratio, classCorrect: seq<nat>, classTotal: seq<nat>, percentages: seq<nat>)

  /** `(1 - accuracy) * 100`, the checkpoint's error rate before rounding. */
  function ErrorRate(accuracy: Ratio): (e: real)
    requires InUnit(accuracy)
    ensures 0.0 <= e <= 100.0
    ensures e == 0.0 <==> accuracy.num == accuracy.den
    ensures e == 100.0 <==> accuracy.num == 0
  {
    (1.0 - accuracy.Value()) * 100.0
  }

  function Loader(phase: Phase, train: seq<Batch>, test: seq<Batch>): seq<Batch>
  {
    if phase == Training then train else test
  }

  function SizeAt(batches: seq<Batch>, i: nat): nat
  {
    if i < |batches| then |batches[i].labels| else 0
  }

  /** The number of samples in the batch a call is about. */
  function BatchSize(c: Call, train: seq<Batch>, test: seq<Batch>): nat
  {
    match c.stage
    case InEpoch(_, Training) => SizeAt(train, c.index)
    case _ => SizeAt(test, c.index)
  }

  /** One row of `n` scores for each of `size` samples. */
  predicate ScoresFit(out: Output, size: nat, n: nat)
  {
    |out.scores| == size && forall b :: 0 <= b < size ==> |out.scores[b]| == n
  }

  /** The network answers every call with one row of `n` scores per sample. */
  ghost predicate NetFits(net: Call -> Output, train: seq<Batch>, test: seq<Batch>, n: nat)
  {
    forall c: Call {:trigger ScoresFit(net(c), BatchSize(c, train, test), n)} ::
      ScoresFit(net(c), BatchSize(c, train, test), n)
  }

  predicate AllInRange(batches: seq<Batch>, n: nat)
  {
    forall j :: 0 <= j < |batches| ==> InRange(batches[j].labels, n)
  }

  /** The labels of the first `k` batches can all be one-hot encoded. */
  predicate InRangeUpTo(batches: seq<Batch>, n: nat, k: nat)
    requires k <= |batches|
  {
    k == 0 || (InRangeUpTo(batches, n, k - 1) && InRange(batches[k - 1].labels, n))
  }

  lemma {:induction false} InRangeUpToAll(batches: seq<Batch>, n: nat, k: nat)
    requires k <= |batches|
    ensures InRangeUpTo(batches, n, k) <==> forall i :: 0 <= i < k ==> InRange(batches[i].labels, n)
  {
    if k > 0 {
      InRangeUpToAll(batches, n, k - 1);
    }
  }

  predicate NonEmptyBatches(batches: seq<Batch>)
  {
    forall j :: 0 <= j < |batches| ==> |batches[j].labels| > 0
  }

  /** `torch.max(outputs, 1)`: the predicted class of every sample, a class
      whose score no other class exceeds (ArgMaxRows). */
  function Predictions(out: Output, size: nat, n: nat): (p: seq<nat>)
    requires n > 0 && ScoresFit(out, size, n)
    ensures |p| == size
  {
    ArgMaxRows(out.scores)
  }

  /** `eye[labels]` followed by `torch.max(labels, 1)`: the labels go through
      their one-hot rows and come back as classes in [0, n), or the indexing
      raises IndexError. */
  method DecodeLabels(n: nat, labels: seq<int>) returns (r: Result<seq<nat>>)
    ensures r.Ok? <==> InRange(labels, n)
    ensures r.Err? ==> r.error == IndexError
    ensures r.Ok? ==> r.value == Wrapped(labels, n)
  {
    var rows := OneHot(n, labels);
    if rows.Err? {
      return Err(rows.error);
    }
    OneHotRoundTrip(n, labels);
    return Ok(ArgMaxRows(rows.value));
  }

  /** `lambda_` and `m` after `count` training batches of the run, when each
      advance adds `delta`; NIPS2017 runs never move them. */
  function ScheduleAt(arch: Arch, delta: real, count: nat): Ramp
  {
    if arch == ICLR2018 then RampAfter(count, delta) else Start
  }

  /** Training batches the ramp has seen when batch `i` of a phase makes its
      forward pass, the phase having started after `start` of them: a
      training batch advances the ramp before its pass. */
  function RampCount(start: nat, phase: Phase, i: nat): nat
  {
    start + if phase == Training then i + 1 else 0
  }

  /** Training batches the ramp has seen before batch `j` of the phase. */
  function RampBefore(start: nat, phase: Phase, j: nat): nat
  {
    start + if phase == Training then j else 0
  }

  /** A batch's forward pass sees the ramp one ICLR2018 training step past
      where the batch found it. */
  lemma RampStep(arch: Arch, delta: real, start: nat, phase: Phase, j: nat)
    ensures RampCount(start, phase, j) == RampBefore(start, phase, j + 1)
    ensures ScheduleAt(arch, delta, RampCount(start, phase, j))
            == if phase == Training && arch == ICLR2018
               then Advance(ScheduleAt(arch, delta, RampBefore(start, phase, j)), delta)
               else ScheduleAt(arch, delta, RampBefore(start, phase, j))
  {
  }

  /** The `lambda_` the network receives: ICLR2018 only. */
  function LambdaArg(arch: Arch, r: Ramp): (a: Option<real>)
    ensures a.Some? <==> arch == ICLR2018
    ensures a.Some? ==> a.value == r.lambda
  {
    if arch == ICLR2018 then Some(r.lambda) else None
  }

  function CallFor(arch: Arch, epoch: nat, phase: Phase, i: nat, r: Ramp): Call
  {
    Call(InEpoch(epoch, phase), i, LambdaArg(arch, r), Some(r.m))
  }

  /** The call batch `i` of a phase makes, the phase having started after
      `start` training batches of the run. */
  function PhaseCall(arch: Arch, delta: real, epoch: nat, phase: Phase, start: nat, i: nat): Call
  {
    CallFor(arch, epoch, phase, i, ScheduleAt(arch, delta, RampCount(start, phase, i)))
  }

  /** The `lambda_` batch `i` of a phase hands an ICLR2018 network is the
      ramp after every training batch so far, this one included; it stays in
      [0.001, 1 + delta). A NIPS2017 network receives none. */
  lemma PhaseCallLambda(arch: Arch, delta: real, epoch: nat, phase: Phase, start: nat, i: nat)
    requires delta > 0.0
    ensures PhaseCall(arch, delta, epoch, phase, start, i).lambda.Some? <==> arch == ICLR2018
    ensures arch == ICLR2018 ==>
              && PhaseCall(arch, delta, epoch, phase, start, i).lambda.value
                 == RampAfter(RampCount(start, phase, i), delta).lambda
              && 0.001 <= PhaseCall(arch, delta, epoch, phase, start, i).lambda.value < 1.0 + delta
  {
    RampBounded(RampCount(start, phase, i), delta);
  }

  /** The network answers each batch of a phase with one row of `n` scores
      per sample. */
  ghost predicate PhaseFits(net: Call -> Output, batches: seq<Batch>, n: nat, epoch: nat, phase: Phase)
  {
    forall c: Call {:trigger ScoresFit(net(c), |batches[c.index].labels|, n)} ::
      c.stage == InEpoch(epoch, phase) && c.index < |batches| ==> ScoresFit(net(c), |batches[c.index].labels|, n)
  }

  lemma NetFitsPhase(net: Call -> Output, train: seq<Batch>, test: seq<Batch>, n: nat, epoch: nat, phase: Phase)
    requires NetFits(net, train, test, n)
    ensures PhaseFits(net, Loader(phase, train, test), n, epoch, phase)
  {
    var batches := Loader(phase, train, test);
    forall c: Call | c.stage == InEpoch(epoch, phase) && c.index < |batches|
      ensures ScoresFit(net(c), |batches[c.index].labels|, n)
    {
      assert BatchSize(c, train, test) == |batches[c.index].labels|;
    }
  }

  /** The running counters of a phase: correct predictions, samples, and the
      sum of the batch losses. */
  datatype Counters = Counters(correct: nat, total: nat, loss: real)

  /** Samples among the first `i` of a batch whose largest score sits at the
      slot their label reaches. Over a whole batch this is
      `(predicted == labels).sum()` with the labels decoded through
      `eye[labels]` and `torch.max` (HitsAreMatches). */
  function Hits(scores: seq<seq<real>>, labels: seq<int>, n: nat, i: nat): (c: nat)
    requires i <= |labels| && i <= |scores|
    ensures c <= i
  {
    if i == 0 then 0
    else
      var hit := |scores[i - 1]| > 0 && WrapIndex(labels[i - 1], n) == Some(ArgMax(scores[i - 1]));
      Hits(scores, labels, n, i - 1) + if hit then 1 else 0
  }

  /** The same, for the first `i` samples. */
  lemma {:induction false} HitsArePrefixMatches(out: Output, labels: seq<int>, n: nat, i: nat)
    requires n > 0 && InRange(labels, n) && ScoresFit(out, |labels|, n) && i <= |labels|
    ensures Hits(out.scores, labels, n, i)
            == Matches(Predictions(out, |labels|, n)[..i], Wrapped(labels, n)[..i])
  {
    if i > 0 {
      HitsArePrefixMatches(out, labels, n, i - 1);
      var p, w := Predictions(out, |labels|, n), Wrapped(labels, n);
      assert p[..i][..i - 1] == p[..i - 1];
      assert w[..i][..i - 1] == w[..i - 1];
    }
  }

  /** Counting hits sample by sample gives `(predicted == labels).sum()` of the
      batch's predictions against its decoded labels. */
  lemma HitsAreMatches(out: Output, labels: seq<int>, n: nat)
    requires n > 0 && InRange(labels, n) && ScoresFit(out, |labels|, n)
    ensures Hits(out.scores, labels, n, |labels|) == Matches(Predictions(out, |labels|, n), Wrapped(labels, n))
  {
    HitsArePrefixMatches(out, labels, n, |labels|);
    assert Predictions(out, |labels|, n)[..|labels|] == Predictions(out, |labels|, n);
    assert Wrapped(labels, n)[..|labels|] == Wrapped(labels, n);
  }

  /** `(predicted == labels).sum()` of a batch whose pass gave `out`. A batch
      whose scores do not have one row per sample never reaches this count;
      it is taken as 0 there so that the counters are defined for every
      sequence of batches. */
  function BatchMatches(out: Output, labels: seq<int>, n: nat): (c: nat)
    ensures c <= |labels|
  {
    if |out.scores| == |labels| then Hits(out.scores, labels, n, |labels|) else 0
  }

  /** `torch.max(output, 1)` and `(predicted == labels).sum()` against the
      decoded labels (lines 96-100), the way the batch loop computes it. */
  method CountMatches(out: Output, labels: seq<int>, decoded: seq<nat>, n: nat) returns (hits: nat)
    requires n > 0 && InRange(labels, n) && ScoresFit(out, |labels|, n)
    requires decoded == Wrapped(labels, n)
    ensures hits == BatchMatches(out, labels, n)
  {
    var predicted := Predictions(out, |labels|, n);
    HitsAreMatches(out, labels, n);
    hits := Matches(predicted, decoded);
  }

  /** The counters after one more batch whose pass gave `out`. */
  function Step(prev: Counters, out: Output, labels: seq<int>, n: nat): (c: Counters)
    ensures c.total == prev.total + |labels|
    ensures prev.correct <= c.correct <= prev.correct + |labels|
    ensures c.loss == prev.loss + out.loss
  {
    Counters(prev.correct + BatchMatches(out, labels, n), prev.total + |labels|, prev.loss + out.loss)
  }

  /** Samples in the first `k` batches. */
  function SampleCount(batches: seq<Batch>, k: nat): nat
    requires k <= |batches|
  {
    if k == 0 then 0 else SampleCount(batches, k - 1) + |batches[k - 1].labels|
  }

  /** The counters after the first `k` batches of `phase` in `epoch`, the
      phase having started after `start` training batches of the run. */
  function PhaseCounters(net: Call -> Output, arch: Arch, delta: real, batches: seq<Batch>, n: nat,
                         epoch: nat, phase: Phase, start: nat, k: nat): (c: Counters)
    requires k <= |batches|
    ensures c.correct <= c.total
    decreases k, 1
  {
    if k == 0 then Counters(0, 0, 0.0) else PhaseStep(net, arch, delta, batches, n, epoch, phase, start, k)
  }

  /** The counters after batch `k - 1` of the phase has run. */
  function PhaseStep(net: Call -> Output, arch: Arch, delta: real, batches: seq<Batch>, n: nat,
                     epoch: nat, phase: Phase, start: nat, k: nat): (c: Counters)
    requires 0 < k <= |batches|
    ensures c.correct <= c.total
    decreases k, 0
  {
    Step(PhaseCounters(net, arch, delta, batches, n, epoch, phase, start, k - 1),
         net(PhaseCall(arch, delta, epoch, phase, start, k - 1)), batches[k - 1].labels, n)
  }

  /** A phase counts every sample of its batches once. */
  lemma {:induction false} PhaseTotal(net: Call -> Output, arch: Arch, delta: real, batches: seq<Batch>, n: nat,
                                      epoch: nat, phase: Phase, start: nat, k: nat)
    requires k <= |batches|
    ensures PhaseCounters(net, arch, delta, batches, n, epoch, phase, start, k).total == SampleCount(batches, k)
  {
    if k > 0 {
      PhaseTotal(net, arch, delta, batches, n, epoch, phase, start, k - 1);
    }
  }

  /** The record a phase logs (lines 109-122): the mean loss and the
      accuracy of its counters after all its batches. A phase over an empty
      loader logs a zero loss over the `i + 1` and the accuracy that an
      earlier phase left. */
  function PhaseRecord(net: Call -> Output, arch: Arch, delta: real, batches: seq<Batch>, n: nat,
                       epoch: nat, phase: Phase, start: nat, prevIndex: Option<nat>, prevAccuracy: Option<Ratio>)
    : (rec: LogRecord)
    requires |batches| > 0 || (prevIndex.Some? && prevAccuracy.Some?)
    ensures rec.phase == phase && rec.epoch == epoch
  {
    if |batches| > 0 then
      var c := PhaseCounters(net, arch, delta, batches, n, epoch, phase, start, |batches|);
      LogRecord(phase, epoch, Mean(c.loss, |batches|), Ratio(c.correct, c.total))
    else
      LogRecord(phase, epoch, Mean(0.0, prevIndex.value + 1), prevAccuracy.value)
  }

  /** The two records epoch `epoch` of a run logs when the training loader
      has batches: the training phase's, then the test phase's, which repeats
      the training phase's `i` and accuracy if the test loader is empty. */
  function EpochLog(net: Call -> Output, arch: Arch, train: seq<Batch>, test: seq<Batch>, n: nat, epoch: nat)
    : (records: seq<LogRecord>)
    requires |train| > 0 && epoch > 0
    ensures |records| == 2
  {
    var delta := Delta(|train|);
    var count := (epoch - 1) * |train|;
    var trained := PhaseRecord(net, arch, delta, train, n, epoch, Training, count, None, None);
    [trained, PhaseRecord(net, arch, delta, test, n, epoch, Testing, count + |train|, Some(|train| - 1), Some(trained.accuracy))]
  }

  /** The records an epoch of a run with training batches logs, the first
      from wherever the previous epoch left `i` and the accuracy, are
      EpochLog's. */
  lemma EpochRecords(net: Call -> Output, arch: Arch, train: seq<Batch>, test: seq<Batch>, n: nat, epoch: nat,
                     count: nat, prevIndex: Option<nat>, prevAccuracy: Option<Ratio>, trained: LogRecord, tested: LogRecord)
    requires |train| > 0 && epoch > 0 && count == (epoch - 1) * |train|
    requires trained == PhaseRecord(net, arch, Delta(|train|), train, n, epoch, Training, count, prevIndex, prevAccuracy)
    requires tested == PhaseRecord(net, arch, Delta(|train|), test, n, epoch, Testing, count + |train|,
                                   Some(|train| - 1), Some(trained.accuracy))
    ensures EpochLog(net, arch, train, test, n, epoch) == [trained, tested]
  {
  }

  /** Everything the loggers receive over `epochs` epochs. */
  function RunLog(net: Call -> Output, arch: Arch, train: seq<Batch>, test: seq<Batch>, n: nat, epochs: nat)
    : (records: seq<LogRecord>)
    requires |train| > 0
    ensures |records| == 2 * epochs
  {
    if epochs == 0 then [] else RunLog(net, arch, train, test, n, epochs - 1) + EpochLog(net, arch, train, test, n, epochs)
  }

  /** The log of a run alternates a training record and a test record, epoch
      by epoch, starting at epoch 1. */
  lemma {:induction false} RunLogOrder(net: Call -> Output, arch: Arch, train: seq<Batch>, test: seq<Batch>, n: nat,
                                       epochs: nat)
    requires |train| > 0
    ensures forall k :: 0 <= k < 2 * epochs ==>
              && RunLog(net, arch, train, test, n, epochs)[k].epoch == k / 2 + 1
              && RunLog(net, arch, train, test, n, epochs)[k].phase == if k % 2 == 0 then Training else Testing
  {
    if epochs > 0 {
      RunLogOrder(net, arch, train, test, n, epochs - 1);
    }
  }

  class CapsNetTrainer {
    const arch: Arch
    /** The network's configuration, for NIPS2017 (the ICLR2018 network is
        not part of this model). */
    const network: Option<Network>
    /** The current learning rate of the optimiser, as the scheduler sets it. */
    var lr: real
    const lrDecay: real
    /** Number of `optimizer.step()` calls so far. */
    var optimizerSteps: nat
    /** Everything the loggers have been given. */
    var log: seq<LogRecord>

    // Locals of `train` that outlive a batch or a phase.
    var lambda: real
    var m: real
    var correct: nat
    var total: nat
    var runningLoss: real
    /** The loop variable `i`, unbound until some batch has run. */
    var lastIndex: Option<nat>
    /** `accuracy`, unbound until some batch has run. */
    var accuracy: Option<Ratio>

    ghost predicate Valid()
      reads this
    {
      && correct <= total
      && (accuracy.Some? ==> InUnit(accuracy.value))
      && (lastIndex.Some? ==> accuracy.Some?)
    }

    /** `CapsNetTrainer.__init__`: builds the network (NIPS2017: 256 channels,
        8-dimensional primary capsules, 16-dimensional class capsules) and
        sets the optimiser's rate to `learning_rate`. */
    constructor (arch: Arch, img: ImgShape, learningRate: real, lrDecay: real, numClasses: nat, numRouting: nat)
      ensures Valid()
      ensures this.arch == arch && this.lrDecay == lrDecay
      ensures arch == NIPS2017 ==> network.Some? && NipsNetwork(img, numClasses, numRouting) == Ok(network.value)
      ensures arch == ICLR2018 ==> network.None?
      ensures lr == learningRate && optimizerSteps == 0 && log == []
    {
      this.arch := arch;
      network := if arch == NIPS2017 then Some(NipsNetwork(img, numClasses, numRouting).value) else None;
      lr := learningRate;
      this.lrDecay := lrDecay;
      optimizerSteps := 0;
      log := [];
      lambda, m := 0.001, 0.2;
      correct, total, runningLoss := 0, 0, 0.0;
      lastIndex, accuracy := None, None;
    }

    /** The ICLR2018 ramp step of a training batch (lines 67-71): each of
        `lambda_` and `m` that is still below its threshold (1 and 0.9) grows
        by `delta`, which is 0.2 / steps. */
    method AdvanceSchedule(delta: real)
      modifies this`lambda, this`m
      ensures Ramp(lambda, m) == Advance(old(Ramp(lambda, m)), delta)
    {
      if lambda < 1.0 {
        lambda := lambda + delta;
      }
      if m < 0.9 {
        m := m + delta;
      }
    }

    /** The bookkeeping after a batch's forward pass (lines 94-100): add
        the loss, the samples and the matches between predicted and true
        classes, and recompute the accuracy. */
    method CountBatch(i: nat, loss: real, hits: nat, size: nat)
      requires Valid() && hits <= size && size > 0
      modifies this`correct, this`total, this`runningLoss, this`accuracy, this`lastIndex
      ensures Valid()
      ensures correct == old(correct) + hits
      ensures total == old(total) + size
      ensures runningLoss == old(runningLoss) + loss
      ensures accuracy == Some(Ratio(correct, total)) && lastIndex == Some(i)
    {
      runningLoss := runningLoss + loss;
      total := total + size;
      correct := correct + hits;
      accuracy := Some(Ratio(correct, total));
      lastIndex := Some(i);
    }

    /** Batch `j` of a phase (lines 67-100): advance the ramp on a training
        batch of an ICLR2018 run, one-hot encode the labels (IndexError for a
        label outside [-n, n)), run the network with the advanced ramp, step
        the optimiser when training, and count the matches between predicted
        and decoded labels: one Step of the phase's counters. */
    method RunBatch(net: Call -> Output, epoch: nat, phase: Phase, batches: seq<Batch>, n: nat, delta: real, j: nat)
      returns (ok: bool)
      requires Valid() && n > 0 && j < |batches| && |batches[j].labels| > 0
      requires PhaseFits(net, batches, n, epoch, phase)
      modifies this`lambda, this`m, this`optimizerSteps
      modifies this`correct, this`total, this`runningLoss, this`accuracy, this`lastIndex
      ensures Valid()
      ensures Ramp(lambda, m) == if phase == Training && arch == ICLR2018
                                 then Advance(old(Ramp(lambda, m)), delta) else old(Ramp(lambda, m))
      ensures ok <==> InRange(batches[j].labels, n)
      ensures optimizerSteps == old(optimizerSteps) + if ok && phase == Training then 1 else 0
      ensures ok ==> Counters(correct, total, runningLoss)
                     == Step(old(Counters(correct, total, runningLoss)),
                             net(CallFor(arch, epoch, phase, j, Ramp(lambda, m))), batches[j].labels, n)
      ensures ok ==> lastIndex == Some(j) && accuracy == Some(Ratio(correct, total))
      ensures !ok ==> lastIndex == old(lastIndex) && accuracy == old(accuracy)
    {
      var labels := batches[j].labels;
      if phase == Training && arch == ICLR2018 {
        AdvanceSchedule(delta);
      }
      var decoded := DecodeLabels(n, labels);
      ok := decoded.Ok?;
      if ok {
        var out := net(CallFor(arch, epoch, phase, j, Ramp(lambda, m)));
        if phase == Training {
          optimizerSteps := optimizerSteps + 1;
        }
        var hits := CountMatches(out, labels, decoded.value, n);
        CountBatch(j, out.loss, hits, |labels|);
      }
    }

    /** The batch loop of one phase (lines 66-100), after the counters have
        been reset: every batch of the phase's loader in order, stopping at
        the first label the one-hot encoding cannot index. */
    method RunBatches(net: Call -> Output, epoch: nat, phase: Phase, batches: seq<Batch>, n: nat, delta: real,
                      ghost start: nat) returns (ok: bool)
      requires Valid() && n > 0 && NonEmptyBatches(batches)
      requires PhaseFits(net, batches, n, epoch, phase)
      requires Ramp(lambda, m) == ScheduleAt(arch, delta, start)
      requires correct == 0 && total == 0 && runningLoss == 0.0
      modifies this`lambda, this`m, this`optimizerSteps
      modifies this`correct, this`total, this`runningLoss, this`accuracy, this`lastIndex
      ensures Valid()
      ensures ok <==> AllInRange(batches, n)
      ensures ok ==> Counters(correct, total, runningLoss)
                     == PhaseCounters(net, arch, delta, batches, n, epoch, phase, start, |batches|)
      ensures ok ==> Ramp(lambda, m) == ScheduleAt(arch, delta, RampBefore(start, phase, |batches|))
      ensures ok ==> optimizerSteps == old(optimizerSteps) + if phase == Training then |batches| else 0
      ensures ok && |batches| > 0 ==>
                lastIndex == Some(|batches| - 1) && accuracy == Some(Ratio(correct, total))
      ensures ok && |batches| == 0 ==> lastIndex == old(lastIndex) && accuracy == old(accuracy)
    {
      var j := 0;
      while j < |batches|
        invariant 0 <= j <= |batches|
        invariant Valid()
        invariant InRangeUpTo(batches, n, j)
        invariant Counters(correct, total, runningLoss)
               == PhaseCounters(net, arch, delta, batches, n, epoch, phase, start, j)
        invariant Ramp(lambda, m) == ScheduleAt(arch, delta, RampBefore(start, phase, j))
        invariant optimizerSteps == old(optimizerSteps) + if phase == Training then j else 0
        invariant j > 0 ==> lastIndex == Some(j - 1) && accuracy == Some(Ratio(correct, total))
        invariant j == 0 ==> lastIndex == old(lastIndex) && accuracy == old(accuracy)
      {
        RampStep(arch, delta, start, phase, j);
        ok := RunBatch(net, epoch, phase, batches, n, delta, j);
        if !ok {
          return;
        }
        assert CallFor(arch, epoch, phase, j, Ramp(lambda, m)) == PhaseCall(arch, delta, epoch, phase, start, j);
        j := j + 1;
      }
      InRangeUpToAll(batches, n, |batches|);
      ok := true;
    }

    /** One phase of an epoch (lines 58-122): reset the counters, run the
        batches, then log the mean loss `running_loss / (i + 1)` and the
        accuracy. An empty loader leaves `i` and `accuracy` as the previous
        phase left them, and raises UnboundLocalError if no batch has run
        yet in this call of `train`. */
    method RunPhase(net: Call -> Output, epoch: nat, phase: Phase, batches: seq<Batch>, n: nat, delta: real,
                    ghost start: nat) returns (r: Outcome)
      requires Valid() && n > 0 && NonEmptyBatches(batches)
      requires PhaseFits(net, batches, n, epoch, phase)
      requires Ramp(lambda, m) == ScheduleAt(arch, delta, start)
      modifies this`lambda, this`m, this`optimizerSteps, this`log
      modifies this`correct, this`total, this`runningLoss, this`accuracy, this`lastIndex
      ensures Valid()
      ensures r.Pass? <==> AllInRange(batches, n) && (|batches| > 0 || old(lastIndex).Some?)
      ensures r.Fail? ==> r.error == if AllInRange(batches, n) then UnboundLocalError else IndexError
      ensures r.Pass? ==> Counters(correct, total, runningLoss)
                          == PhaseCounters(net, arch, delta, batches, n, epoch, phase, start, |batches|)
      ensures r.Pass? ==> Ramp(lambda, m) == ScheduleAt(arch, delta, RampBefore(start, phase, |batches|))
      ensures r.Pass? ==> optimizerSteps == old(optimizerSteps) + if phase == Training then |batches| else 0
      ensures r.Pass? ==> |log| == |old(log)| + 1 && log[..|old(log)|] == old(log)
      ensures r.Pass? ==> lastIndex == (if |batches| > 0 then Some(|batches| - 1) else old(lastIndex))
      ensures r.Pass? ==> accuracy == Some(log[|log| - 1].accuracy)
      ensures r.Pass? ==> log[|old(log)|]
                          == PhaseRecord(net, arch, delta, batches, n, epoch, phase, start, old(lastIndex), old(accuracy))
      ensures r.Fail? ==> log == old(log)
    {
      runningLoss := 0.0;
      correct, total := 0, 0;
      var ok := RunBatches(net, epoch, phase, batches, n, delta, start);
      if !ok {
        return Fail(IndexError);
      }
      if lastIndex.None? {
        return Fail(UnboundLocalError);
      }
      log := log + [LogRecord(phase, epoch, Mean(runningLoss, lastIndex.value + 1), accuracy.value)];
      return Pass;
    }

    /** One epoch of `train` (lines 56-124): the training phase, the test
        phase, then one step of the learning-rate scheduler. */
    method RunEpoch(net: Call -> Output, epoch: nat, train: seq<Batch>, test: seq<Batch>, n: nat, delta: real,
                    ghost count: nat) returns (r: Outcome)
      requires Valid() && n > 0
      requires PhaseFits(net, train, n, epoch, Training) && PhaseFits(net, test, n, epoch, Testing)
      requires NonEmptyBatches(train) && NonEmptyBatches(test)
      requires Ramp(lambda, m) == ScheduleAt(arch, delta, count)
      modifies this`lambda, this`m, this`optimizerSteps, this`log, this`lr
      modifies this`correct, this`total, this`runningLoss, this`accuracy, this`lastIndex
      ensures Valid()
      ensures r.Pass? <==> AllInRange(train, n) && AllInRange(test, n) && (|train| > 0 || old(lastIndex).Some?)
      ensures r.Fail? ==> r.error == if AllInRange(train, n) && |train| == 0 && old(lastIndex).None?
                                    then UnboundLocalError else IndexError
      ensures r.Pass? ==> Ramp(lambda, m) == ScheduleAt(arch, delta, count + |train|)
      ensures r.Pass? ==> lr == old(lr) * lrDecay
      ensures r.Pass? ==> optimizerSteps == old(optimizerSteps) + |train|
      ensures r.Pass? ==> |log| == |old(log)| + 2 && log[..|old(log)|] == old(log)
      ensures r.Pass? ==> log[|old(log)|]
                          == PhaseRecord(net, arch, delta, train, n, epoch, Training, count, old(lastIndex), old(accuracy))
      ensures r.Pass? ==> log[|old(log)| + 1]
                          == PhaseRecord(net, arch, delta, test, n, epoch, Testing, count + |train|,
                                         if |train| > 0 then Some(|train| - 1) else old(lastIndex),
                                         Some(log[|old(log)|].accuracy))
      ensures r.Pass? ==> lastIndex.Some? && accuracy == Some(log[|log| - 1].accuracy)
    {
      r := RunPhase(net, epoch, Training, train, n, delta, count);
      if r.Pass? {
        r := RunPhase(net, epoch, Testing, test, n, delta, count + |train|);
        if r.Pass? {
          lr := lr * lrDecay;
        }
      }
    }

    /** Epoch `epoch` of the loop in `train`, entered as the earlier epochs
        left the trainer: the log grows from the first `epoch - 1` epochs of
        RunLog to its first `epoch`, and the rate decays once more. */
    method RunEpochOfRun(net: Call -> Output, epoch: nat, train: seq<Batch>, test: seq<Batch>, n: nat,
                         ghost start: nat, ghost rate: real) returns (r: Outcome)
      requires Valid() && n > 0 && epoch > 0
      requires NetFits(net, train, test, n)
      requires NonEmptyBatches(train) && NonEmptyBatches(test)
      requires Ramp(lambda, m) == ScheduleAt(arch, Delta(|train|), (epoch - 1) * |train|)
      requires lr == rate * Pow(lrDecay, epoch - 1)
      requires start <= |log| && (|train| > 0 ==> log[start..] == RunLog(net, arch, train, test, n, epoch - 1))
      modifies this`lambda, this`m, this`optimizerSteps, this`log, this`lr
      modifies this`correct, this`total, this`runningLoss, this`accuracy, this`lastIndex
      ensures Valid()
      ensures r.Pass? <==> AllInRange(train, n) && AllInRange(test, n) && (|train| > 0 || old(lastIndex).Some?)
      ensures r.Fail? ==> r.error == if AllInRange(train, n) && |train| == 0 && old(lastIndex).None?
                                    then UnboundLocalError else IndexError
      ensures r.Pass? ==> Ramp(lambda, m) == ScheduleAt(arch, Delta(|train|), epoch * |train|)
      ensures r.Pass? ==> lr == rate * Pow(lrDecay, epoch)
      ensures r.Pass? ==> optimizerSteps == old(optimizerSteps) + |train|
      ensures r.Pass? ==> |log| == |old(log)| + 2 && log[..|old(log)|] == old(log)
      ensures r.Pass? && |train| > 0 ==> log[start..] == RunLog(net, arch, train, test, n, epoch)
      ensures r.Pass? ==> lastIndex.Some? && accuracy == Some(log[|log| - 1].accuracy)
    {
      ghost var before, index0, accuracy0, rate0 := log, lastIndex, accuracy, lr;
      ghost var count := (epoch - 1) * |train|;
      NetFitsPhase(net, train, test, n, epoch, Training);
      NetFitsPhase(net, train, test, n, epoch, Testing);
      r := RunEpoch(net, epoch, train, test, n, Delta(|train|), count);
      if r.Pass? {
        EpochStep(rate, rate0, lrDecay, epoch, |train|, count);
        if |train| > 0 {
          EpochRecords(net, arch, train, test, n, epoch, count, index0, accuracy0, log[|before|], log[|before| + 1]);
          LogAfterEpoch(before, log, start, RunLog(net, arch, train, test, n, epoch - 1),
                        EpochLog(net, arch, train, test, n, epoch));
        }
      }
    }

    /** The epoch loop of `train` (lines 55-124), entered with the ramp at
        its start and neither a batch index nor an accuracy bound yet. */
    method RunEpochs(net: Call -> Output, epochs: nat, train: seq<Batch>, test: seq<Batch>, n: nat)
      returns (r: Outcome)
      requires Valid() && n > 0
      requires NetFits(net, train, test, n)
      requires NonEmptyBatches(train) && NonEmptyBatches(test)
      requires Ramp(lambda, m) == Start && lastIndex.None? && accuracy.None?
      modifies this`lambda, this`m, this`optimizerSteps, this`log, this`lr
      modifies this`correct, this`total, this`runningLoss, this`accuracy, this`lastIndex
      ensures Valid()
      ensures r.Pass? <==> epochs == 0 || (|train| > 0 && AllInRange(train, n) && AllInRange(test, n))
      ensures r.Fail? ==> r.error == if |train| == 0 then UnboundLocalError else IndexError
      ensures r.Pass? ==> lr == old(lr) * Pow(lrDecay, epochs)
      ensures r.Pass? ==> optimizerSteps == old(optimizerSteps) + epochs * |train|
      ensures r.Pass? ==> Ramp(lambda, m) == ScheduleAt(arch, Delta(|train|), epochs * |train|)
      ensures r.Pass? ==> |old(log)| <= |log| && log[..|old(log)|] == old(log)
      ensures r.Pass? && epochs > 0 ==> log[|old(log)|..] == RunLog(net, arch, train, test, n, epochs)
      ensures r.Pass? ==> (accuracy.Some? <==> epochs > 0)
      ensures r.Pass? && epochs > 0 ==> |old(log)| < |log| && accuracy == Some(log[|log| - 1].accuracy)
    {
      var delta := Delta(|train|);
      var epoch := 1;
      ghost var count: nat := 0;
      while epoch <= epochs
        invariant 1 <= epoch <= epochs + 1
        invariant Valid()
        invariant count == (epoch - 1) * |train|
        invariant Ramp(lambda, m) == ScheduleAt(arch, delta, count)
        invariant lr == old(lr) * Pow(lrDecay, epoch - 1)
        invariant optimizerSteps == old(optimizerSteps) + count
        invariant |old(log)| <= |log| && log[..|old(log)|] == old(log)
        invariant |train| > 0 ==> log[|old(log)|..] == RunLog(net, arch, train, test, n, epoch - 1)
        invariant epoch == 1 ==> lastIndex.None? && accuracy.None? && |log| == |old(log)|
        invariant epoch > 1 ==> lastIndex.Some? && |train| > 0 && AllInRange(train, n) && AllInRange(test, n)
        invariant epoch > 1 ==> |old(log)| < |log| && accuracy == Some(log[|log| - 1].accuracy)
      {
        r := RunEpochOfRun(net, epoch, train, test, n, |old(log)|, old(lr));
        if r.Fail? {
          return;
        }
        assert count + |train| == epoch * |train|;
        count := count + |train|;
        epoch := epoch + 1;
      }
      r := Pass;
    }

    /** `CapsNetTrainer.train`: `epochs` rounds of a train phase, a test
        phase and one decay of the learning rate, then the accuracy that
        names the checkpoint and the per-class tally of the test loader. */
    method Train(net: Call -> Output, epochs: nat, train: seq<Batch>, test: seq<Batch>, n: nat)
      returns (r: Result<Report>)
      requires Valid() && n > 0
      requires NetFits(net, train, test, n)
      requires NonEmptyBatches(train) && NonEmptyBatches(test)
      modifies this
      ensures Valid()
      ensures r.Ok? <==> epochs > 0 && |train| > 0 && AllInRange(train, n) && AllInRange(test, n)
                         && EveryClassTested(test, n)
      ensures r.Err? ==> r.error == if epochs == 0 || |train| == 0 then UnboundLocalError
                                    else if AllInRange(train, n) && AllInRange(test, n) then ZeroDivisionError
                                    else IndexError
      ensures r.Ok? || r.error == ZeroDivisionError ==> lr == old(lr) * Pow(lrDecay, epochs)
      ensures r.Ok? || r.error == ZeroDivisionError ==> optimizerSteps == old(optimizerSteps) + epochs * |train|
      ensures r.Ok? || r.error == ZeroDivisionError ==> Ramp(lambda, m) == ScheduleAt(arch, Delta(|train|), epochs * |train|)
      ensures r.Ok? || r.error == ZeroDivisionError ==> |old(log)| < |log| && log[..|old(log)|] == old(log)
      ensures r.Ok? || r.error == ZeroDivisionError ==> log[|old(log)|..] == RunLog(net, arch, train, test, n, epochs)
      ensures r.Ok? || r.error == ZeroDivisionError ==> accuracy == Some(EpochLog(net, arch, train, test, n, epochs)[1].accuracy)
      ensures r.Ok? ==> InUnit(r.value.accuracy)
      ensures r.Ok? ==> r.value.accuracy == EpochLog(net, arch, train, test, n, epochs)[1].accuracy
      ensures r.Ok? ==> r.value.classTotal == TallyTotals(test, n, |test|)
      ensures r.Ok? ==> TallyFits(net, LambdaArg(arch, Ramp(lambda, m)), test, n)
      ensures r.Ok? ==> r.value.classCorrect == TallyCorrect(net, LambdaArg(arch, Ramp(lambda, m)), test, n, |test|)
      ensures r.Ok? ==> ClassPercentagesAsWritten(r.value.classCorrect, r.value.classTotal) == Ok(r.value.percentages)
    {
      lambda, m := 0.001, 0.2;
      lastIndex, accuracy := None, None;
      var outcome := RunEpochs(net, epochs, train, test, n);
      if outcome.Fail? {
        r := Err(outcome.error);
      } else if accuracy.None? {
        r := Err(UnboundLocalError);
      } else {
        r := FinalReport(net, train, test, n);
      }
    }

    /** The end of `train` (lines 127-151), once the epochs have left an
        accuracy: the per-class tally of the test loader with the final
        `lambda_`, and the per-class report, which divides by every class
        total. */
    method FinalReport(net: Call -> Output, train: seq<Batch>, test: seq<Batch>, n: nat) returns (r: Result<Report>)
      requires n > 0 && AllInRange(test, n) && NetFits(net, train, test, n) && accuracy.Some?
      ensures r.Ok? <==> EveryClassTested(test, n)
      ensures r.Err? ==> r.error == ZeroDivisionError
      ensures r.Ok? ==> r.value.accuracy == accuracy.value
      ensures r.Ok? ==> r.value.classTotal == TallyTotals(test, n, |test|)
      ensures r.Ok? ==> TallyFits(net, LambdaArg(arch, Ramp(lambda, m)), test, n)
      ensures r.Ok? ==> r.value.classCorrect == TallyCorrect(net, LambdaArg(arch, Ramp(lambda, m)), test, n, |test|)
      ensures r.Ok? ==> ClassPercentagesAsWritten(r.value.classCorrect, r.value.classTotal) == Ok(r.value.percentages)
    {
      var lambdaArg := LambdaArg(arch, Ramp(lambda, m));
      NetFitsTally(net, lambdaArg, train, test, n);
      var classCorrect, classTotal := TallyTest(net, lambdaArg, test, n);
      var percentages := ClassPercentagesAsWritten(classCorrect, classTotal);
      if percentages.Err? {
        r := Err(percentages.error);
      } else {
        r := Ok(Report(accuracy.value, classCorrect, classTotal, percentages.value));
      }
    }
  }

  /** One more decay of the rate, and one more epoch's worth of batches. */
  lemma EpochStep(lr0: real, lr: real, gamma: real, epoch: nat, steps: nat, count: nat)
    requires epoch > 0 && lr == lr0 * Pow(gamma, epoch - 1) && count == (epoch - 1) * steps
    ensures lr * gamma == lr0 * Pow(gamma, epoch)
    ensures count + steps == epoch * steps
  {
    assert epoch * steps == (epoch - 1) * steps + steps;
  }

  /** Two phases of one epoch extend the run's log by that epoch's records. */
  lemma LogAfterEpoch(before: seq<LogRecord>, after: seq<LogRecord>, start: nat, prefix: seq<LogRecord>,
                      records: seq<LogRecord>)
    requires start <= |before| && before[start..] == prefix
    requires |records| == 2 && |after| == |before| + 2 && after[..|before|] == before
    requires after[|before|] == records[0] && after[|before| + 1] == records[1]
    ensures after[start..] == prefix + records
  {
    assert after[start..] == before[start..] + records;
  }

  function Zeros(n: nat): (z: seq<nat>)
    ensures |z| == n && forall k :: 0 <= k < n ==> z[k] == 0
  {
    if n == 0 then [] else Zeros(n - 1) + [0]
  }

  lemma {:induction false} ZerosAreZero(n: nat)
    ensures Sum(Zeros(n)) == 0
  {
    if n > 0 {
      ZerosAreZero(n - 1);
      assert Zeros(n)[..n - 1] == Zeros(n - 1);
    }
  }

  /** `class_total` after the first `k` test batches. */
  function TallyTotals(test: seq<Batch>, n: nat, k: nat): (t: seq<nat>)
    requires k <= |test| && AllInRange(test, n)
    ensures |t| == n
  {
    if k == 0 then Zeros(n)
    else
      var labels := test[k - 1].labels;
      TotalsAfter(TallyTotals(test, n, k - 1), labels, |labels|)
  }

  /** Every class has at least one sample in the test loader, so that no
      class total of the final tally is zero. */
  predicate EveryClassTested(test: seq<Batch>, n: nat)
    requires AllInRange(test, n)
  {
    forall k :: 0 <= k < n ==> TallyTotals(test, n, |test|)[k] > 0
  }

  /** The network answers each batch of the final tally with one row of `n`
      scores per sample. */
  ghost predicate TallyFits(net: Call -> Output, lambdaArg: Option<real>, test: seq<Batch>, n: nat)
  {
    forall j {:trigger ScoresFit(net(Call(FinalTally, j, lambdaArg, None)), |test[j].labels|, n)} ::
      0 <= j < |test| ==> ScoresFit(net(Call(FinalTally, j, lambdaArg, None)), |test[j].labels|, n)
  }

  lemma NetFitsTally(net: Call -> Output, lambdaArg: Option<real>, train: seq<Batch>, test: seq<Batch>, n: nat)
    requires NetFits(net, train, test, n)
    ensures TallyFits(net, lambdaArg, test, n)
  {
    forall j | 0 <= j < |test|
      ensures ScoresFit(net(Call(FinalTally, j, lambdaArg, None)), |test[j].labels|, n)
    {
      assert BatchSize(Call(FinalTally, j, lambdaArg, None), train, test) == |test[j].labels|;
    }
  }

  /** `class_correct` after the first `k` test batches. */
  function TallyCorrect(net: Call -> Output, lambdaArg: Option<real>, test: seq<Batch>, n: nat, k: nat): (c: seq<nat>)
    requires k <= |test| && AllInRange(test, n) && n > 0 && TallyFits(net, lambdaArg, test, n)
    ensures |c| == n
  {
    if k == 0 then Zeros(n)
    else
      var labels := test[k - 1].labels;
      var predicted := Predictions(net(Call(FinalTally, k - 1, lambdaArg, None)), |labels|, n);
      CorrectAfter(TallyCorrect(net, lambdaArg, test, n, k - 1), labels, predicted, |labels|)
  }

  /** Every tallied test sample adds one to exactly one class total, so the
      totals add up to the number of test samples. */
  lemma {:induction false} TallyTotalsSum(test: seq<Batch>, n: nat, k: nat)
    requires k <= |test| && AllInRange(test, n)
    ensures Sum(TallyTotals(test, n, k)) == SampleCount(test, k)
  {
    if k == 0 {
      ZerosAreZero(n);
    } else {
      TallyTotalsSum(test, n, k - 1);
      var labels := test[k - 1].labels;
      TotalsAfterSum(TallyTotals(test, n, k - 1), labels, |labels|);
    }
  }

  /** No class is credited with more correct samples than it has samples. */
  lemma {:induction false} TallyCorrectBelowTotal(net: Call -> Output, lambdaArg: Option<real>, test: seq<Batch>,
                                                  n: nat, k: nat)
    requires k <= |test| && AllInRange(test, n) && n > 0 && TallyFits(net, lambdaArg, test, n)
    ensures Dominated(TallyCorrect(net, lambdaArg, test, n, k), TallyTotals(test, n, k))
  {
    if k == 0 {
      ZerosAreZero(n);
    } else {
      TallyCorrectBelowTotal(net, lambdaArg, test, n, k - 1);
      var labels := test[k - 1].labels;
      var predicted := Predictions(net(Call(FinalTally, k - 1, lambdaArg, None)), |labels|, n);
      TallyKeepsCorrectBelowTotal(TallyCorrect(net, lambdaArg, test, n, k - 1), TallyTotals(test, n, k - 1),
                                  labels, predicted, |labels|);
    }
  }

  /** The per-sample loop of one test batch (lines 143-147):
      `class_correct[label] += c[i]` and `class_total[label] += 1`. */
  method TallyBatch(classCorrect: seq<nat>, classTotal: seq<nat>, labels: seq<int>, predicted: seq<nat>, n: nat)
    returns (newCorrect: seq<nat>, newTotal: seq<nat>)
    requires |classCorrect| == n && |classTotal| == n
    requires InRange(labels, n) && |predicted| == |labels|
    ensures newTotal == TotalsAfter(classTotal, labels, |labels|)
    ensures newCorrect == CorrectAfter(classCorrect, labels, predicted, |labels|)
  {
    newCorrect, newTotal := classCorrect, classTotal;
    var i := 0;
    while i < |labels|
      invariant 0 <= i <= |labels|
      invariant newTotal == TotalsAfter(classTotal, labels, i)
      invariant newCorrect == CorrectAfter(classCorrect, labels, predicted, i)
    {
      var slot := WrapIndex(labels[i], n).value;
      var hit := if predicted[i] == labels[i] then 1 else 0;
      newCorrect := newCorrect[slot := newCorrect[slot] + hit];
      newTotal := newTotal[slot := newTotal[slot] + 1];
      i := i + 1;
    }
  }

  /** The final per-class evaluation (lines 131-147): two zeroed tables of
      `n` entries, filled batch by batch from the test loader. */
  method TallyTest(net: Call -> Output, lambdaArg: Option<real>, test: seq<Batch>, n: nat)
    returns (classCorrect: seq<nat>, classTotal: seq<nat>)
    requires n > 0 && AllInRange(test, n) && TallyFits(net, lambdaArg, test, n)
    ensures classTotal == TallyTotals(test, n, |test|)
    ensures classCorrect == TallyCorrect(net, lambdaArg, test, n, |test|)
  {
    classCorrect, classTotal := Zeros(n), Zeros(n);
    var j := 0;
    while j < |test|
      invariant 0 <= j <= |test|
      invariant classTotal == TallyTotals(test, n, j)
      invariant classCorrect == TallyCorrect(net, lambdaArg, test, n, j)
    {
      classCorrect, classTotal := TallyNext(net, lambdaArg, test, n, j, classCorrect, classTotal);
      j := j + 1;
    }
  }

  /** Test batch `j` of the final tally, on the tables the first `j` left. */
  method TallyNext(net: Call -> Output, lambdaArg: Option<real>, test: seq<Batch>, n: nat, j: nat,
                   classCorrect: seq<nat>, classTotal: seq<nat>)
    returns (newCorrect: seq<nat>, newTotal: seq<nat>)
    requires n > 0 && j < |test| && AllInRange(test, n) && TallyFits(net, lambdaArg, test, n)
    requires classTotal == TallyTotals(test, n, j)
    requires classCorrect == TallyCorrect(net, lambdaArg, test, n, j)
    ensures newTotal == TallyTotals(test, n, j + 1)
    ensures newCorrect == TallyCorrect(net, lambdaArg, test, n, j + 1)
  {
    var labels := test[j].labels;
    var predicted := Predictions(net(Call(FinalTally, j, lambdaArg, None)), |labels|, n);
    newCorrect, newTotal := TallyBatch(classCorrect, classTotal, labels, predicted, n);
  }
}
