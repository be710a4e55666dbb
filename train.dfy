/** The control rules of `Trainer.train`: gradient accumulation over
    micro-steps, the DDP gradient-sync flag, the learning-rate update, the
    validation/evaluation schedule, and the epoch loop with its log. */
module TrainLoop {
  import opened PyErrors
  import opened Config
  import opened LrSchedule
  import opened ParamPartition
  import opened OptimizerLr

  /** Validation and evaluation run every this many iterations. */
  const EvalInterval: nat := 500

  /** The arguments `train` passes to `_get_optimizer` (line 125). */
  const TrainWeightDecay: real := 0.1
  const TrainBaseLr: real := 0.0006

  // ---------------------------------------------------------------------------
  // Micro-steps (lines 135-149)

  function Sum(s: seq<real>): real {
    if s == [] then 0.0 else Sum(s[..|s| - 1]) + s[|s| - 1]
  }

  /** What the accumulator holds after the micro-steps of `s`: each loss is
      divided by `n` before it is added. */
  function ScaledSum(s: seq<real>, n: real): real
    requires n != 0.0
  {
    if s == [] then 0.0 else ScaledSum(s[..|s| - 1], n) + s[|s| - 1] / n
  }

  lemma {:induction false} ScaledSumIsSumScaled(s: seq<real>, n: real)
    requires n != 0.0
    ensures ScaledSum(s, n) == Sum(s) / n
  {
    if s != [] {
      var init, last := s[..|s| - 1], s[|s| - 1];
      ScaledSumIsSumScaled(init, n);
      assert ScaledSum(s, n) == Sum(init) / n + last / n;
      assert Sum(init) / n + last / n == (Sum(init) + last) / n;
    }
  }

  /** The iteration's loss: the mean of its micro-batch losses. With no
      micro-step it is the initial value 0.0, which in the source is a Python
      float rather than a tensor (see `MissingLossError`). */
  function AccumulatedLoss(losses: seq<real>): real {
    if |losses| == 0 then 0.0 else Sum(losses) / |losses| as real
  }

  /** The values written to `model.require_backward_grad_sync`, one per
      micro-step, only under DDP. */
  function SyncFlags(useDdp: bool, n: nat): seq<bool> {
    if useDdp then seq(n, k => k == n - 1) else []
  }

  /** The micro-step loop over the losses its forward passes produce: the
      accumulator ends as the MEAN of the losses (not their sum), and under
      DDP the sync flag is on exactly for the last micro-step. */
  method AccumulateMicroSteps(useDdp: bool, losses: seq<real>) returns (accumulated: real, syncFlags: seq<bool>)
    ensures accumulated == AccumulatedLoss(losses)
    ensures |losses| > 0 ==> accumulated * |losses| as real == Sum(losses)
    ensures syncFlags == SyncFlags(useDdp, |losses|)
    ensures |syncFlags| == if useDdp then |losses| else 0
    ensures forall k :: 0 <= k < |syncFlags| ==> (syncFlags[k] <==> k == |losses| - 1)
  {
    var n := |losses|;
    accumulated := 0.0;
    syncFlags := [];
    for microIter := 0 to n
      invariant n == 0 ==> accumulated == 0.0
      invariant n > 0 ==> accumulated == ScaledSum(losses[..microIter], n as real)
      invariant syncFlags == if useDdp then seq(microIter, k => k == n - 1) else []
    {
      if useDdp {
        syncFlags := syncFlags + [microIter == n - 1];
      }
      var loss := losses[microIter] / n as real;
      accumulated := accumulated + loss;
      assert losses[..microIter + 1][..microIter] == losses[..microIter];
    }
    if n > 0 {
      assert losses[..n] == losses;
      ScaledSumIsSumScaled(losses, n as real);
    }
  }

  /** Four micro-batches: the accumulated loss is their sum divided by 4. */
  lemma FourMicroBatchesAverage(a: real, b: real, c: real, d: real)
    ensures AccumulatedLoss([a, b, c, d]) == (a + b + c + d) / 4.0
  {
    var s := [a, b, c, d];
    assert s[..3] == [a, b, c] && [a, b, c][..2] == [a, b] && [a, b][..1] == [a] && [a][..0] == [];
    assert Sum([a]) == a;
    assert Sum([a, b]) == a + b;
    assert Sum([a, b, c]) == a + b + c;
    assert Sum(s) == a + b + c + d;
  }

  // ---------------------------------------------------------------------------
  // When validation and evaluation run (lines 160-164)

  predicate HooksFire(iter: int, maxIters: int) {
    iter % EvalInterval == 0 || iter == maxIters - 1
  }

  /** The hooks run on the first and on the last iteration of an epoch. */
  lemma HooksFireAtEnds(maxIters: int)
    requires maxIters > 0
    ensures HooksFire(0, maxIters) && HooksFire(maxIters - 1, maxIters)
  {
  }

  /** How many of the iterations 0 .. n-1 run the hooks. */
  function CountFires(n: nat, maxIters: int): nat {
    if n == 0 then 0 else CountFires(n - 1, maxIters) + (if HooksFire(n - 1, maxIters) then 1 else 0)
  }

  /** Below the last iteration, the hooks fire on the multiples of the
      interval: ceil(n / 500) of them among 0 .. n-1. */
  lemma {:induction false} CountFiresBelowLast(n: nat, maxIters: int)
    requires n < maxIters
    ensures CountFires(n, maxIters) == (n + EvalInterval - 1) / EvalInterval
  {
    if n > 0 {
      CountFiresBelowLast(n - 1, maxIters);
    }
  }

  /** An epoch of `maxIters` iterations runs validation and evaluation
      (maxIters + 498) / 500 + 1 times: at every multiple of 500 below the
      last iteration, and at the last one. */
  lemma HookCallsPerEpoch(maxIters: nat)
    requires maxIters > 0
    ensures CountFires(maxIters, maxIters) == (maxIters + 498) / 500 + 1
  {
    CountFiresBelowLast(maxIters - 1, maxIters);
  }

  // ---------------------------------------------------------------------------
  // One epoch (lines 130-179)

  /** What an iteration leaves behind: the (reduced) loss it logs, the rate
      it set, the sync flags of its micro-steps and whether the hooks ran. */
  datatype IterationRecord = IterationRecord(loss: real, lr: real, syncFlags: seq<bool>, hooksFired: bool)

  /** The iterations of `range(max_iters)`. */
  function NumIters(cfg: TrainerConfig): nat {
    if cfg.maxIters > 0 then cfg.maxIters else 0
  }

  /** The losses of the micro-batches of iteration `iter` of epoch `epoch`;
      `lossOf` stands for the data loader, the forward pass and the loss. */
  function MicroLosses(cfg: TrainerConfig, lossOf: (int, int, int) -> real, epoch: int, iter: int): seq<real> {
    var g: nat := if cfg.gradAccumIters > 0 then cfg.gradAccumIters else 0;
    seq(g, j => lossOf(epoch, iter, j))
  }

  /** The rate of a training iteration; the schedule never fails there. */
  function LrAt(cfg: TrainerConfig, cosPi: real -> real, iter: int): (lr: real)
    requires 0 <= iter < cfg.maxIters
    ensures GetLr(cfg, cosPi, iter) == Ok(lr)
  {
    TrainingIterationsHaveLr(cfg, cosPi, iter);
    GetLr(cfg, cosPi, iter).value
  }

  /** The training loop never reaches iteration max_iters, so the written
      and the guarded schedule give every training iteration the same rate. */
  lemma TrainingRatesUnaffectedByGuard(cfg: TrainerConfig, cosPi: real -> real, iter: int)
    requires 0 <= iter < cfg.maxIters
    ensures GetLrGuarded(cfg, cosPi, iter) == Ok(LrAt(cfg, cosPi, iter))
  {
  }

  /** With no micro-step (grad_accum_iters <= 0) `accumulated_loss` stays the
      Python float 0.0, and the iteration cannot go on with it: under DDP
      `dist.all_reduce` rejects a non-tensor (line 152); without DDP the
      process is the main one (line 103), and `.item()` on the float raises
      when the loss is printed or logged (lines 177, 179). */
  function MissingLossError(cfg: TrainerConfig): PyError {
    if cfg.useDdp then TypeError else AttributeError
  }

  /** The record iteration `iter` of epoch `epoch` leaves when its
      micro-steps ran; `reduce` is the all-reduce that averages the loss
      across workers under DDP. */
  function IterationRecordAt(
    cfg: TrainerConfig, cosPi: real -> real, reduce: real -> real,
    lossOf: (int, int, int) -> real, epoch: int, iter: int): IterationRecord
    requires 0 <= iter < cfg.maxIters
  {
    var losses := MicroLosses(cfg, lossOf, epoch, iter);
    var local := AccumulatedLoss(losses);
    IterationRecord(
      if cfg.useDdp then reduce(local) else local,
      LrAt(cfg, cosPi, iter),
      SyncFlags(cfg.useDdp, |losses|),
      HooksFire(iter, cfg.maxIters))
  }

  /** Iteration `iter` of epoch `epoch`: its record, or the exception it
      raises when there is no micro-step. */
  function IterationOutcome(
    cfg: TrainerConfig, cosPi: real -> real, reduce: real -> real,
    lossOf: (int, int, int) -> real, epoch: int, iter: int): Result<IterationRecord>
    requires 0 <= iter < cfg.maxIters
  {
    if cfg.gradAccumIters <= 0 then Err(MissingLossError(cfg))
    else Ok(IterationRecordAt(cfg, cosPi, reduce, lossOf, epoch, iter))
  }

  /** The records of an epoch whose iterations all run. */
  function EpochRecords(
    cfg: TrainerConfig, cosPi: real -> real, reduce: real -> real,
    lossOf: (int, int, int) -> real, epoch: int): seq<IterationRecord>
  {
    seq(NumIters(cfg), i requires 0 <= i < NumIters(cfg) => IterationRecordAt(cfg, cosPi, reduce, lossOf, epoch, i))
  }

  /** An epoch: the records of its iterations, or the exception its first
      iteration raises when there is no micro-step. */
  function EpochOutcome(
    cfg: TrainerConfig, cosPi: real -> real, reduce: real -> real,
    lossOf: (int, int, int) -> real, epoch: int): Result<seq<IterationRecord>>
  {
    if NumIters(cfg) > 0 && cfg.gradAccumIters <= 0 then Err(MissingLossError(cfg))
    else Ok(EpochRecords(cfg, cosPi, reduce, lossOf, epoch))
  }

  /** The groups after an epoch: at the rate of its last iteration. */
  function GroupsAfterEpoch(cfg: TrainerConfig, cosPi: real -> real, groups: seq<ParamGroup>): seq<ParamGroup> {
    if cfg.maxIters > 0 then WithLr(groups, LrAt(cfg, cosPi, cfg.maxIters - 1)) else groups
  }

  /** The groups once the first `n` iterations of an epoch have run. */
  function GroupsAfter(cfg: TrainerConfig, cosPi: real -> real, groups: seq<ParamGroup>, n: nat): seq<ParamGroup>
    requires n <= NumIters(cfg)
  {
    if n == 0 then groups else WithLr(groups, LrAt(cfg, cosPi, n - 1))
  }

  /** Iteration `n` takes the groups after `n` iterations to those after `n + 1`. */
  lemma GroupsAfterStep(cfg: TrainerConfig, cosPi: real -> real, groups: seq<ParamGroup>, n: nat)
    requires n < cfg.maxIters
    ensures GroupsAfter(cfg, cosPi, groups, n + 1) == WithLr(GroupsAfter(cfg, cosPi, groups, n), LrAt(cfg, cosPi, n))
  {
    if n > 0 {
      WithLrLastWriteWins(groups, LrAt(cfg, cosPi, n - 1), LrAt(cfg, cosPi, n));
    }
  }

  /** One pass of the iteration loop: micro-steps, the DDP all-reduce, the
      learning-rate update of every group, the hook decision, and the loss
      read for the log. Without micro-steps it raises, under DDP before the
      groups are touched and otherwise after the rate has been set. */
  method TrainIteration(
    cfg: TrainerConfig, cosPi: real -> real, reduce: real -> real,
    groups: array<ParamGroup>, lossOf: (int, int, int) -> real, epoch: int, iter: int)
    returns (outcome: Result<IterationRecord>)
    requires 0 <= iter < cfg.maxIters
    modifies groups
    ensures outcome == IterationOutcome(cfg, cosPi, reduce, lossOf, epoch, iter)
    ensures groups[..] == if outcome.Err? && cfg.useDdp then old(groups[..])
                          else WithLr(old(groups[..]), LrAt(cfg, cosPi, iter))
  {
    var losses := MicroLosses(cfg, lossOf, epoch, iter);
    var accumulated, syncFlags := AccumulateMicroSteps(cfg.useDdp, losses);
    if cfg.useDdp {
      if |losses| == 0 {
        return Err(TypeError);
      }
      accumulated := reduce(accumulated);
    }
    var r := AdjustOptimizerLr(cfg, cosPi, groups, iter);
    assert r == Ok(LrAt(cfg, cosPi, iter));
    var hooksFired := iter % EvalInterval == 0 || iter == cfg.maxIters - 1;
    if |losses| == 0 {
      return Err(AttributeError);
    }
    outcome := Ok(IterationRecord(accumulated, r.value, syncFlags, hooksFired));
  }

  /** The iteration loop of one epoch, with the schedule method called by its
      real name. Clipping, the optimizer step, timing and printing are not
      modelled; the hook calls are recorded. */
  method TrainEpoch(
    cfg: TrainerConfig, cosPi: real -> real, reduce: real -> real,
    groups: array<ParamGroup>, lossOf: (int, int, int) -> real, epoch: int)
    returns (outcome: Result<seq<IterationRecord>>)
    modifies groups
    ensures outcome == EpochOutcome(cfg, cosPi, reduce, lossOf, epoch)
    ensures outcome.Ok? ==> groups[..] == GroupsAfterEpoch(cfg, cosPi, old(groups[..]))
    ensures outcome.Err? ==> groups[..] == if cfg.useDdp then old(groups[..])
                                           else WithLr(old(groups[..]), LrAt(cfg, cosPi, 0))
  {
    ghost var all := EpochRecords(cfg, cosPi, reduce, lossOf, epoch);
    ghost var before := old(groups[..]);
    var records := [];
    var iter := 0;
    while iter < cfg.maxIters
      invariant 0 <= iter <= NumIters(cfg)
      invariant iter > 0 ==> cfg.gradAccumIters > 0
      invariant records == all[..iter]
      invariant groups[..] == GroupsAfter(cfg, cosPi, before, iter)
    {
      var r := TrainIteration(cfg, cosPi, reduce, groups, lossOf, epoch, iter);
      if r.Err? {
        return Err(r.error);
      }
      GroupsAfterStep(cfg, cosPi, before, iter);
      assert r.value == all[iter];
      assert all[..iter + 1] == all[..iter] + [all[iter]];
      records := records + [r.value];
      iter := iter + 1;
    }
    assert all[..iter] == all;
    outcome := Ok(records);
  }

  /** Counting the records whose hooks ran. */
  function HookCalls(records: seq<IterationRecord>): nat {
    if records == [] then 0
    else HookCalls(records[..|records| - 1]) + (if records[|records| - 1].hooksFired then 1 else 0)
  }

  lemma {:induction false} HookCallsOfPrefix(
    cfg: TrainerConfig, cosPi: real -> real, reduce: real -> real,
    lossOf: (int, int, int) -> real, epoch: int, n: nat)
    requires n <= NumIters(cfg)
    ensures HookCalls(EpochRecords(cfg, cosPi, reduce, lossOf, epoch)[..n]) == CountFires(n, cfg.maxIters)
  {
    if n > 0 {
      var rs := EpochRecords(cfg, cosPi, reduce, lossOf, epoch);
      HookCallsOfPrefix(cfg, cosPi, reduce, lossOf, epoch, n - 1);
      assert rs[..n][..n - 1] == rs[..n - 1];
    }
  }

  /** Every epoch runs validation and evaluation (max_iters + 498) / 500 + 1
      times, the first time at iteration 0 and the last at max_iters - 1. */
  lemma EpochHookCalls(
    cfg: TrainerConfig, cosPi: real -> real, reduce: real -> real,
    lossOf: (int, int, int) -> real, epoch: int)
    requires cfg.maxIters > 0
    ensures var rs := EpochRecords(cfg, cosPi, reduce, lossOf, epoch);
      && HookCalls(rs) == (cfg.maxIters + 498) / 500 + 1
      && rs[0].hooksFired && rs[cfg.maxIters - 1].hooksFired
  {
    var rs := EpochRecords(cfg, cosPi, reduce, lossOf, epoch);
    HookCallsOfPrefix(cfg, cosPi, reduce, lossOf, epoch, cfg.maxIters);
    assert rs[..cfg.maxIters] == rs;
    HookCallsPerEpoch(cfg.maxIters);
  }

  /** With a valid schedule and 0 <= min_lr <= max_lr, every rate used in
      training lies in [0, max_lr], and from the end of warmup on in
      [min_lr, max_lr]. */
  lemma TrainingRatesBounded(cfg: TrainerConfig, cosPi: real -> real, i: int)
    requires ValidSchedule(cfg) && IsCosPi(cosPi) && 0.0 <= cfg.minLr <= cfg.maxLr
    requires 0 <= i < cfg.maxIters
    ensures 0.0 <= LrAt(cfg, cosPi, i) <= cfg.maxLr
    ensures i >= cfg.warmupIters ==> cfg.minLr <= LrAt(cfg, cosPi, i)
  {
    if i < cfg.warmupIters {
      WarmupIsLinear(cfg, cosPi, i);
      RampBelowPeak(cfg.maxLr, i + 1, cfg.warmupIters);
    } else {
      DecayBetweenBounds(cfg, cosPi, i);
    }
  }

  /** The rate each record of an epoch carries is the schedule's, and bounded as above. */
  lemma EpochRatesBounded(
    cfg: TrainerConfig, cosPi: real -> real, reduce: real -> real,
    lossOf: (int, int, int) -> real, epoch: int, i: int)
    requires ValidSchedule(cfg) && IsCosPi(cosPi) && 0.0 <= cfg.minLr <= cfg.maxLr
    requires 0 <= i < cfg.maxIters
    ensures var lr := EpochRecords(cfg, cosPi, reduce, lossOf, epoch)[i].lr;
      && GetLr(cfg, cosPi, i) == Ok(lr)
      && 0.0 <= lr <= cfg.maxLr
      && (i >= cfg.warmupIters ==> cfg.minLr <= lr)
  {
    assert EpochRecords(cfg, cosPi, reduce, lossOf, epoch)[i].lr == LrAt(cfg, cosPi, i);
    TrainingRatesBounded(cfg, cosPi, i);
  }

  /** Without DDP an iteration logs the mean of its micro-batch losses; the
      sync flags are only written under DDP. */
  lemma EpochLossIsMean(
    cfg: TrainerConfig, cosPi: real -> real, reduce: real -> real,
    lossOf: (int, int, int) -> real, epoch: int, i: int)
    requires !cfg.useDdp && 0 <= i < cfg.maxIters && cfg.gradAccumIters > 0
    ensures var r := EpochRecords(cfg, cosPi, reduce, lossOf, epoch)[i];
      && r.loss * cfg.gradAccumIters as real == Sum(MicroLosses(cfg, lossOf, epoch, i))
      && r.syncFlags == []
  {
    var losses := MicroLosses(cfg, lossOf, epoch, i);
    var n := |losses| as real;
    assert Sum(losses) / n * n == Sum(losses);
  }

  // ---------------------------------------------------------------------------
  // The epoch loop and the log (lines 125-129, 178-179)

  /** A line of the log file: `epoch <e> | iter <i> | train loss: <loss>`. */
  datatype LogLine = LogLine(epoch: int, iter: int, trainLoss: real)

  /** The epochs of `range(n_epochs)`. */
  function NumEpochs(cfg: TrainerConfig): nat {
    if cfg.nEpochs > 0 then cfg.nEpochs else 0
  }

  function EpochLog(epoch: int, records: seq<IterationRecord>): seq<LogLine> {
    seq(|records|, i requires 0 <= i < |records| => LogLine(epoch, i, records[i].loss))
  }

  /** The log file after the first `epochs` epochs. Only the main process
      writes (lines 175, 178-179). With no micro-step the first iteration
      raises before its line is written, so the log stays empty. */
  function TrainLog(
    cfg: TrainerConfig, cosPi: real -> real, reduce: real -> real, rank: int,
    lossOf: (int, int, int) -> real, epochs: nat): seq<LogLine>
  {
    if epochs == 0 || !IsMainProcess(cfg, rank) || cfg.gradAccumIters <= 0 then []
    else
      TrainLog(cfg, cosPi, reduce, rank, lossOf, epochs - 1)
      + EpochLog(epochs - 1, EpochRecords(cfg, cosPi, reduce, lossOf, epochs - 1))
  }

  /** What `train` ends with: the optimizer's groups, at the last iteration's
      rate once an epoch has run, or the exception it raises. */
  function TrainOutcome(cfg: TrainerConfig, cosPi: real -> real, rawModel: Option<seq<Param>>)
    : Result<seq<ParamGroup>>
  {
    match GetOptimizer(rawModel, TrainWeightDecay, TrainBaseLr)
    case Err(e) => Err(e)
    case Ok(initial) =>
      if NumEpochs(cfg) == 0 then Ok(initial)
      else if NumIters(cfg) > 0 && cfg.gradAccumIters <= 0 then Err(MissingLossError(cfg))
      else Ok(GroupsAfterEpoch(cfg, cosPi, initial))
  }

  /** `train` with both defects of the written code corrected: the epochs are
      `range(n_epochs)` and the schedule is `_get_lr`. `rank` is this
      worker's DDP rank; `log` is what the log file holds when `train`
      returns or raises. */
  method Train(
    cfg: TrainerConfig, cosPi: real -> real, reduce: real -> real, rank: int,
    rawModel: Option<seq<Param>>, lossOf: (int, int, int) -> real)
    returns (outcome: Result<seq<ParamGroup>>, log: seq<LogLine>)
    ensures outcome == TrainOutcome(cfg, cosPi, rawModel)
    ensures log == if rawModel.None? then [] else TrainLog(cfg, cosPi, reduce, rank, lossOf, NumEpochs(cfg))
  {
    var built := GetOptimizer(rawModel, TrainWeightDecay, TrainBaseLr);
    if built.Err? {
      return Err(built.error), [];
    }
    var initial := built.value;
    var groups := new ParamGroup[|initial|](i requires 0 <= i < |initial| => initial[i]);
    assert groups[..] == initial;
    log := [];
    var e := 0;
    while e < cfg.nEpochs
      invariant 0 <= e <= NumEpochs(cfg)
      invariant e > 0 ==> !(NumIters(cfg) > 0 && cfg.gradAccumIters <= 0)
      invariant log == TrainLog(cfg, cosPi, reduce, rank, lossOf, e)
      invariant groups[..] == if e == 0 then initial else GroupsAfterEpoch(cfg, cosPi, initial)
    {
      var records := TrainEpoch(cfg, cosPi, reduce, groups, lossOf, e);
      if records.Err? {
        return Err(records.error), log;
      }
      if e > 0 && cfg.maxIters > 0 {
        WithLrLastWriteWins(initial, LrAt(cfg, cosPi, cfg.maxIters - 1), LrAt(cfg, cosPi, cfg.maxIters - 1));
      }
      if IsMainProcess(cfg, rank) {
        log := log + EpochLog(e, records.value);
      }
      e := e + 1;
    }
    outcome := Ok(groups[..]);
  }

  /** `train` raises exactly when no raw model was given, or when an
      iteration runs without a micro-step; the log is then empty. */
  lemma TrainRaisesExactly(
    cfg: TrainerConfig, cosPi: real -> real, reduce: real -> real, rank: int,
    rawModel: Option<seq<Param>>, lossOf: (int, int, int) -> real)
    ensures TrainOutcome(cfg, cosPi, rawModel).Err?
        <==> rawModel.None? || (NumEpochs(cfg) > 0 && NumIters(cfg) > 0 && cfg.gradAccumIters <= 0)
    ensures rawModel.None? ==> TrainOutcome(cfg, cosPi, rawModel) == Err(AttributeError)
    ensures rawModel.Some? && TrainOutcome(cfg, cosPi, rawModel).Err? ==>
      && TrainOutcome(cfg, cosPi, rawModel).error == MissingLossError(cfg)
      && TrainLog(cfg, cosPi, reduce, rank, lossOf, NumEpochs(cfg)) == []
  {
    GetOptimizerGroups(rawModel, TrainWeightDecay, TrainBaseLr);
  }

  lemma {:induction false} TrainLogLength(
    cfg: TrainerConfig, cosPi: real -> real, reduce: real -> real, rank: int,
    lossOf: (int, int, int) -> real, epochs: nat)
    ensures |TrainLog(cfg, cosPi, reduce, rank, lossOf, epochs)|
         == if IsMainProcess(cfg, rank) && cfg.gradAccumIters > 0 then epochs * NumIters(cfg) else 0
  {
    if epochs > 0 && IsMainProcess(cfg, rank) && cfg.gradAccumIters > 0 {
      TrainLogLength(cfg, cosPi, reduce, rank, lossOf, epochs - 1);
      assert (epochs - 1) * NumIters(cfg) + NumIters(cfg) == epochs * NumIters(cfg);
    }
  }

  /** The main process logs one line per iteration of every epoch, in order:
      line e * max_iters + i is iteration i of epoch e with that
      iteration's loss. */
  lemma {:induction false} TrainLogLine(
    cfg: TrainerConfig, cosPi: real -> real, reduce: real -> real, rank: int,
    lossOf: (int, int, int) -> real, epochs: nat, e: nat, i: nat)
    requires IsMainProcess(cfg, rank) && cfg.gradAccumIters > 0
    requires e < epochs && i < cfg.maxIters
    ensures e * cfg.maxIters + i < |TrainLog(cfg, cosPi, reduce, rank, lossOf, epochs)|
    ensures TrainLog(cfg, cosPi, reduce, rank, lossOf, epochs)[e * cfg.maxIters + i]
         == LogLine(e, i, IterationRecordAt(cfg, cosPi, reduce, lossOf, e, i).loss)
  {
    var m := cfg.maxIters;
    TrainLogLength(cfg, cosPi, reduce, rank, lossOf, epochs - 1);
    var prev := TrainLog(cfg, cosPi, reduce, rank, lossOf, epochs - 1);
    assert |prev| == (epochs - 1) * m;
    if e < epochs - 1 {
      TrainLogLine(cfg, cosPi, reduce, rank, lossOf, epochs - 1, e, i);
      assert e * m + i < (epochs - 1) * m by {
        assert (e + 1) * m <= (epochs - 1) * m;
      }
    } else {
      assert e * m == |prev|;
    }
  }

  // ---------------------------------------------------------------------------
  // Line 127 as written: `for e in self.n_epochs`.

  /** The two kinds of object the epoch loop could iterate over. */
  datatype Iterable = IntObject(n: int) | RangeObject(stop: int)

  /** What `for x in v` iterates over, or the TypeError for an int. */
  function Elements(v: Iterable): Result<seq<int>> {
    match v
    case IntObject(_) => Err(TypeError)
    case RangeObject(stop) => Ok(seq(if stop > 0 then stop else 0, i => i))
  }

  /** As written, the epoch loop raises TypeError for every epoch count. */
  lemma EpochLoopAsWrittenFails(nEpochs: int)
    ensures Elements(IntObject(nEpochs)) == Err(TypeError)
  {
  }

  /** Corrected to `range(n_epochs)`, it visits 0 .. n_epochs - 1 in order. */
  lemma EpochLoopCorrected(cfg: TrainerConfig)
    ensures Elements(RangeObject(cfg.nEpochs)).Ok?
    ensures |Elements(RangeObject(cfg.nEpochs)).value| == NumEpochs(cfg)
    ensures forall k :: 0 <= k < NumEpochs(cfg) ==> Elements(RangeObject(cfg.nEpochs)).value[k] == k
  {
  }
}
