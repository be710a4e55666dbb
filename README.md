# Trainer core of GPT-from-scratch, modelled in Dafny

`src/trainers/trainer.py` defines `Trainer`, the training driver of a small
GPT implementation. This project models its control logic:

- the learning-rate schedule `_get_lr`: a linear warmup, then a cosine decay
  from `max_lr` to `min_lr`, then a floor at `min_lr` past `max_iters`;
- the parameter partition of `_get_optimizer`: trainable tensors of rank at
  least 2 get weight decay, the others get none;
- `adjust_optimizer_lr`, which writes the scheduled rate into every
  optimizer parameter group in place;
- the body of `train`: gradient accumulation over `grad_accum_iters`
  micro-steps, the DDP gradient-sync flag, the validation/evaluation hook
  schedule, the epoch loop and the log file it writes.

Python exceptions are values of `PyErrors.Result`. The modules are:

- `Config` (`config.dfy`): the constructor arguments the core reads, and
  `IsMainProcess`, the main-process flag that the device setup derives
  (always true without DDP, rank 0 under DDP).
- `LrSchedule` (`schedule.dfy`): the schedule and its failure cases.
- `ParamPartition` (`partition.dfy`): the dict comprehensions and the split.
- `OptimizerLr` (`optimizer.dfy`): `_get_optimizer`'s groups, and the
  in-place update of `adjust_optimizer_lr`, a method over an `array`.
- `TrainLoop` (`train.dfy`): the loops of `train`, as methods with loop
  invariants, each proved against a specification function.
- `TrainerDefaults` (`defaults.dfy`): what the constructor defaults do.

The model works on mathematical reals, not on IEEE doubles. `math.cos(math.pi * x)`
is a parameter `cosPi`. The predicate `IsCosPi` constrains it to what the
schedule relies on:

- it is 1 at 0 and -1 at 1;
- it stays in [-1, 1] on [0, 1];
- it does not increase on [0, 1].

The data loader, the forward pass and the loss function are a parameter
`lossOf(epoch, iter, micro_iter)`. The all-reduce is a parameter `reduce`.
The worker's DDP rank is a parameter `rank`.

`raw_model` is an `Option`. With its default `None` (line 47),
`_get_optimizer` raises AttributeError at line 240, so `train` raises
before the epoch loop. With `grad_accum_iters <= 0` the micro-step loop does
not run and `accumulated_loss` stays the float `0.0`. The first iteration
then raises: under DDP in `dist.all_reduce` (line 152), otherwise at
`.item()` (lines 177 and 179). `TrainLoop.Train` models both exceptions.

The modelled `train` and `adjust_optimizer_lr` use the corrected code,
`range(self.n_epochs)` and `self._get_lr`. The code as written is modelled
next to them, under "## Findings".

## Model

| member | source | states |
|---|---|---|
| LrSchedule.GetLrFailsExactly | src/trainers/trainer.py:216-228 | `_get_lr` raises exactly when iter < warmup == 0, or when iter == warmup == max; the exception is then always ZeroDivisionError |
| LrSchedule.DecayAssertionNeverFails | src/trainers/trainer.py:219-224 | the assertion `0 <= decay_ratio <= 1` never fails, for any configuration or iteration |
| LrSchedule.TrainingIterationsHaveLr | src/trainers/trainer.py:216-228 | every iteration of `range(max_iters)` gets a rate, whatever the configuration |
| LrSchedule.ValidScheduleNeverFails | src/trainers/trainer.py:216-228 | with 0 < warmup < max, no non-negative iteration raises |
| LrSchedule.WarmupIsLinear | src/trainers/trainer.py:216-217 | below warmup, the rate is max_lr * (iter + 1) / warmup |
| LrSchedule.WarmupStrictlyIncreasing | src/trainers/trainer.py:216-217 | with a positive peak, the warmup rates strictly increase |
| LrSchedule.WarmupFirstRatePositive | src/trainers/trainer.py:216-217 | iteration 0 already uses a positive rate, so warmup never trains at rate 0 |
| LrSchedule.WarmupEndsAtPeak | src/trainers/trainer.py:216-217 | the last warmup iteration reaches max_lr exactly |
| LrSchedule.CosineLrAtZero | src/trainers/trainer.py:226-228 | at decay ratio 0 the interpolation gives max_lr |
| LrSchedule.CosineLrAtOne | src/trainers/trainer.py:226-228 | at decay ratio 1 the interpolation gives min_lr |
| LrSchedule.CosineLrBetween | src/trainers/trainer.py:226-228 | for min_lr <= max_lr and a ratio in [0, 1], the interpolation lies in [min_lr, max_lr] |
| LrSchedule.CosineLrMonotone | src/trainers/trainer.py:226-228 | the interpolation moves from max_lr towards min_lr as the ratio grows; it falls when min_lr <= max_lr and rises when max_lr <= min_lr |
| LrSchedule.DecayIsCosine | src/trainers/trainer.py:219-228 | for warmup <= iter <= max, the ratio is in [0, 1] and the rate is the cosine interpolation at that ratio |
| LrSchedule.PastHorizonIsMinLr | src/trainers/trainer.py:219-220 | past max_iters the rate is min_lr |
| LrSchedule.ContinuousAtWarmupEnd | src/trainers/trainer.py:216-228 | at iter == warmup the ratio is 0 and the rate is max_lr, so there is no jump after warmup |
| LrSchedule.ContinuousAtHorizon | src/trainers/trainer.py:219-228 | at iter == max the ratio is 1 and the rate is min_lr, the same as the floor past the horizon |
| LrSchedule.DecayBetweenBounds | src/trainers/trainer.py:219-228 | from warmup on, every rate lies in [min_lr, max_lr] when min_lr <= max_lr |
| LrSchedule.DecayNonIncreasing | src/trainers/trainer.py:219-228 | from warmup on, the rate never increases when min_lr <= max_lr |
| LrSchedule.DecayRisesWhenInverted | src/trainers/trainer.py:219-228 | with max_lr <= min_lr, the decay phase never decreases |
| LrSchedule.InvertedBoundsDecayRises | src/trainers/trainer.py:219-228 | with max_lr < min_lr, the rate at the horizon is strictly above the rate at the end of warmup |
| LrSchedule.WorkedSchedule | src/trainers/trainer.py:216-228 | warmup 2, max 10, peak 0.1, floor 0.01 give rates 0.05, 0.1, 0.1 and 0.01 at iterations 0, 1, 2 and 10 |
| LrSchedule.DegenerateHorizonDivides | src/trainers/trainer.py:219-222 | with warmup == max == 10, iteration 10 raises ZeroDivisionError |
| LrSchedule.GuardedFailsExactly | src/trainers/trainer.py:216-228 | with the horizon test as `iter >= max_iters`, the schedule raises only for iter < warmup == 0 |
| LrSchedule.GuardedAgreesWhereDefined | src/trainers/trainer.py:216-228 | wherever the written schedule gives a rate, the guarded one gives the same rate |
| ParamPartition.Put | src/trainers/trainer.py:240 | after `d[k] = p` the pair is in the dict, and the dict either keeps its length or is the old one with the pair appended |
| ParamPartition.PutExisting | src/trainers/trainer.py:240 | re-inserting an existing key keeps the length, puts the new pair in the slot that held the key, and leaves every other entry in place |
| ParamPartition.PutNames | src/trainers/trainer.py:240 | an insertion adds exactly its key to the key set |
| ParamPartition.PutKeepsUnique | src/trainers/trainer.py:240 | an insertion keeps every key unique |
| ParamPartition.PutNew | src/trainers/trainer.py:240 | a new key is appended at the end, preserving insertion order |
| ParamPartition.BuildDict | src/trainers/trainer.py:240-241 | the dict comprehension has unique keys, and they are exactly the names of its input |
| ParamPartition.BuildDictOfUnique | src/trainers/trainer.py:240-241 | when no name repeats, the comprehension keeps every pair in its original order |
| ParamPartition.FilterMembership | src/trainers/trainer.py:241-246 | a comprehension's `if` keeps exactly the elements that satisfy it |
| ParamPartition.FilterKeepsUnique | src/trainers/trainer.py:241 | filtering a dict's items keeps their names unique |
| ParamPartition.FilterSplitInterleaves | src/trainers/trainer.py:245-246 | filtering by a key and by its negation splits the input into two order-preserving parts that interleave back to it |
| ParamPartition.InterleavingSums | src/trainers/trainer.py:245-254 | two interleaving parts add up to the whole in length, multiset and element count |
| ParamPartition.TrainableIsFilter | src/trainers/trainer.py:240-241 | for a model with unique names, the trainable dict is the parameters that require a gradient, in the model's order |
| ParamPartition.TrainableMembership | src/trainers/trainer.py:240-241 | a parameter is trainable iff it belongs to the model and requires a gradient |
| ParamPartition.PartitionCorrect | src/trainers/trainer.py:245-254 | decay and nodecay interleave to the trainable list and are a permutation of it; a tensor is decayed iff its rank is at least 2, and not decayed iff its rank is below 2; the two counts add up to the trainable total |
| ParamPartition.OptimGroupsShape | src/trainers/trainer.py:248-251 | there are two groups: the rank >= 2 tensors with the given weight decay, then the rest with decay 0.0 |
| OptimizerLr.WithLrSetsOnlyLr | src/trainers/trainer.py:184-185 | after the update every group has the new `lr`, and its tensors, its weight decay and the group count are unchanged |
| OptimizerLr.WithLrLastWriteWins | src/trainers/trainer.py:184-185 | two updates in a row give the same groups as the second alone |
| OptimizerLr.WithLrKeepsOptimGroups | src/trainers/trainer.py:184-185 | the update keeps both groups of `_get_optimizer` and their weight decays, and sets both to the new rate |
| OptimizerLr.GetOptimizerGroups | src/trainers/trainer.py:240-251 | the groups are built iff a raw model is given, else AttributeError; there are then two groups at the base rate, the rank >= 2 trainable tensors with the given decay and the other trainable tensors with decay 0.0 |
| OptimizerLr.AdjustOptimizerLr | src/trainers/trainer.py:182-187 | the method returns the scheduled rate and writes it into every group of the array in place; if the schedule raises, no group changes |
| OptimizerLr.AdjustOptimizerLrAsWrittenAlwaysFails | src/trainers/trainer.py:183 | `get_lr` is not among the attributes Trainer defines while `_get_lr` is, so the written update raises AttributeError on every call |
| TrainLoop.ScaledSumIsSumScaled | src/trainers/trainer.py:147-148 | adding each loss divided by n gives the sum of the losses divided by n |
| TrainLoop.AccumulateMicroSteps | src/trainers/trainer.py:135-149 | the accumulator ends as the mean of the micro-batch losses, and accumulated * n equals their sum; under DDP there is one sync flag per micro-step and a flag is true iff it is the last micro-step; without DDP no flag is written |
| TrainLoop.FourMicroBatchesAverage | src/trainers/trainer.py:135-149 | four micro-batches give (a + b + c + d) / 4 |
| TrainLoop.HooksFireAtEnds | src/trainers/trainer.py:160-164 | validation and evaluation run at the first and at the last iteration of an epoch |
| TrainLoop.CountFiresBelowLast | src/trainers/trainer.py:162 | among iterations 0 .. n-1 below the last one, the hooks run ceil(n / 500) times |
| TrainLoop.HookCallsPerEpoch | src/trainers/trainer.py:160-164 | an epoch of m iterations runs the hooks (m + 498) / 500 + 1 times |
| TrainLoop.LrAt | src/trainers/trainer.py:156 | the rate of a training iteration is the schedule's, which never fails there |
| TrainLoop.TrainingRatesUnaffectedByGuard | src/trainers/trainer.py:219-222 | at every training iteration the written and the guarded schedule agree |
| TrainLoop.GroupsAfterStep | src/trainers/trainer.py:156 | iteration n takes the groups after n iterations to those after n + 1 |
| TrainLoop.TrainIteration | src/trainers/trainer.py:135-179 | one iteration records the (reduced) mean loss, the scheduled rate, the sync flags and whether the hooks ran, and writes the rate into every group; with no micro-step it raises instead, under DDP at the all-reduce before any group changes, otherwise at `.item()` after the rate was set |
| TrainLoop.TrainEpoch | src/trainers/trainer.py:130-179 | the iteration loop records exactly one outcome per iteration 0 .. max_iters-1, in order, and leaves the groups at the last iteration's rate; with no micro-step its first iteration raises and leaves the groups as that iteration did |
| TrainLoop.HookCallsOfPrefix | src/trainers/trainer.py:160-164 | the first n records of an epoch ran the hooks as often as the schedule counts |
| TrainLoop.EpochHookCalls | src/trainers/trainer.py:160-164 | the records of an epoch show (max_iters + 498) / 500 + 1 hook runs, including the first and the last iteration |
| TrainLoop.TrainingRatesBounded | src/trainers/trainer.py:216-228 | with 0 < warmup < max and 0 <= min_lr <= max_lr, every training rate lies in [0, max_lr], and from warmup on in [min_lr, max_lr] |
| TrainLoop.EpochRatesBounded | src/trainers/trainer.py:216-228 | the rate each record of an epoch carries is the schedule's, and is bounded as above |
| TrainLoop.EpochLossIsMean | src/trainers/trainer.py:135-152 | without DDP, an iteration's loss times grad_accum_iters is the sum of its micro-batch losses, and no sync flag is written |
| TrainLoop.Train | src/trainers/trainer.py:125-179 | training ends with the groups of `_get_optimizer` (decay 0.1, base rate 6e-4) set to the last iteration's rate, or raises as `TrainOutcome` says; the log file holds the lines `TrainLog` gives, and none when no raw model was given |
| TrainLoop.TrainRaisesExactly | src/trainers/trainer.py:125-179 | training raises iff no raw model was given (AttributeError) or an iteration runs with no micro-step (the all-reduce's TypeError under DDP, else AttributeError); in the latter case no log line is written |
| TrainLoop.TrainLogLength | src/trainers/trainer.py:175-179 | the main process's log has n_epochs * max_iters lines when the micro-steps run; other processes, and a run with no micro-step, write none |
| TrainLoop.TrainLogLine | src/trainers/trainer.py:175-179 | on the main process with micro-steps, line e * max_iters + i of the log is iteration i of epoch e, with that iteration's loss |
| TrainLoop.EpochLoopAsWrittenFails | src/trainers/trainer.py:127 | iterating over the int `n_epochs` raises TypeError |
| TrainLoop.EpochLoopCorrected | src/trainers/trainer.py:127 | `range(n_epochs)` visits 0 .. n_epochs-1 in order |
| TrainerDefaults.DefaultLrBoundsInverted | src/trainers/trainer.py:48-53 | with the defaults, min_lr > max_lr; the rate is 6e-4 at iteration 715, rises monotonically through the decay phase, and ends at 6e-3 at 19073 |
| TrainerDefaults.CorrectedDefaultDecays | src/trainers/trainer.py:48-53 | with min_lr = 6e-5, the rate peaks at 6e-4 after warmup, never rises, and stays in [6e-5, 6e-4] from iteration 715 on, reaching 6e-5 at 19073 |

## Left out

- Device selection and DDP setup (lines 81-117): these read the environment and CUDA state. The rank is the parameter `rank`, and `Config.IsMainProcess` derives the main-process flag from it as lines 103 and 117 do.
- `dist.all_reduce` (line 152): this is communication between workers. It is the parameter `reduce`, applied only under DDP. Averaging across workers is not modelled.
- `OptimizerLr.TrainerAttributes` lists only the methods and fields `Trainer` itself defines, not what it inherits from `object`; none of those is named `get_lr` either.
- The data loader, `autocast`, the forward pass, `cross_entropy` and `backward` (lines 138-149): these are tensor computation. Their per-micro-batch losses are the parameter `lossOf`.
- `_on_epoch_begin` and the loader reset (lines 128, 189-190): the loader is state outside the core. `lossOf` takes the epoch as an argument instead.
- `clip_grad_norm_` and `optimizer.step()` (lines 154, 158): gradient arithmetic is not modelled. The printed `norm` is therefore left out as well.
- AdamW construction and the fused-kernel detection (lines 260-275): these are foreign library calls. `GetOptimizer` models only the groups that the optimizer receives, at its base rate.
- The group-size prints of `_get_optimizer` (lines 253-258) and the fused-path print (lines 264-265): console output. The element counts of lines 253-254 are modelled in `PartitionParams`.
- `self.model.train()` and `optimizer.zero_grad()` (lines 133-134): they set a mode flag on the model and clear gradients, which are tensor state outside the core.
- The class of the exception `dist.all_reduce` raises for a float argument (`TrainLoop.MissingLossError`) is taken to be TypeError, the class torch.distributed uses for an argument that is not a tensor; another PyTorch version may raise a different class at the same line.
- Timing, `torch.cuda.synchronize`, tokens per second and the console print (lines 131, 166-177): these are clocks and I/O. The log file is modelled as its sequence of lines; its textual formatting is not.
- `validate` and `evaluate` (lines 193-206): their bodies are `pass`. Only when they run is recorded.
- Log-directory creation, `set_float32_matmul_precision` and `model.to` (lines 72-88): these are file-system and device effects.
- Floating point: rates and losses are reals, so rounding in `(iter + 1) / warmup` and in the cosine is not modelled.
- `math.cos`: it is the parameter `cosPi`, constrained only by `IsCosPi`.
- ParamPartition.TrainableIsFilter: it assumes that `named_parameters()` yields unique names, as PyTorch does. BuildDict models the general case.

## Findings

| source | as written | input that shows it | evidently intended | confidence | as-written member | corrected member |
|---|---|---|---|---|---|---|
| src/trainers/trainer.py:127 | `for e in self.n_epochs` iterates over an int | any call of `train`, e.g. n_epochs = 1 | `for e in range(self.n_epochs)` | high, not executed | TrainLoop.EpochLoopAsWrittenFails | TrainLoop.EpochLoopCorrected |
| src/trainers/trainer.py:183 | `self.get_lr(iter)`, but the method is `_get_lr` | any call of `adjust_optimizer_lr` | `self._get_lr(iter)` | high, not executed | OptimizerLr.AdjustOptimizerLrAsWrittenAlwaysFails | OptimizerLr.AdjustOptimizerLr |
| src/trainers/trainer.py:52-53 | default max_lr = 6e-4, min_lr = 6e-3, so the "cosine decay" climbs tenfold | the default constructor, iterations 715 .. 19073 | min_lr = 6e-5, a tenth of the peak | medium, not executed | TrainerDefaults.DefaultLrBoundsInverted | TrainerDefaults.CorrectedDefaultDecays |
| src/trainers/trainer.py:219-222 | the horizon test `iter > max_iters` lets iter == max_iters reach a division by max_iters - warmup_iters | warmup_iters = max_iters = 10, `_get_lr(10)` | `iter >= max_iters` returns min_lr | low (`train` never reaches iter == max_iters), not executed | LrSchedule.DegenerateHorizonDivides | LrSchedule.GuardedFailsExactly |

In the last row, `LrSchedule.GuardedAgreesWhereDefined` shows that the guarded
schedule agrees with the written one wherever the written one gives a rate.
`TrainLoop.TrainingRatesUnaffectedByGuard` shows that the two agree at every
iteration the training loop visits. The training model is therefore the same
under either schedule.
