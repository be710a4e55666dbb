/** The optimizer's parameter groups and `Trainer.adjust_optimizer_lr`, which
    writes the scheduled learning rate into every group in place. */
module OptimizerLr {
  import opened PyErrors
  import opened Config
  import opened LrSchedule
  import opened ParamPartition

  /** A parameter group as the optimizer holds it: tensors, weight decay and
      the group's current learning rate. */
  datatype ParamGroup = ParamGroup(params: seq<Param>, weightDecay: real, lr: real)

  /** The groups right after the optimizer is built from `specs`: a group
      that names no learning rate takes the optimizer's base rate. */
  function InitialGroups(specs: seq<GroupSpec>, learningRate: real): seq<ParamGroup> {
    seq(|specs|, i requires 0 <= i < |specs| => ParamGroup(specs[i].params, specs[i].weightDecay, learningRate))
  }

  /** Every group with its `lr` entry set to `lr` and nothing else touched. */
  function WithLr(groups: seq<ParamGroup>, lr: real): seq<ParamGroup> {
    seq(|groups|, i requires 0 <= i < |groups| => groups[i].(lr := lr))
  }

  /** After the update every group runs at `lr`; the number of groups, their
      tensors and their weight decays are as before. */
  lemma WithLrSetsOnlyLr(groups: seq<ParamGroup>, lr: real)
    ensures |WithLr(groups, lr)| == |groups|
    ensures forall i :: 0 <= i < |groups| ==>
      && WithLr(groups, lr)[i].lr == lr
      && WithLr(groups, lr)[i].params == groups[i].params
      && WithLr(groups, lr)[i].weightDecay == groups[i].weightDecay
  {
  }

  /** Two updates in a row leave the groups as the second one alone would. */
  lemma WithLrLastWriteWins(groups: seq<ParamGroup>, a: real, b: real)
    ensures WithLr(WithLr(groups, a), b) == WithLr(groups, b)
  {
  }

  /** The update keeps the two groups `_get_optimizer` built: the decayed
      group keeps its decay, the other keeps none. */
  lemma WithLrKeepsOptimGroups(named: seq<Param>, weightDecay: real, base: real, lr: real)
    ensures var groups := WithLr(InitialGroups(OptimGroups(named, weightDecay), base), lr);
      && |groups| == 2
      && groups[0].params == PartitionParams(named).decay && groups[0].weightDecay == weightDecay
      && groups[1].params == PartitionParams(named).nodecay && groups[1].weightDecay == 0.0
      && groups[0].lr == lr && groups[1].lr == lr
  {
  }

  /** `_get_optimizer(weight_decay, learning_rate)` on `self.raw_model`: the
      groups the optimizer starts with, or the AttributeError that
      `None.named_parameters()` raises when no raw model was given (the
      constructor's default, line 47). */
  function GetOptimizer(rawModel: Option<seq<Param>>, weightDecay: real, learningRate: real)
    : Result<seq<ParamGroup>>
  {
    match rawModel
    case None => Err(AttributeError)
    case Some(named) => Ok(InitialGroups(OptimGroups(named, weightDecay), learningRate))
  }

  /** The optimizer is built iff a raw model was given; it then holds the
      rank >= 2 tensors with the given decay and the other trainable tensors
      with none, both at the base rate. */
  lemma GetOptimizerGroups(rawModel: Option<seq<Param>>, weightDecay: real, learningRate: real)
    ensures GetOptimizer(rawModel, weightDecay, learningRate).Ok? <==> rawModel.Some?
    ensures rawModel.None? ==> GetOptimizer(rawModel, weightDecay, learningRate) == Err(AttributeError)
    ensures rawModel.Some? ==>
      var groups := GetOptimizer(rawModel, weightDecay, learningRate).value;
      && |groups| == 2
      && groups[0].weightDecay == weightDecay && groups[1].weightDecay == 0.0
      && groups[0].lr == learningRate && groups[1].lr == learningRate
      && (forall p :: p in groups[0].params <==> p in TrainableParams(rawModel.value) && p.dim >= 2)
      && (forall p :: p in groups[1].params <==> p in TrainableParams(rawModel.value) && p.dim < 2)
  {
    if rawModel.Some? {
      OptimGroupsShape(rawModel.value, weightDecay);
    }
  }

  /** Line 183 onwards, with the schedule method called by its real name:
      compute the rate, then set it in every group in order. A failing
      schedule raises before any group is touched. */
  method AdjustOptimizerLr(cfg: TrainerConfig, cosPi: real -> real, groups: array<ParamGroup>, iter: int)
    returns (r: Result<real>)
    modifies groups
    ensures r == GetLr(cfg, cosPi, iter)
    ensures r.Ok? ==> groups[..] == WithLr(old(groups[..]), r.value)
    ensures r.Err? ==> groups[..] == old(groups[..])
  {
    r := GetLr(cfg, cosPi, iter);
    if r.Err? {
      return;
    }
    var lr := r.value;
    for i := 0 to groups.Length
      invariant forall k :: 0 <= k < i ==> groups[k] == old(groups[k]).(lr := lr)
      invariant forall k :: i <= k < groups.Length ==> groups[k] == old(groups[k])
    {
      groups[i] := groups[i].(lr := lr);
    }
  }

  // ---------------------------------------------------------------------------
  // Line 183 as written: `self.get_lr(iter)`.

  /** The attributes that `Trainer` itself defines: its methods and the
      fields the constructor and the device setup assign. What every object
      inherits from `object` (`__class__`, `__dict__`, ...) is not listed;
      none of it is named `get_lr`. */
  const TrainerAttributes: set<string> := {
    "__init__", "_setup_device", "_setup_ddp", "train", "adjust_optimizer_lr",
    "_on_epoch_begin", "validate", "evaluate", "_get_lr", "_get_optimizer",
    "model", "raw_model", "n_epochs", "train_loader", "val_loader",
    "warmup_iters", "max_iters", "grad_accum_iters", "max_lr", "min_lr",
    "use_ddp", "monitor", "log_dir", "log_file", "device", "device_type",
    "ddp_rank", "ddp_local_rank", "ddp_world_size", "main_process"
  }

  /** `self.<name>`: the attribute's name, or the AttributeError Python raises. */
  function LookupAttribute(name: string): Result<string> {
    if name in TrainerAttributes then Ok(name) else Err(AttributeError)
  }

  /** `adjust_optimizer_lr` as written: the lookup of `get_lr` comes first,
      and only if it succeeded would the rate be computed and stored. */
  function AdjustOptimizerLrAsWritten(cfg: TrainerConfig, cosPi: real -> real, groups: seq<ParamGroup>, iter: int)
    : Result<(real, seq<ParamGroup>)>
  {
    match LookupAttribute("get_lr")
    case Err(e) => Err(e)
    case Ok(_) =>
      match GetLr(cfg, cosPi, iter)
      case Err(e) => Err(e)
      case Ok(lr) => Ok((lr, WithLr(groups, lr)))
  }

  /** The schedule method is `_get_lr`; `get_lr` does not exist, so the
      written update raises AttributeError on every call. */
  lemma AdjustOptimizerLrAsWrittenAlwaysFails(cfg: TrainerConfig, cosPi: real -> real, groups: seq<ParamGroup>, iter: int)
    ensures "_get_lr" in TrainerAttributes && "get_lr" !in TrainerAttributes
    ensures AdjustOptimizerLrAsWritten(cfg, cosPi, groups, iter) == Err(AttributeError)
  {
  }
}
