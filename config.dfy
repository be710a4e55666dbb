/** The trainer's configuration as far as the modelled code reads it (the
    constructor arguments kept in `self`), and the worker topology that the
    device setup derives from it. */
module Config {

  datatype TrainerConfig = TrainerConfig(
    nEpochs: int,
    warmupIters: int,
    maxIters: int,
    gradAccumIters: int,
    maxLr: real,
    minLr: real,
    useDdp: bool)

  /** `self.main_process`: always true without DDP (line 103); under DDP it
      holds for the process of rank 0 only (line 117). */
  predicate IsMainProcess(cfg: TrainerConfig, rank: int) {
    !cfg.useDdp || rank == 0
  }
}
