/** The configuration's defaults, and that every configuration the engine runs with is one its event loop
    is proved for (flashrelay/flashrelay.go:88-134, flashrelay/worker.go:172-178). */
module RelayConfig {
  import opened RelayTypes

  /** The fields of Config that defaults fills in; times are in nanoseconds. */
  class Config {
    var workers: int
    var initialReqLen: int
    var maxReqLen: int
    var bufSize: int
    var maxConns: int
    var acceptBatch: int
    var hookWorkers: int
    var ringSize: nat
    var idleTimeout: int

    constructor (initialReqLen: int, maxReqLen: int, bufSize: int, maxConns: int, acceptBatch: int, idleTimeout: int)
      ensures this.initialReqLen == initialReqLen && this.maxReqLen == maxReqLen && this.bufSize == bufSize
      ensures this.maxConns == maxConns && this.acceptBatch == acceptBatch && this.idleTimeout == idleTimeout
      ensures workers == hookWorkers == 0 && ringSize == 0
    {
      this.initialReqLen, this.maxReqLen, this.bufSize := initialReqLen, maxReqLen, bufSize;
      this.maxConns, this.acceptBatch, this.idleTimeout := maxConns, acceptBatch, idleTimeout;
      workers, hookWorkers, ringSize := 0, 0, 0;
    }

    ghost predicate Filled()
      reads this
    {
      && workers > 0 && 0 < initialReqLen <= maxReqLen && bufSize > 0 && maxConns > 0 && acceptBatch > 0
      && hookWorkers > 0 && ringSize > 0
    }

    /** Every field is filled; one that was set is kept, except that the cap on requests is raised to the
        first read where it is below it. */
    method Defaults(cpus: nat)
      requires cpus > 0
      modifies this
      ensures Filled() && idleTimeout == old(idleTimeout)
      ensures workers == Or(old(workers), cpus) && hookWorkers == Or(old(hookWorkers), 256) && ringSize == Or(old(ringSize), 4096)
      ensures initialReqLen == Or(old(initialReqLen), 64)
      ensures maxReqLen == Larger(initialReqLen, Or(old(maxReqLen), 8192))
      ensures bufSize == Or(old(bufSize), 16384) && maxConns == Or(old(maxConns), 50000) && acceptBatch == Or(old(acceptBatch), 64)
    {
      if workers <= 0 { workers := cpus; }
      FillLengths();
      if maxConns <= 0 { maxConns := 50000; }
      if acceptBatch <= 0 { acceptBatch := 64; }
      if hookWorkers <= 0 { hookWorkers := 256; }
      if ringSize == 0 { ringSize := 4096; }
    }

    method FillLengths()
      modifies `initialReqLen, `maxReqLen, `bufSize
      ensures initialReqLen == Or(old(initialReqLen), 64)
      ensures maxReqLen == Larger(initialReqLen, Or(old(maxReqLen), 8192))
      ensures bufSize == Or(old(bufSize), 16384)
    {
      if initialReqLen <= 0 { initialReqLen := 64; }
      if maxReqLen <= 0 { maxReqLen := 8192; }
      if maxReqLen < initialReqLen { maxReqLen := initialReqLen; }
      if bufSize <= 0 { bufSize := 16384; }
    }

    /** What the event loop reads of the configuration. */
    method ForWorker() returns (cfg: Cfg)
      requires Filled()
      ensures GoodCfg(cfg)
      ensures cfg == Cfg(initialReqLen, maxReqLen, bufSize, maxConns, acceptBatch, cfg.idleTicks)
      ensures cfg.idleTicks > 0 <==> idleTimeout > 0
      ensures idleTimeout >= 100_000_000 ==> cfg.idleTicks * 100_000_000 <= idleTimeout < (cfg.idleTicks + 1) * 100_000_000
      ensures 0 < idleTimeout < 100_000_000 ==> cfg.idleTicks == 1
    {
      var idleTicks := 0;
      if idleTimeout > 0 {
        idleTicks := idleTimeout / TICK;
        if idleTicks == 0 {
          idleTicks := 1;
        }
      }
      return Cfg(initialReqLen, maxReqLen, bufSize, maxConns, acceptBatch, idleTicks);
    }
  }

  /** The timer fires every 100 ms. */
  const TICK: nat := 100_000_000

  /** A value that was set, or its default. */
  function Or(x: int, default: int): int {
    if x > 0 then x else default
  }

  function Larger(a: int, b: int): int {
    if a < b then b else a
  }
}
