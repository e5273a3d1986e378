/** The configuration types and constants of the simulator (cache/options.go). */
module CacheOptions {
  /** Cache organisation: one bank for instructions and data, or two banks. Unified = 0, Split = 1. */
  datatype CacheType = Unified | Split {
    function Code(): nat {
      match this
      case Unified => 0
      case Split => 1
    }
  }

  /** Write-hit and write-miss policies share one iota sequence in the source. */
  datatype Policy = WriteBack | WriteThrough | WriteAllocate | NoWriteAllocate {
    function Code(): nat {
      match this
      case WriteBack => 0
      case WriteThrough => 1
      case WriteAllocate => 2
      case NoWriteAllocate => 3
    }
  }

  /** Reference kinds. A command carries its kind as a plain integer, so other values can occur. */
  const DataReadRef: int := 0
  const DataWriteRef: int := 1
  const InstructionReadRef: int := 2

  /** Bytes per word. */
  const WordSize: nat := 4

  /** Capacities in bytes of the instruction and the data cache. */
  datatype CacheSize = CacheSize(iCacheSize: nat, dCacheSize: nat)

  datatype Options = Options(
    blockSize: nat,
    cacheType: CacheType,
    associativity: nat,
    writePolicy: Policy,
    writeMissPolicy: Policy,
    cacheSize: CacheSize)
}
