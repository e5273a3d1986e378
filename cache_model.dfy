/** The cache engine of cache/cache.go as values: geometry, address decoding, dispatch and
    the counter accounting of each handler, stated on a snapshot of the cache's state. The
    class in module CacheEngine is proved to follow these definitions. */
module CacheModel {
  import opened Wrappers
  import opened Bits
  import opened HexParse
  import opened CacheOptions
  import opened Reporting

  /** Address length in bits. */
  const AddressSize: nat := 32

  /** A trace reference: its kind (a plain integer) and its address as hex text. */
  datatype CacheCmd = CacheCmd(refType: int, address: string)

  /** A decoded address. */
  datatype CacheRequest = CacheRequest(offset: nat, setNumber: nat, tag: nat)

  /** Bit counts and set count derived from the options. */
  datatype Geometry = Geometry(numberOfSets: nat, offsetBits: nat, indexBits: nat, tagBits: nat)

  /** How a set classifies a reference. The set operations that produce it are not part of
      this model; `Other` stands for any value that is none of the three named ones. */
  datatype Outcome = Hit | CompulsoryMiss | ConflictMiss | Other {
    predicate IsMiss() { this == CompulsoryMiss || this == ConflictMiss }
  }

  /** A resident block as a set lists it: its tag and whether it is dirty. */
  datatype Entry = Entry(tag: nat, dirty: bool)

  /** What a set operation returns (outcome, words fetched, words written) and the entries it
      leaves in the set. */
  datatype SetResponse = SetResponse(outcome: Outcome, fetched: nat, written: nat, after: seq<Entry>)

  /** The set's write operation: write policy, write-miss policy, tag, current entries. */
  type ReplaceOp = (Policy, Policy, nat, seq<Entry>) -> SetResponse

  /** The set's three-result read lookup: tag, current entries. */
  type CheckTagOp = (nat, seq<Entry>) -> SetResponse

  /** The observable state of a cache: both reporters and the entries of both banks. */
  datatype Snapshot = Snapshot(
    data: Reporter,
    instruction: Reporter,
    dataBank: seq<seq<Entry>>,
    instructionBank: seq<seq<Entry>>)

  predicate Ordered2(s: Snapshot) {
    Ordered(s.data) && Ordered(s.instruction)
  }

  // ---------------------------------------------------------------- geometry

  /** What the geometry computation needs of its options: block size and set count are powers
      of two (so the floating-point log2 is exact), the bytes per set are a non-zero uint64 and
      the data-cache size is a uint64. */
  predicate ValidOptions(o: Options) {
    IsPow2(o.blockSize) && 1 <= o.associativity && o.associativity * o.blockSize < Uint64Limit &&
    o.cacheSize.dCacheSize < Uint64Limit &&
    IsPow2(o.cacheSize.dCacheSize / (o.associativity * o.blockSize))
  }

  /** The geometry of a new cache. The set count comes from the data-cache size alone. */
  function Layout(o: Options): (g: Geometry)
    requires ValidOptions(o)
    ensures Pow2(g.offsetBits) == o.blockSize
    ensures Pow2(g.indexBits) == g.numberOfSets
    ensures WholeSets(g.numberOfSets, o)
    ensures g.tagBits < Uint64Limit
    ensures g.offsetBits + g.indexBits <= AddressSize ==> g.offsetBits + g.indexBits + g.tagBits == AddressSize
    ensures g.offsetBits + g.indexBits > AddressSize ==>
              g.tagBits == Uint64Limit + AddressSize - g.offsetBits - g.indexBits
  {
    var sets := SetCount(o);
    var ob := Log2(o.blockSize);
    var ib := Log2(sets);
    Log2Below64(o.blockSize);
    Log2Below64(sets);
    var tagBits := TagBits(ob, ib);
    Geometry(sets, ob, ib, tagBits)
  }

  /** The tag width, computed in uint64: it wraps when offset and index exceed the address. */
  function TagBits(offsetBits: nat, indexBits: nat): (t: nat)
    requires offsetBits < 64 && indexBits < 64
    ensures t < Uint64Limit
    ensures offsetBits + indexBits <= AddressSize ==> offsetBits + indexBits + t == AddressSize
    ensures offsetBits + indexBits > AddressSize ==> t == Uint64Limit + AddressSize - offsetBits - indexBits
  {
    var d: int := AddressSize as int - offsetBits as int - indexBits as int;
    if d >= 0 then d else Uint64Limit + d
  }

  /** `n` sets of `associativity` blocks fit in the data-cache size and `n + 1` do not. */
  predicate WholeSets(n: nat, o: Options) {
    n * (o.associativity * o.blockSize) <= o.cacheSize.dCacheSize < (n + 1) * (o.associativity * o.blockSize)
  }

  /** Whole sets of `associativity` blocks that fit in the data-cache size. */
  function SetCount(o: Options): (n: nat)
    requires ValidOptions(o)
    ensures IsPow2(n)
    ensures WholeSets(n, o)
  {
    var setBytes: nat := o.associativity * o.blockSize;
    DivBounds(o.cacheSize.dCacheSize, setBytes);
    o.cacheSize.dCacheSize / setBytes
  }

  // ---------------------------------------------------------------- decoding

  /** Offset, set index and tag of an address: the offset bits are masked off, shifted away,
      then the index bits likewise; what is left is the tag. */
  function Decode(addr: nat, offsetBits: nat, indexBits: nat): CacheRequest {
    var rest := ShiftRight(addr, offsetBits);
    CacheRequest(LowBits(addr, offsetBits), LowBits(rest, indexBits), ShiftRight(rest, indexBits))
  }

  /** Parses the hex text of an address and splits it into offset, set index and tag; None
      where the text is not a base-16 uint64. The fields are in range and recombine exactly. */
  function ParseCacheRequest(offsetBits: nat, indexBits: nat, address: string): (r: Option<CacheRequest>)
    ensures r.Some? <==> ParseUint64Hex(address).Some?
    ensures r.Some? ==>
      var addr := ParseUint64Hex(address).value;
      r.value.offset < Pow2(offsetBits) && r.value.setNumber < Pow2(indexBits) &&
      r.value.tag * Pow2(offsetBits + indexBits) + r.value.setNumber * Pow2(offsetBits) + r.value.offset == addr
  {
    match ParseUint64Hex(address)
    case None => None
    case Some(addr) =>
      ShiftMaskExact(addr, offsetBits, indexBits);
      Some(Decode(addr, offsetBits, indexBits))
  }

  // ---------------------------------------------------------------- dispatch

  /** The three handlers a reference can reach. */
  datatype Path = WritePath | DataReadPath | InstructionReadPath

  /** Writes go to the write path; every other kind reads, from the instruction bank only when
      the cache is split and the reference is an instruction fetch. */
  function Route(t: CacheType, refType: int): (p: Path)
    ensures p == WritePath <==> refType == DataWriteRef
    ensures p == InstructionReadPath <==> t.Split? && refType == InstructionReadRef
  {
    if refType == DataWriteRef then WritePath
    else if t.Unified? then DataReadPath
    else if refType == InstructionReadRef then InstructionReadPath
    else DataReadPath
  }

  // ---------------------------------------------------------------- accounting

  /** One access classified by `o`: both kinds of miss are misses, only a conflict miss is a
      replacement. */
  function Tally(r: Reporter, o: Outcome): (t: Reporter)
    ensures t.accesses == r.accesses + 1
    ensures t.misses == r.misses + (if o.IsMiss() then 1 else 0)
    ensures t.replacements == r.replacements + (if o == ConflictMiss then 1 else 0)
    ensures t.fetchedWords == r.fetchedWords && t.copiedWords == r.copiedWords
    ensures Ordered(r) ==> Ordered(t)
  {
    var r := r.(accesses := r.accesses + 1);
    if o == ConflictMiss then r.(misses := r.misses + 1, replacements := r.replacements + 1)
    else if o == CompulsoryMiss then r.(misses := r.misses + 1)
    else r
  }

  /** Memory-bus traffic: `fetched` words read in, `copied` words written back. */
  function Traffic(r: Reporter, fetched: nat, copied: nat): (t: Reporter)
    ensures t.fetchedWords == r.fetchedWords + fetched && t.copiedWords == r.copiedWords + copied
    ensures t.accesses == r.accesses && t.misses == r.misses && t.replacements == r.replacements
  {
    r.(fetchedWords := r.fetchedWords + fetched, copiedWords := r.copiedWords + copied)
  }

  /** A data write: the data set performs the write under the configured policies; the data
      reporter counts the access and its traffic. */
  function AfterDataWrite(s: Snapshot, o: Options, cr: CacheRequest, replace: ReplaceOp): (t: Snapshot)
    requires cr.setNumber < |s.dataBank|
    ensures var resp := replace(o.writePolicy, o.writeMissPolicy, cr.tag, s.dataBank[cr.setNumber]);
      t.instruction == s.instruction && t.instructionBank == s.instructionBank &&
      t.dataBank == s.dataBank[cr.setNumber := resp.after] &&
      t.data.accesses == s.data.accesses + 1 &&
      t.data.misses == s.data.misses + (if resp.outcome.IsMiss() then 1 else 0) &&
      t.data.replacements == s.data.replacements + (if resp.outcome == ConflictMiss then 1 else 0) &&
      t.data.fetchedWords == s.data.fetchedWords + resp.fetched &&
      t.data.copiedWords == s.data.copiedWords + resp.written
    ensures Ordered2(s) ==> Ordered2(t)
  {
    var resp := replace(o.writePolicy, o.writeMissPolicy, cr.tag, s.dataBank[cr.setNumber]);
    s.(data := Tally(Traffic(s.data, resp.fetched, resp.written), resp.outcome),
       dataBank := s.dataBank[cr.setNumber := resp.after])
  }

  /** A read from the data bank: traffic always goes to the data reporter, the access, miss and
      replacement counts to the instruction reporter for an instruction fetch and to the data
      reporter otherwise. */
  function AfterDataRead(s: Snapshot, cr: CacheRequest, refType: int, checkTag: CheckTagOp): (t: Snapshot)
    requires cr.setNumber < |s.dataBank|
    ensures var resp := checkTag(cr.tag, s.dataBank[cr.setNumber]);
      t.instructionBank == s.instructionBank &&
      t.dataBank == s.dataBank[cr.setNumber := resp.after] &&
      t.data.fetchedWords == s.data.fetchedWords + resp.fetched &&
      t.data.copiedWords == s.data.copiedWords + resp.written &&
      t.instruction.fetchedWords == s.instruction.fetchedWords &&
      t.instruction.copiedWords == s.instruction.copiedWords &&
      (refType == InstructionReadRef ==>
        t.instruction.accesses == s.instruction.accesses + 1 && t.data.accesses == s.data.accesses &&
        t.instruction.misses == s.instruction.misses + (if resp.outcome.IsMiss() then 1 else 0) &&
        t.instruction.replacements == s.instruction.replacements + (if resp.outcome == ConflictMiss then 1 else 0) &&
        t.data.misses == s.data.misses && t.data.replacements == s.data.replacements) &&
      (refType != InstructionReadRef ==>
        t.data.accesses == s.data.accesses + 1 && t.instruction == s.instruction &&
        t.data.misses == s.data.misses + (if resp.outcome.IsMiss() then 1 else 0) &&
        t.data.replacements == s.data.replacements + (if resp.outcome == ConflictMiss then 1 else 0))
    ensures Ordered2(s) ==> Ordered2(t)
  {
    var resp := checkTag(cr.tag, s.dataBank[cr.setNumber]);
    var data := Traffic(s.data, resp.fetched, resp.written);
    if refType == InstructionReadRef then
      s.(data := data, instruction := Tally(s.instruction, resp.outcome),
         dataBank := s.dataBank[cr.setNumber := resp.after])
    else
      s.(data := Tally(data, resp.outcome), dataBank := s.dataBank[cr.setNumber := resp.after])
  }

  /** A read from the instruction bank of a split cache: the fetched words go to the data
      reporter, the written count is dropped, and only the instruction reporter counts the
      access. */
  function AfterInstructionRead(s: Snapshot, cr: CacheRequest, checkTag: CheckTagOp): (t: Snapshot)
    requires cr.setNumber < |s.instructionBank|
    ensures var resp := checkTag(cr.tag, s.instructionBank[cr.setNumber]);
      t.dataBank == s.dataBank &&
      t.instructionBank == s.instructionBank[cr.setNumber := resp.after] &&
      t.data == s.data.(fetchedWords := s.data.fetchedWords + resp.fetched) &&
      t.instruction.accesses == s.instruction.accesses + 1 &&
      t.instruction.misses == s.instruction.misses + (if resp.outcome.IsMiss() then 1 else 0) &&
      t.instruction.replacements == s.instruction.replacements + (if resp.outcome == ConflictMiss then 1 else 0) &&
      t.instruction.fetchedWords == s.instruction.fetchedWords &&
      t.instruction.copiedWords == s.instruction.copiedWords
    ensures Ordered2(s) ==> Ordered2(t)
  {
    var resp := checkTag(cr.tag, s.instructionBank[cr.setNumber]);
    s.(data := Traffic(s.data, resp.fetched, 0), instruction := Tally(s.instruction, resp.outcome),
       instructionBank := s.instructionBank[cr.setNumber := resp.after])
  }

  /** One reference: decoded, then routed to its handler. None where the address text does not
      decode; the source then dereferences a nil request and the run ends. */
  function AfterRequest(s: Snapshot, o: Options, offsetBits: nat, indexBits: nat, cmd: CacheCmd,
                        replace: ReplaceOp, checkTag: CheckTagOp): (t: Option<Snapshot>)
    requires |s.dataBank| == Pow2(indexBits) && |s.instructionBank| == Pow2(indexBits)
    ensures t.None? <==> ParseUint64Hex(cmd.address).None?
    ensures t.Some? ==> |t.value.dataBank| == |s.dataBank| && |t.value.instructionBank| == |s.instructionBank|
    ensures t.Some? && Ordered2(s) ==> Ordered2(t.value)
    ensures t.Some? && cmd.refType == InstructionReadRef ==>
      t.value.instruction.accesses == s.instruction.accesses + 1 && t.value.data.accesses == s.data.accesses
    ensures t.Some? && cmd.refType != InstructionReadRef ==>
      t.value.data.accesses == s.data.accesses + 1 && t.value.instruction == s.instruction
    ensures t.Some? ==>
      t.value.instruction.fetchedWords == s.instruction.fetchedWords &&
      t.value.instruction.copiedWords == s.instruction.copiedWords
    ensures t.Some? && !(o.cacheType == Split && cmd.refType == InstructionReadRef) ==>
      t.value.instructionBank == s.instructionBank
    ensures t.Some? && o.cacheType == Split && cmd.refType == InstructionReadRef ==>
      t.value.dataBank == s.dataBank && t.value.data.copiedWords == s.data.copiedWords
  {
    match ParseCacheRequest(offsetBits, indexBits, cmd.address)
    case None => None
    case Some(cr) =>
      match Route(o.cacheType, cmd.refType)
      case WritePath => Some(AfterDataWrite(s, o, cr, replace))
      case DataReadPath => Some(AfterDataRead(s, cr, cmd.refType, checkTag))
      case InstructionReadPath => Some(AfterInstructionRead(s, cr, checkTag))
  }

  // ---------------------------------------------------------------- final flush

  function DirtyInSet(entries: seq<Entry>): nat {
    if entries == [] then 0
    else DirtyInSet(entries[..|entries| - 1]) + (if entries[|entries| - 1].dirty then 1 else 0)
  }

  /** Dirty entries in a bank, counted set by set. */
  function DirtyCount(bank: seq<seq<Entry>>): nat {
    if bank == [] then 0 else DirtyCount(bank[..|bank| - 1]) + DirtyInSet(bank[|bank| - 1])
  }

  /** The final flush: one block of copy-back traffic per dirty entry of the data bank. Nothing
      else changes, dirty flags included. */
  function AfterFlush(s: Snapshot, o: Options): (t: Snapshot)
    ensures t.dataBank == s.dataBank && t.instructionBank == s.instructionBank && t.instruction == s.instruction
    ensures t.data == s.data.(copiedWords := s.data.copiedWords + DirtyCount(s.dataBank) * (o.blockSize / WordSize))
    ensures Ordered2(s) ==> Ordered2(t)
  {
    s.(data := s.data.(copiedWords := s.data.copiedWords + DirtyCount(s.dataBank) * (o.blockSize / WordSize)))
  }

  /** Flushing twice copies the dirty blocks back twice. */
  lemma FlushTwice(s: Snapshot, o: Options)
    ensures AfterFlush(AfterFlush(s, o), o).data.copiedWords ==
            s.data.copiedWords + 2 * DirtyCount(s.dataBank) * (o.blockSize / WordSize)
  {
  }

  /** Replacing the entries of one set changes the flush count by that set's difference only. */
  lemma {:induction false} DirtyCountUpdate(bank: seq<seq<Entry>>, i: nat, entries: seq<Entry>)
    requires i < |bank|
    ensures DirtyCount(bank[i := entries]) + DirtyInSet(bank[i]) == DirtyCount(bank) + DirtyInSet(entries)
    decreases |bank|
  {
    var n := |bank| - 1;
    if i < n {
      assert bank[i := entries][..n] == bank[..n][i := entries];
      DirtyCountUpdate(bank[..n], i, entries);
    } else {
      assert bank[i := entries][..n] == bank[..n];
    }
  }

  // ---------------------------------------------------------------- a whole trace

  /** The references of a trace handled one at a time; None once a reference does not decode. */
  function Run(s: Snapshot, o: Options, offsetBits: nat, indexBits: nat, cmds: seq<CacheCmd>,
               replace: ReplaceOp, checkTag: CheckTagOp): Option<Snapshot>
    requires |s.dataBank| == Pow2(indexBits) && |s.instructionBank| == Pow2(indexBits)
    decreases |cmds|
  {
    if cmds == [] then Some(s)
    else
      match AfterRequest(s, o, offsetBits, indexBits, cmds[0], replace, checkTag)
      case None => None
      case Some(t) => Run(t, o, offsetBits, indexBits, cmds[1..], replace, checkTag)
  }

  function CountKind(cmds: seq<CacheCmd>, kind: int): nat {
    if cmds == [] then 0 else (if cmds[0].refType == kind then 1 else 0) + CountKind(cmds[1..], kind)
  }

  /** Over a whole trace the counters stay ordered, and each reference is one access: the
      instruction reporter counts the instruction fetches, the data reporter everything else. */
  lemma {:induction false} RunCounts(s: Snapshot, o: Options, offsetBits: nat, indexBits: nat, cmds: seq<CacheCmd>,
                                     replace: ReplaceOp, checkTag: CheckTagOp)
    requires |s.dataBank| == Pow2(indexBits) && |s.instructionBank| == Pow2(indexBits)
    requires Ordered2(s)
    ensures var t := Run(s, o, offsetBits, indexBits, cmds, replace, checkTag);
      t.Some? ==>
        Ordered2(t.value) &&
        t.value.instruction.accesses == s.instruction.accesses + CountKind(cmds, InstructionReadRef) &&
        t.value.data.accesses + t.value.instruction.accesses == s.data.accesses + s.instruction.accesses + |cmds|
    decreases |cmds|
  {
    if cmds != [] {
      var u := AfterRequest(s, o, offsetBits, indexBits, cmds[0], replace, checkTag);
      if u.Some? {
        RunCounts(u.value, o, offsetBits, indexBits, cmds[1..], replace, checkTag);
      }
    }
  }
}
