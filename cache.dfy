/** The cache of cache/cache.go as an object: geometry fixed at construction, two banks of
    sets, two reporters whose counters the handlers increment in place. Each method is proved
    to take the cache's snapshot to what module CacheModel says. */
module CacheEngine {
  import opened Wrappers
  import opened Bits
  import opened CacheOptions
  import opened Reporting
  import opened CacheModel

  lemma MulSucc(a: nat, b: nat)
    ensures (a + 1) * b == a * b + b
  {
  }

  class Cache {
    const options: Options
    var dataReporter: Reporter
    var instructionReporter: Reporter

    const numberOfSets: nat
    const offsetBits: nat
    const indexBits: nat
    const tagBits: nat

    /** The entries of each data set (each instruction set), indexed by set number. */
    const tags: array<seq<Entry>>
    const instructionTags: array<seq<Entry>>
    /** One flag per way of each set; allocated and never used afterwards. */
    const dirty: array<seq<bool>>

    ghost predicate Valid()
      reads this
    {
      tags.Length == numberOfSets && instructionTags.Length == numberOfSets &&
      dirty.Length == numberOfSets && Pow2(indexBits) == numberOfSets &&
      tags != instructionTags &&
      Ordered(dataReporter) && Ordered(instructionReporter)
    }

    ghost function State(): Snapshot
      reads this, tags, instructionTags
    {
      Snapshot(dataReporter, instructionReporter, tags[..], instructionTags[..])
    }

    /** Derives the geometry from the options and allocates both banks with one empty set per
        set number (the instruction bank sized from the data-cache size too) and zeroed
        reporters. */
    constructor NewCache(options: Options)
      requires ValidOptions(options)
      ensures Valid() && fresh(tags) && fresh(instructionTags) && fresh(dirty)
      ensures this.options == options
      ensures Geometry(numberOfSets, offsetBits, indexBits, tagBits) == Layout(options)
      ensures State() == Snapshot(Zero, Zero, seq(numberOfSets, _ => []), seq(numberOfSets, _ => []))
      ensures forall i :: 0 <= i < dirty.Length ==> dirty[i] == seq(options.associativity, _ => false)
    {
      var g := Layout(options);
      var n := g.numberOfSets;
      var bank := new seq<Entry>[n];
      var instructionBank := new seq<Entry>[n];
      var flags := new seq<bool>[n];
      var i := 0;
      while i < n
        invariant 0 <= i <= n
        invariant forall j :: 0 <= j < i ==>
          bank[j] == [] && instructionBank[j] == [] && flags[j] == seq(options.associativity, _ => false)
      {
        bank[i] := [];
        instructionBank[i] := [];
        flags[i] := seq(options.associativity, _ => false);
        i := i + 1;
      }
      this.options := options;
      numberOfSets, offsetBits, indexBits, tagBits := n, g.offsetBits, g.indexBits, g.tagBits;
      tags, instructionTags, dirty := bank, instructionBank, flags;
      dataReporter := Reporter(0, 0, 0, 0, 0);
      instructionReporter := Reporter(0, 0, 0, 0, 0);
      new;
      assert tags[..] == seq(numberOfSets, _ => []);
      assert instructionTags[..] == seq(numberOfSets, _ => []);
    }

    /** Writes through the data set `cr` selects; reports whether the write hit. */
    method HandleDataWrite(cr: CacheRequest, replace: ReplaceOp) returns (hit: bool)
      requires Valid() && cr.setNumber < numberOfSets
      modifies this, tags
      ensures Valid()
      ensures State() == AfterDataWrite(old(State()), options, cr, replace)
      ensures hit <==> replace(options.writePolicy, options.writeMissPolicy, cr.tag, old(tags[cr.setNumber])).outcome == Hit
    {
      var resp := replace(options.writePolicy, options.writeMissPolicy, cr.tag, tags[cr.setNumber]);
      tags[cr.setNumber] := resp.after;

      dataReporter := dataReporter.(fetchedWords := dataReporter.fetchedWords + resp.fetched);
      dataReporter := dataReporter.(copiedWords := dataReporter.copiedWords + resp.written);
      dataReporter := dataReporter.(accesses := dataReporter.accesses + 1);

      if resp.outcome == ConflictMiss {
        dataReporter := dataReporter.(misses := dataReporter.misses + 1);
        dataReporter := dataReporter.(replacements := dataReporter.replacements + 1);
      } else if resp.outcome == CompulsoryMiss {
        dataReporter := dataReporter.(misses := dataReporter.misses + 1);
      }
      hit := resp.outcome == Hit;
    }

    /** Reads through the data set `cr` selects, counting the access for the reporter of
        `refType`; reports whether the read hit. */
    method HandleDataRead(cr: CacheRequest, refType: int, checkTag: CheckTagOp) returns (hit: bool)
      requires Valid() && cr.setNumber < numberOfSets
      modifies this, tags
      ensures Valid()
      ensures State() == AfterDataRead(old(State()), cr, refType, checkTag)
      ensures hit <==> checkTag(cr.tag, old(tags[cr.setNumber])).outcome == Hit
    {
      var resp := checkTag(cr.tag, tags[cr.setNumber]);
      tags[cr.setNumber] := resp.after;

      dataReporter := dataReporter.(fetchedWords := dataReporter.fetchedWords + resp.fetched);
      dataReporter := dataReporter.(copiedWords := dataReporter.copiedWords + resp.written);

      if refType == InstructionReadRef {
        instructionReporter := instructionReporter.(accesses := instructionReporter.accesses + 1);
        if resp.outcome == ConflictMiss {
          instructionReporter := instructionReporter.(misses := instructionReporter.misses + 1);
          instructionReporter := instructionReporter.(replacements := instructionReporter.replacements + 1);
        } else if resp.outcome == CompulsoryMiss {
          instructionReporter := instructionReporter.(misses := instructionReporter.misses + 1);
        }
      } else {
        dataReporter := dataReporter.(accesses := dataReporter.accesses + 1);
        if resp.outcome == ConflictMiss {
          dataReporter := dataReporter.(misses := dataReporter.misses + 1);
          dataReporter := dataReporter.(replacements := dataReporter.replacements + 1);
        } else if resp.outcome == CompulsoryMiss {
          dataReporter := dataReporter.(misses := dataReporter.misses + 1);
        }
      }
      hit := resp.outcome == Hit;
    }

    /** Reads through the instruction set `cr` selects; reports whether the read hit. */
    method HandleInstructionRead(cr: CacheRequest, checkTag: CheckTagOp) returns (hit: bool)
      requires Valid() && cr.setNumber < numberOfSets
      modifies this, instructionTags
      ensures Valid()
      ensures State() == AfterInstructionRead(old(State()), cr, checkTag)
      ensures hit <==> checkTag(cr.tag, old(instructionTags[cr.setNumber])).outcome == Hit
    {
      var resp := checkTag(cr.tag, instructionTags[cr.setNumber]);
      instructionTags[cr.setNumber] := resp.after;

      dataReporter := dataReporter.(fetchedWords := dataReporter.fetchedWords + resp.fetched);

      instructionReporter := instructionReporter.(accesses := instructionReporter.accesses + 1);
      if resp.outcome == ConflictMiss {
        instructionReporter := instructionReporter.(misses := instructionReporter.misses + 1);
        instructionReporter := instructionReporter.(replacements := instructionReporter.replacements + 1);
      } else if resp.outcome == CompulsoryMiss {
        instructionReporter := instructionReporter.(misses := instructionReporter.misses + 1);
      }
      hit := resp.outcome == Hit;
    }

    /** Decodes a reference and hands it to its handler. Returns false, changing nothing, when
        the address does not decode: the source then dereferences a nil request and the run
        ends. */
    method HandleRequest(cmd: CacheCmd, replace: ReplaceOp, checkTag: CheckTagOp) returns (handled: bool)
      requires Valid()
      modifies this, tags, instructionTags
      ensures Valid()
      ensures var t := AfterRequest(old(State()), options, offsetBits, indexBits, cmd, replace, checkTag);
        handled == t.Some? && State() == if handled then t.value else old(State())
    {
      var line := ParseCacheRequest(offsetBits, indexBits, cmd.address);
      if line.None? {
        return false;
      }
      var cr := line.value;
      if cmd.refType == DataWriteRef {
        var res := HandleDataWrite(cr, replace);
      } else if options.cacheType == Unified {
        var res := HandleDataRead(cr, cmd.refType, checkTag);
      } else if cmd.refType == InstructionReadRef {
        var res := HandleInstructionRead(cr, checkTag);
      } else {
        var res := HandleDataRead(cr, cmd.refType, checkTag);
      }
      handled := true;
    }

    /** Adds one block of copy-back traffic per dirty entry of the data bank. */
    method FlushDirty()
      requires Valid()
      modifies this
      ensures Valid()
      ensures State() == AfterFlush(old(State()), options)
    {
      var words := options.blockSize / WordSize;
      ghost var count := 0;
      var i := 0;
      while i < tags.Length
        invariant 0 <= i <= tags.Length
        invariant count == DirtyCount(tags[..i])
        invariant dataReporter.copiedWords == old(dataReporter).copiedWords + count * words
        invariant dataReporter == old(dataReporter).(copiedWords := dataReporter.copiedWords)
        invariant instructionReporter == old(instructionReporter)
      {
        var entries := tags[i];
        var j := 0;
        while j < |entries|
          invariant 0 <= j <= |entries|
          invariant count == DirtyCount(tags[..i]) + DirtyInSet(entries[..j])
          invariant dataReporter.copiedWords == old(dataReporter).copiedWords + count * words
          invariant dataReporter == old(dataReporter).(copiedWords := dataReporter.copiedWords)
          invariant instructionReporter == old(instructionReporter)
        {
          if entries[j].dirty {
            dataReporter := dataReporter.(copiedWords := dataReporter.copiedWords + options.blockSize / WordSize);
            MulSucc(count, words);
            count := count + 1;
          }
          assert entries[..j + 1][..j] == entries[..j];
          j := j + 1;
        }
        assert tags[..i + 1][..i] == tags[..i];
        assert entries[..j] == entries;
        i := i + 1;
      }
      assert tags[..i] == tags[..];
    }
  }
}
