/** The five statistics counters of one logical cache (cache/reporter.go). */
module Reporting {
  datatype Reporter = Reporter(
    accesses: nat,
    misses: nat,
    replacements: nat,
    fetchedWords: nat,
    copiedWords: nat)

  /** Every counter at zero, as a cache starts. */
  const Zero: Reporter := Reporter(0, 0, 0, 0, 0)

  /** A replacement is a kind of miss, and a miss a kind of access. */
  predicate Ordered(r: Reporter) {
    r.replacements <= r.misses <= r.accesses
  }
}
