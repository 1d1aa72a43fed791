// Inclusive block ranges, as they name index chunks and stage files (pkg/ranges/ranges.go).
module Ranges {
  // The largest uint64. `base.NOPOSN` uses it as "no position".
  const NOPOSN: nat := 0xFFFF_FFFF_FFFF_FFFF

  datatype FileRange = FileRange(first: nat, last: nat) {
    predicate WellFormed() {
      first <= last
    }

    predicate EarlierThan(needle: FileRange) {
      last < needle.first
    }

    predicate LaterThan(needle: FileRange) {
      first > needle.last
    }

    predicate Intersects(needle: FileRange) {
      !EarlierThan(needle) && !LaterThan(needle)
    }

    predicate Contains(block: nat) {
      first <= block <= last
    }

    // With `sequential`, nothing precedes a range that starts at block zero.
    predicate Precedes(needle: FileRange, sequential: bool) {
      if sequential then needle.first != 0 && last == needle.first - 1 else EarlierThan(needle)
    }

    predicate Follows(needle: FileRange, sequential: bool) {
      if sequential then first == (needle.last + 1) % (NOPOSN + 1) else LaterThan(needle)
    }
  }

  const NOT_A_RANGE := FileRange(NOPOSN, NOPOSN)

  // Lexicographic order: the alphabetical order of range names up to nine digits (see Text.RangeOrder).
  predicate RangeLeq(a: FileRange, b: FileRange) {
    a.first < b.first || (a.first == b.first && a.last <= b.last)
  }
}
