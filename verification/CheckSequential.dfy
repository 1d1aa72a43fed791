// CheckSequential: audit of adjacent pairs of chunk ranges.
module CheckSequential {
  import opened Ranges
  import opened Report
  import opened Wrappers
  import opened Common

  datatype Message =
    | Intersect(prev: FileRange, cur: FileRange)
    | PreviousAfterCurrent(prev: FileRange, cur: FileRange)
    | Gap(last: nat, first: nat, skips: int)
    | NotSequential(prev: FileRange, cur: FileRange)
    | Duplicate(cur: FileRange)

  // A pair passes if its ranges differ and the first one precedes the second.
  predicate PairOk(prev: FileRange, cur: FileRange, allowMissing: bool) {
    prev != cur && prev.Precedes(cur, !allowMissing)
  }

  // Why a pair fails.
  function Complaint(prev: FileRange, cur: FileRange, allowMissing: bool): Message {
    if prev == cur then Duplicate(cur)
    else if prev.Intersects(cur) then Intersect(prev, cur)
    else if prev.Follows(cur, !allowMissing) then PreviousAfterCurrent(prev, cur)
    else if prev.Precedes(cur, false) then Gap(prev.last, cur.first, cur.first - prev.last - 1)
    else NotSequential(prev, cur)
  }

  // The pairs among the first `n` ranges that are looked at: `NOT_A_RANGE` stands for "no previous range".
  function Pairs(rs: seq<FileRange>, n: nat): (p: nat)
    requires n <= |rs|
  {
    if n < 2 then 0 else Pairs(rs, n - 1) + if rs[n - 2] != NOT_A_RANGE then 1 else 0
  }

  function Passing(rs: seq<FileRange>, n: nat, allowMissing: bool): (p: nat)
    requires n <= |rs|
    ensures p <= Pairs(rs, n)
  {
    if n < 2 then 0
    else Passing(rs, n - 1, allowMissing) +
         if rs[n - 2] != NOT_A_RANGE && PairOk(rs[n - 2], rs[n - 1], allowMissing) then 1 else 0
  }

  function Complaints(rs: seq<FileRange>, n: nat, allowMissing: bool): (ms: seq<Message>)
    requires n <= |rs|
    ensures |ms| == Pairs(rs, n) - Passing(rs, n, allowMissing)
  {
    if n < 2 then []
    else Complaints(rs, n - 1, allowMissing) +
         if rs[n - 2] == NOT_A_RANGE || PairOk(rs[n - 2], rs[n - 1], allowMissing) then []
         else [Complaint(rs[n - 2], rs[n - 1], allowMissing)]
  }

  // The names up to the first one that does not parse.
  function Parsed(items: seq<Option<FileRange>>): (rs: seq<FileRange>)
    ensures |rs| <= |items|
    ensures forall i :: 0 <= i < |rs| ==> items[i] == Some(rs[i])
    ensures |rs| < |items| ==> items[|rs|] == None
  {
    if items == [] || items[0].None? then [] else [items[0].value] + Parsed(items[1..])
  }

  lemma {:induction false} ParsedPrefix(items: seq<Option<FileRange>>, i: nat)
    requires i <= |items| && forall j :: 0 <= j < i ==> items[j].Some?
    ensures i <= |Parsed(items)|
    ensures i == |items| || items[i].None? ==> i == |Parsed(items)|
  {
  }

  lemma NoPairs(rs: seq<FileRange>, allowMissing: bool)
    ensures Pairs(rs, 0) == Passing(rs, 0, allowMissing) == 0 && Complaints(rs, 0, allowMissing) == []
  {
  }

  lemma OneMorePair(rs: seq<FileRange>, i: nat, allowMissing: bool)
    requires i < |rs|
    ensures var prev := if i == 0 then NOT_A_RANGE else rs[i - 1];
      var looked, ok := prev != NOT_A_RANGE, PairOk(prev, rs[i], allowMissing);
      && Pairs(rs, i + 1) == Pairs(rs, i) + (if looked then 1 else 0)
      && Passing(rs, i + 1, allowMissing) == Passing(rs, i, allowMissing) + (if looked && ok then 1 else 0)
      && Complaints(rs, i + 1, allowMissing) == Complaints(rs, i, allowMissing) +
                                                if looked && !ok then [Complaint(prev, rs[i], allowMissing)] else []
  {
  }

  // One array of the three. An item is the range its name parses to, if any.
  method CheckArray(items: seq<Option<FileRange>>, allowMissing: bool, report: ReportCheck<Message>)
    returns (failed: bool)
    modifies report
    ensures failed <==> exists i :: 0 <= i < |items| && items[i].None?
    ensures var rs := Parsed(items);
      && report.checked == old(report.checked) + Pairs(rs, |rs|)
      && report.visited == old(report.visited) + Pairs(rs, |rs|)
      && report.passed == old(report.passed) + Passing(rs, |rs|, allowMissing)
      && report.messages == old(report.messages) + Complaints(rs, |rs|, allowMissing)
  {
    hide Parsed, Pairs, Passing, Complaints, Complaint;
    ghost var rs := Parsed(items);
    var prev := NOT_A_RANGE;
    NoPairs(rs, allowMissing);
    for i := 0 to |items|
      invariant i <= |rs| && forall j :: 0 <= j < i ==> items[j].Some?
      invariant prev == if i == 0 then NOT_A_RANGE else rs[i - 1]
      invariant report.checked == old(report.checked) + Pairs(rs, i)
      invariant report.visited == old(report.visited) + Pairs(rs, i)
      invariant report.passed == old(report.passed) + Passing(rs, i, allowMissing)
      invariant report.messages == old(report.messages) + Complaints(rs, i, allowMissing)
    {
      ParsedPrefix(items, i);
      if items[i].None? {
        return true;
      }
      ParsedPrefix(items, i + 1);
      OneMorePair(rs, i, allowMissing);
      var fR := items[i].value;
      if prev != NOT_A_RANGE {
        report.visited := report.visited + 1;
        report.checked := report.checked + 1;
        if prev != fR && prev.Precedes(fR, !allowMissing) {
          report.passed := report.passed + 1;
        } else {
          report.messages := report.messages + [Complaint(prev, fR, allowMissing)];
        }
      }
      prev := fR;
    }
    ParsedPrefix(items, |items|);
    return false;
  }

  method CheckSequential(disc: seq<Option<FileRange>>, cache: seq<Option<FileRange>>, remote: seq<Option<FileRange>>,
                         allowMissing: bool, report: ReportCheck<Message>) returns (failed: bool)
    modifies report
    ensures failed <==> None in disc || None in cache || None in remote
    // the arrays one after the other, up to the first one with a name that does not parse
    ensures var n := PairsIn(disc) +
                     if None in disc then 0 else PairsIn(cache) + if None in cache then 0 else PairsIn(remote);
      report.visited == old(report.visited) + n && report.checked == old(report.checked) + n
    ensures report.messages == old(report.messages) +
      ComplaintsIn(disc, allowMissing) +
      if None in disc then [] else ComplaintsIn(cache, allowMissing) +
                                   if None in cache then [] else ComplaintsIn(remote, allowMissing)
    // one message for every failure
    ensures report.checked - report.passed ==
            old(report.checked - report.passed) + |report.messages| - |old(report.messages)|
  {
    hide Pairs, Passing, Parsed, Complaints;
    failed := CheckArray(disc, allowMissing, report);
    if failed {
      return;
    }
    failed := CheckArray(cache, allowMissing, report);
    if failed {
      return;
    }
    failed := CheckArray(remote, allowMissing, report);
  }

  // How many pairs of an array are looked at, and the messages about them.
  function PairsIn(items: seq<Option<FileRange>>): nat {
    Pairs(Parsed(items), |Parsed(items)|)
  }

  function ComplaintsIn(items: seq<Option<FileRange>>, allowMissing: bool): seq<Message> {
    Complaints(Parsed(items), |Parsed(items)|, allowMissing)
  }

  // ---- What the audit means ----

  lemma PairOkMeans(prev: FileRange, cur: FileRange)
    ensures PairOk(prev, cur, false) <==> prev != cur && cur.first == prev.last + 1
    ensures PairOk(prev, cur, true) <==> prev != cur && prev.last < cur.first
  {
  }

  // For well-formed ranges a complaint tells overlaps from gaps, how wide a gap is, and which two ranges
  // come in the wrong order: with gaps allowed, or if they are adjacent, it says that much; else only
  // that they are not sequential. A gap between block zero's range and one that ends with the largest
  // uint64 is taken for two ranges in the wrong order.
  lemma ComplaintsTellApart(prev: FileRange, cur: FileRange, allowMissing: bool)
    requires prev.WellFormed() && cur.WellFormed()
    requires prev.last <= 18446744073709551615 && cur.last <= 18446744073709551615
    requires !PairOk(prev, cur, allowMissing)
    ensures var m := Complaint(prev, cur, allowMissing);
      var wraps := prev.first == 0 && cur.last == 18446744073709551615;
      && (m.Duplicate? || m.Intersect? <==> exists b :: prev.Contains(b) && cur.Contains(b))
      && (m.Gap? <==> prev.last + 1 < cur.first && !wraps)
      && (m.Gap? ==> !allowMissing && cur.first == prev.last + 1 + m.skips)
      && (m.Gap? ==> m.last == prev.last && m.first == cur.first)
      && (m.Duplicate? <==> prev == cur) && (m.Duplicate? ==> m.cur == cur)
      && (m.Intersect? ==> m.prev == prev && m.cur == cur)
      && (m.PreviousAfterCurrent? <==>
            (cur.last < prev.first && (allowMissing || cur.last + 1 == prev.first)) ||
            (prev.last + 1 < cur.first && wraps))
      && (m.PreviousAfterCurrent? ==> m.prev == prev && m.cur == cur)
      && (m.NotSequential? <==> !allowMissing && cur.last + 1 < prev.first)
      && (m.NotSequential? ==> m.prev == prev && m.cur == cur)
  {
    if prev.Intersects(cur) {
      var b := if prev.first < cur.first then cur.first else prev.first;
      assert prev.Contains(b) && cur.Contains(b);
    }
  }

  lemma {:induction false} AllPairs(rs: seq<FileRange>, n: nat)
    requires n <= |rs|
    ensures Pairs(rs, n) <= if n > 0 then n - 1 else 0
    ensures Pairs(rs, n) == (if n > 0 then n - 1 else 0) <==> forall i :: 0 <= i < n - 1 ==> rs[i] != NOT_A_RANGE
  {
    if n >= 2 {
      AllPairs(rs, n - 1);
    }
  }

  ghost predicate Chain(rs: seq<FileRange>, n: nat, allowMissing: bool)
    requires n <= |rs|
  {
    forall i :: 0 <= i < n - 1 && rs[i] != NOT_A_RANGE ==> PairOk(rs[i], rs[i + 1], allowMissing)
  }

  lemma {:induction false} AllPassMeansChain(rs: seq<FileRange>, n: nat, allowMissing: bool)
    requires n <= |rs|
    ensures Passing(rs, n, allowMissing) == Pairs(rs, n) <==> Chain(rs, n, allowMissing)
  {
    hide PairOk;
    if n >= 2 {
      AllPassMeansChain(rs, n - 1, allowMissing);
    }
  }

  // How many of the first `n` ranges a block lies in, and how many run backwards over it.
  function Covering(rs: seq<FileRange>, n: nat, b: nat): nat
    requires n <= |rs|
  {
    if n == 0 then 0 else Covering(rs, n - 1, b) + One(rs[n - 1].Contains(b))
  }

  function Reversed(rs: seq<FileRange>, n: nat, b: nat): nat
    requires n <= |rs|
  {
    if n == 0 then 0 else Reversed(rs, n - 1, b) + One(rs[n - 1].last < b < rs[n - 1].first)
  }

  ghost predicate Audited(rs: seq<FileRange>, allowMissing: bool) {
    && (forall i :: 0 <= i < |rs| ==> rs[i] != NOT_A_RANGE)
    && Passing(rs, |rs|, allowMissing) == Pairs(rs, |rs|)
  }

  lemma {:induction false} Telescope(rs: seq<FileRange>, n: nat, b: nat)
    requires 0 < n <= |rs| && forall i :: 0 <= i < n - 1 ==> rs[i].last + 1 == rs[i + 1].first
    ensures Covering(rs, n, b) - Reversed(rs, n, b) == One(rs[0].first <= b) - One(rs[n - 1].last < b)
  {
    if n > 1 {
      Telescope(rs, n - 1, b);
    }
  }

  // If the strict audit passes, a block between the two ends lies in exactly one range, and one more
  // for every range that runs backwards over it.
  lemma StrictAuditCounts(rs: seq<FileRange>, b: nat)
    requires rs != [] && Audited(rs, false)
    requires rs[0].first <= b <= rs[|rs| - 1].last
    ensures Covering(rs, |rs|, b) == 1 + Reversed(rs, |rs|, b)
  {
    AllPassMeansChain(rs, |rs|, false);
    forall i | 0 <= i < |rs| - 1 ensures rs[i].last + 1 == rs[i + 1].first {
      assert PairOk(rs[i], rs[i + 1], false);
    }
    Telescope(rs, |rs|, b);
  }

  // (0,9), (10,3), (4,20) passes, though block 5 lies in two ranges.
  lemma BackwardRangePasses()
    ensures var rs := [FileRange(0, 9), FileRange(10, 3), FileRange(4, 20)];
      Audited(rs, false) && Covering(rs, 3, 5) == 2
  {
  }

  ghost predicate WellFormed(rs: seq<FileRange>) {
    forall i :: 0 <= i < |rs| ==> rs[i].WellFormed() && rs[i].last < NOPOSN
  }

  lemma {:induction false} NothingReversed(rs: seq<FileRange>, n: nat, b: nat)
    requires n <= |rs| && WellFormed(rs)
    ensures Reversed(rs, n, b) == 0
  {
    if n > 0 {
      NothingReversed(rs, n - 1, b);
    }
  }

  lemma {:induction false} CoveredTwice(rs: seq<FileRange>, n: nat, b: nat, i: nat, j: nat)
    requires i < j < n <= |rs| && rs[i].Contains(b) && rs[j].Contains(b)
    ensures Covering(rs, n, b) >= 2
  {
    if j < n - 1 {
      CoveredTwice(rs, n - 1, b, i, j);
    } else {
      CoveredOnce(rs, n - 1, b, i);
    }
  }

  lemma {:induction false} CoveredOnce(rs: seq<FileRange>, n: nat, b: nat, i: nat)
    requires i < n <= |rs| && rs[i].Contains(b)
    ensures Covering(rs, n, b) >= 1
  {
    if i < n - 1 {
      CoveredOnce(rs, n - 1, b, i);
    }
  }

  lemma {:induction false} NotCovered(rs: seq<FileRange>, n: nat, b: nat)
    requires n <= |rs| && forall i :: 0 <= i < n ==> !rs[i].Contains(b)
    ensures Covering(rs, n, b) == 0
  {
    if n > 0 {
      NotCovered(rs, n - 1, b);
    }
  }

  ghost predicate SortedByName(rs: seq<FileRange>) {
    forall i, j :: 0 <= i < j < |rs| ==> RangeLeq(rs[i], rs[j])
  }

  // Every block from the first range's start to the last range's end lies in exactly one range.
  ghost predicate Tiling(rs: seq<FileRange>) {
    rs != [] ==> forall b :: rs[0].first <= b <= rs[|rs| - 1].last ==> Covering(rs, |rs|, b) == 1
  }

  // For sorted arrays of well-formed ranges the strict audit passes exactly if the ranges tile.
  lemma StrictAuditMeansTiling(rs: seq<FileRange>)
    requires WellFormed(rs) && SortedByName(rs)
    ensures Audited(rs, false) <==> Tiling(rs)
  {
    if rs != [] && Audited(rs, false) {
      forall b | rs[0].first <= b <= rs[|rs| - 1].last ensures Covering(rs, |rs|, b) == 1 {
        StrictAuditCounts(rs, b);
        NothingReversed(rs, |rs|, b);
      }
    }
    if Tiling(rs) {
      forall i | 0 <= i < |rs| - 1 ensures PairOk(rs[i], rs[i + 1], false) {
        TiledPair(rs, i);
      }
      AllPassMeansChain(rs, |rs|, false);
    }
  }

  lemma NoOverlap(rs: seq<FileRange>, i: nat, j: nat)
    requires i < j < |rs| && WellFormed(rs)
    requires SortedByName(rs) && Tiling(rs)
    ensures rs[i].last < rs[j].first
  {
    var b := rs[j].first;
    if b <= rs[i].last {
      CoveredTwice(rs, |rs|, b, i, j);
    }
  }

  lemma TiledPair(rs: seq<FileRange>, i: nat)
    requires i + 1 < |rs| && WellFormed(rs)
    requires SortedByName(rs) && Tiling(rs)
    ensures PairOk(rs[i], rs[i + 1], false)
  {
    NoOverlap(rs, i, i + 1);
    var b := rs[i].last + 1;
    if b < rs[i + 1].first {
      forall j | 0 <= j < |rs| ensures !rs[j].Contains(b) {
        if j < i {
          NoOverlap(rs, j, i);
        }
      }
      NotCovered(rs, |rs|, b);
    }
  }

  // ---- With gaps allowed ----

  // How many gaps between neighbours a block lies in.
  function InGaps(rs: seq<FileRange>, n: nat, b: nat): nat
    requires n <= |rs|
  {
    if n < 2 then 0 else InGaps(rs, n - 1, b) + One(rs[n - 2].last < b < rs[n - 1].first)
  }

  lemma {:induction false} TelescopeGaps(rs: seq<FileRange>, n: nat, b: nat)
    requires 0 < n <= |rs| && forall i :: 0 <= i < n - 1 ==> rs[i].last < rs[i + 1].first
    ensures Covering(rs, n, b) + InGaps(rs, n, b) - Reversed(rs, n, b) ==
            One(rs[0].first <= b) - One(rs[n - 1].last < b)
  {
    if n > 1 {
      TelescopeGaps(rs, n - 1, b);
    }
  }

  // If the lenient audit passes, a block between the two ends lies in one range or one gap, and in one
  // more of them for every range that runs backwards over it. So it lies in one range at most if and only
  // if no more ranges run backwards over it than gaps contain it.
  lemma LenientAuditCounts(rs: seq<FileRange>, b: nat)
    requires rs != [] && Audited(rs, true) && rs[0].first <= b <= rs[|rs| - 1].last
    ensures Covering(rs, |rs|, b) + InGaps(rs, |rs|, b) == 1 + Reversed(rs, |rs|, b)
    ensures Covering(rs, |rs|, b) <= 1 <==> Reversed(rs, |rs|, b) <= InGaps(rs, |rs|, b)
  {
    AllPassMeansChain(rs, |rs|, true);
    forall i | 0 <= i < |rs| - 1 ensures rs[i].last < rs[i + 1].first {
      assert PairOk(rs[i], rs[i + 1], true);
    }
    TelescopeGaps(rs, |rs|, b);
  }

  // It, too, accepts (0,9), (10,3), (4,20), whose first and last ranges share block 5.
  lemma BackwardRangePassesLenient()
    ensures var rs := [FileRange(0, 9), FileRange(10, 3), FileRange(4, 20)];
      Audited(rs, true) && !rs[0].EarlierThan(rs[2]) && rs[0].Contains(5) && rs[2].Contains(5)
  {
    AllPassMeansChain([FileRange(0, 9), FileRange(10, 3), FileRange(4, 20)], 3, true);
  }

  ghost predicate Increasing(rs: seq<FileRange>) {
    && (forall i :: 0 <= i < |rs| ==> rs[i] != NOT_A_RANGE)
    && (forall i :: 0 <= i < |rs| - 1 ==> rs[i] != rs[i + 1])
    && (forall i, j :: 0 <= i < j < |rs| ==> rs[i].EarlierThan(rs[j]))
  }

  // The lenient audit passes exactly if the ranges are strictly increasing and disjoint, provided that
  // those between the first and the last are well-formed.
  lemma LenientAuditMeansDisjoint(rs: seq<FileRange>)
    requires forall i :: 0 < i < |rs| - 1 ==> rs[i].WellFormed()
    ensures Audited(rs, true) <==> Increasing(rs)
  {
    AllPassMeansChain(rs, |rs|, true);
    if Audited(rs, true) {
      forall i, j | 0 <= i < j < |rs| ensures rs[i].EarlierThan(rs[j]) {
        Ascends(rs, i, j);
      }
      assert forall i :: 0 <= i < |rs| - 1 ==> PairOk(rs[i], rs[i + 1], true);
    }
  }

  lemma {:induction false} Ascends(rs: seq<FileRange>, i: nat, j: nat)
    requires i < j < |rs| && Chain(rs, |rs|, true)
    requires forall k :: 0 <= k < |rs| ==> rs[k] != NOT_A_RANGE
    requires forall k :: 0 < k < |rs| - 1 ==> rs[k].WellFormed()
    ensures rs[i].EarlierThan(rs[j])
  {
    assert PairOk(rs[j - 1], rs[j], true);
    if i < j - 1 {
      Ascends(rs, i, j - 1);
    }
  }
}
