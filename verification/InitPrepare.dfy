// prepareDownloadList: bring the chunks on disc into agreement with a manifest. Files that do not
// agree are removed, and the parts to fetch are returned.
module InitPrepare {
  import opened Ranges
  import opened Sorting
  import opened Text

  // What the magic number and the version hash at the head of a file look like.
  datatype Header = Good | BadMagic | BadHash | Unreadable

  datatype Part = Part(size: int, header: Header)

  // The blooms folder, and the finalized folder: files by the range in their name.
  datatype Parts = Parts(blooms: map<FileRange, Part>, indexes: map<FileRange, Part>)

  datatype Reason = Okay | FileMissing | WrongSize | WrongMagic | WrongHash | FileError | NotInManifest | AfterManifest

  datatype ChunkRecord = ChunkRecord(range: FileRange, bloomHash: string, bloomSize: int, indexHash: string,
                                     indexSize: int)

  datatype Options = Options(all: bool, firstBlock: nat, dryRun: bool)

  datatype Outcome = Prepared(list: seq<ChunkRecord>, nToDownload: nat) | Failed

  // Files that cannot be removed.
  datatype Stuck = Stuck(blooms: set<FileRange>, indexes: set<FileRange>)

  const GENESIS := FileRange(0, 0)

  function CheckSize(p: Part, expected: int): Reason {
    if p.size != expected then WrongSize else Okay
  }

  // The status and whether an error is raised.
  function CheckHeader(p: Part): (Reason, bool) {
    match p.header
    case Good => (Okay, false)
    case BadMagic => (WrongMagic, false)
    case BadHash => (WrongHash, false)
    case Unreadable => (FileError, true)
  }

  // The statuses of both parts. Reading the index's header overwrites an error of the bloom's.
  function IsValidChunk(d: Parts, c: ChunkRecord, indexRequired: bool): (Reason, Reason, bool) {
    var (bloom, err) :=
      if c.range !in d.blooms then (FileMissing, false)
      else if CheckSize(d.blooms[c.range], c.bloomSize) != Okay then
        (CheckSize(d.blooms[c.range], c.bloomSize), false)
      else CheckHeader(d.blooms[c.range]);
    if c.range !in d.indexes then
      (bloom, if indexRequired || c.range == GENESIS then FileMissing else Okay, err)
    else if CheckSize(d.indexes[c.range], c.indexSize) != Okay then
      (bloom, CheckSize(d.indexes[c.range], c.indexSize), err)
    else
      var (idx, err') := CheckHeader(d.indexes[c.range]);
      (bloom, idx, err')
  }

  predicate BloomOkay(d: Parts, c: ChunkRecord) {
    c.range in d.blooms && d.blooms[c.range] == Part(c.bloomSize, Good)
  }

  // The index may be missing if it is not asked for.
  predicate IndexOkay(d: Parts, c: ChunkRecord, all: bool) {
    if c.range in d.indexes then d.indexes[c.range] == Part(c.indexSize, Good) else !all && c.range != GENESIS
  }

  predicate Agrees(d: Parts, c: ChunkRecord, all: bool) {
    BloomOkay(d, c) && IndexOkay(d, c, all)
  }

  predicate Fails(d: Parts, c: ChunkRecord) {
    if c.range in d.indexes && d.indexes[c.range].size == c.indexSize then d.indexes[c.range].header == Unreadable
    else c.range in d.blooms && d.blooms[c.range] == Part(c.bloomSize, Unreadable)
  }

  lemma ValidMeansAgrees(d: Parts, c: ChunkRecord, all: bool)
    ensures var (bloom, idx, err) := IsValidChunk(d, c, all);
      && (bloom == Okay <==> BloomOkay(d, c))
      && (idx == Okay <==> IndexOkay(d, c, all))
      && (err <==> Fails(d, c))
      && (err ==> bloom == FileError || idx == FileError)
  {
  }

  // What is wrong with each part: the first thing that is, in the order file, size, magic number, version.
  lemma StatusesMean(d: Parts, c: ChunkRecord, all: bool)
    ensures var (bloom, idx, err) := IsValidChunk(d, c, all);
      && (bloom == FileMissing <==> c.range !in d.blooms)
      && (c.range in d.blooms ==> var p := d.blooms[c.range];
            && (bloom == WrongSize <==> p.size != c.bloomSize)
            && (bloom == WrongMagic <==> p == Part(c.bloomSize, BadMagic))
            && (bloom == WrongHash <==> p == Part(c.bloomSize, BadHash))
            && (bloom == FileError <==> p == Part(c.bloomSize, Unreadable)))
      && (idx == FileMissing <==> c.range !in d.indexes && (all || c.range == FileRange(0, 0)))
      && (c.range in d.indexes ==> var p := d.indexes[c.range];
            && (idx == WrongSize <==> p.size != c.indexSize)
            && (idx == WrongMagic <==> p == Part(c.indexSize, BadMagic))
            && (idx == WrongHash <==> p == Part(c.indexSize, BadHash))
            && (idx == FileError <==> p == Part(c.indexSize, Unreadable)))
      && bloom != NotInManifest && bloom != AfterManifest && idx != NotInManifest && idx != AfterManifest
  {
  }

  // An unreadable bloom filter goes unreported exactly if the index has the right size and is readable.
  lemma SwallowedError(d: Parts, c: ChunkRecord, all: bool)
    requires c.range in d.blooms && d.blooms[c.range] == Part(c.bloomSize, Unreadable)
    ensures !IsValidChunk(d, c, all).2 <==>
      c.range in d.indexes && d.indexes[c.range].size == c.indexSize && d.indexes[c.range].header != Unreadable
  {
  }

  // The record of a chunk without the parts that are okay.
  function ToFetch(d: Parts, c: ChunkRecord, all: bool): ChunkRecord {
    var c' := if BloomOkay(d, c) then c.(bloomHash := "", bloomSize := 0) else c;
    if IndexOkay(d, c, all) then c'.(indexHash := "", indexSize := 0) else c'
  }

  // ---- Manifests ----

  // `chunkMap` points to the records by range; of equal ranges, to one of them.
  datatype Listing = Listing(chunks: seq<ChunkRecord>, chunkMap: map<FileRange, nat>) {
    ghost predicate Valid() {
      && (forall r :: r in chunkMap ==> chunkMap[r] < |chunks| && chunks[chunkMap[r]].range == r)
      && (forall i :: 0 <= i < |chunks| ==> chunks[i].range in chunkMap)
    }

    function At(r: FileRange): ChunkRecord
      requires Valid() && r in chunkMap
    {
      chunks[chunkMap[r]]
    }

    // The range of the last record; of an empty manifest, block zero.
    function LastRange(): FileRange {
      if chunks == [] then FileRange(0, 0) else chunks[|chunks| - 1].range
    }
  }

  // ---- What a call does, as a relation on values ----

  ghost predicate IsDoomed(d: Parts, m: Listing, all: bool, r: FileRange)
    requires m.Valid()
  {
    if r in m.chunkMap then !Agrees(d, m.At(r), all) else !r.LaterThan(m.LastRange())
  }

  // The reason that is reported for a chunk that has to go: the bloom filter's, if there is one.
  function ReasonFor(d: Parts, m: Listing, all: bool, r: FileRange): Reason
    requires m.Valid()
  {
    if r !in m.chunkMap then NotInManifest
    else
      var (bloom, idx, _) := IsValidChunk(d, m.At(r), all);
      if bloom != Okay then bloom else idx
  }

  // The chunks on disc to remove.
  ghost function Doomed(d: Parts, m: Listing, all: bool): set<FileRange>
    requires m.Valid()
  {
    set r | r in d.blooms && IsDoomed(d, m, all, r)
  }

  ghost function Wanted(d: Parts, m: Listing, opts: Options): set<FileRange>
    requires m.Valid()
  {
    set r | r in m.chunkMap && r.last >= opts.firstBlock && !(r in d.blooms && Agrees(d, m.At(r), opts.all))
  }

  ghost predicate RaisesError(d: Parts, m: Listing, opts: Options)
    requires m.Valid()
  {
    exists r :: r in m.chunkMap && (r in d.blooms || r.last >= opts.firstBlock) && Fails(d, m.At(r))
  }

  // Some file that has to go cannot be removed.
  ghost predicate Blocked(d: Parts, doomed: set<FileRange>, stuck: Stuck) {
    exists r :: r in doomed && IsStuck(d, stuck, r)
  }

  predicate IsStuck(d: Parts, stuck: Stuck, r: FileRange) {
    (r in d.indexes && r in stuck.indexes) || (r in d.blooms && r in stuck.blooms)
  }

  function Minus(d: Parts, gone: set<FileRange>): Parts {
    Parts(d.blooms - gone, d.indexes - gone)
  }

  ghost predicate Within(a: Parts, b: Parts) {
    && (forall r :: r in a.blooms ==> r in b.blooms && a.blooms[r] == b.blooms[r])
    && (forall r :: r in a.indexes ==> r in b.indexes && a.indexes[r] == b.indexes[r])
  }

  predicate Later(a: ChunkRecord, b: ChunkRecord) {
    StringLeq(RangeName(b.range), RangeName(a.range))
  }

  function BloomsIn(list: seq<ChunkRecord>): set<FileRange> {
    set c | c in list && c.bloomHash != "" :: c.range
  }

  function IndexesIn(list: seq<ChunkRecord>): set<FileRange> {
    set c | c in list && c.indexHash != "" :: c.range
  }

  function RangesIn(list: seq<ChunkRecord>): set<FileRange> {
    set c | c in list :: c.range
  }

  // Every record names both parts.
  ghost predicate Complete(m: Listing) {
    forall i :: 0 <= i < |m.chunks| ==> m.chunks[i].bloomHash != "" && m.chunks[i].indexHash != ""
  }

  ghost predicate DistinctRanges(list: seq<ChunkRecord>) {
    |RangesIn(list)| == |list|
  }

  // The list names each wanted chunk once, with the parts that are not okay on the disc `d`.
  ghost predicate ListOk(d: Parts, m: Listing, all: bool, wanted: set<FileRange>, list: seq<ChunkRecord>)
    requires m.Valid()
  {
    && DistinctRanges(list) && RangesIn(list) == wanted <= m.chunkMap.Keys
    && (forall c :: c in list ==> c == ToFetch(d, m.At(c.range), all))
  }

  // The records of the returned chunks are blanked in the manifest too.
  ghost predicate Blanked(d: Parts, m: Listing, all: bool, listed: set<FileRange>, chunks: seq<ChunkRecord>)
    requires m.Valid()
  {
    && |chunks| == |m.chunks|
    && (forall r :: r in m.chunkMap ==>
          chunks[m.chunkMap[r]] == if r in listed then ToFetch(d, m.At(r), all) else m.At(r))
    && (forall i :: 0 <= i < |chunks| ==> chunks[i].range == m.chunks[i].range)
  }

  ghost predicate Ran(before: Parts, m: Listing, opts: Options, stuck: Stuck, after: Parts, nDeleted: nat,
                      outcome: Outcome)
    requires m.Valid()
  {
    var doomed := Doomed(before, m, opts.all);
    && (opts.dryRun ==> after == before && nDeleted == 0)
    && FileCount(after) + nDeleted == FileCount(before)
    && Within(Minus(before, doomed), after) && Within(after, before)
    && (outcome.Failed? <==> RaisesError(before, m, opts) || (!opts.dryRun && Blocked(before, doomed, stuck)))
    && (outcome.Prepared? ==>
          && (!opts.dryRun ==> after == Minus(before, doomed) && nDeleted == FilesOf(before, doomed))
          && ListOk(after, m, opts.all, Wanted(before, m, opts), outcome.list)
          && SortedBy(outcome.list, Later)
          && (Complete(m) ==> outcome.nToDownload == |BloomsIn(outcome.list)| + |IndexesIn(outcome.list)|))
  }

  function FileCount(d: Parts): nat {
    |d.blooms| + |d.indexes|
  }

  lemma OneLess(d: Parts, r: FileRange)
    ensures r in d.indexes ==> FileCount(d) == FileCount(Parts(d.blooms, d.indexes - {r})) + 1
    ensures r in d.blooms ==> FileCount(d) == FileCount(Parts(d.blooms - {r}, d.indexes)) + 1
  {
    if r in d.indexes {
      OneFileLess(d.indexes, r);
    }
    if r in d.blooms {
      OneFileLess(d.blooms, r);
    }
  }

  lemma Trimmed(d: Parts, r: FileRange)
    ensures Minus(d, {r}) == Parts(d.blooms - {r}, d.indexes - {r})
    ensures Within(d, d) && Within(Minus(d, {r}), d) && Within(Minus(d, {r}), Minus(d, {r}))
    ensures Within(Minus(d, {r}), Parts(d.blooms, d.indexes - {r})) && Within(Parts(d.blooms, d.indexes - {r}), d)
    ensures r !in d.indexes ==> d.indexes - {r} == d.indexes
  {
  }

  lemma OneFileLess(files: map<FileRange, Part>, r: FileRange)
    requires r in files
    ensures |files - {r}| == |files| - 1
  {
    assert (files - {r}).Keys == files.Keys - {r};
    assert |files.Keys| == |files| && |(files - {r}).Keys| == |files - {r}|;
  }

  // How many files the removal of some chunks removes.
  ghost function FilesOf(d: Parts, gone: set<FileRange>): nat {
    |gone| + |gone * d.indexes.Keys|
  }

  lemma FilesOfOneMore(d: Parts, gone: set<FileRange>, r: FileRange)
    requires r !in gone
    ensures FilesOf(d, gone + {r}) == FilesOf(d, gone) + if r in d.indexes then 2 else 1
  {
    assert (gone + {r}) * d.indexes.Keys == gone * d.indexes.Keys + if r in d.indexes then {r} else {};
  }

  lemma RemovedOneMore(d: Parts, gone: set<FileRange>, r: FileRange)
    requires r in d.blooms && r !in gone
    ensures Minus(d, gone + {r}) == Minus(Minus(d, gone), {r})
    ensures r in Minus(d, gone).blooms && (r in Minus(d, gone).indexes <==> r in d.indexes)
    ensures forall stuck :: IsStuck(Minus(d, gone), stuck, r) <==> IsStuck(d, stuck, r)
  {
  }

  lemma ListedOneMore(list: seq<ChunkRecord>, c: ChunkRecord)
    requires DistinctRanges(list) && c.range !in RangesIn(list)
    ensures DistinctRanges(list + [c]) && RangesIn(list + [c]) == RangesIn(list) + {c.range}
  {
    OneMore(list, c);
    hide RangesIn;
  }

  lemma OneMore(list: seq<ChunkRecord>, c: ChunkRecord)
    ensures RangesIn(list + [c]) == RangesIn(list) + {c.range}
    ensures BloomsIn(list + [c]) == BloomsIn(list) + if c.bloomHash != "" then {c.range} else {}
    ensures IndexesIn(list + [c]) == IndexesIn(list) + if c.indexHash != "" then {c.range} else {}
  {
  }

  lemma CountOneMore(list: seq<ChunkRecord>, c: ChunkRecord)
    requires c.range !in RangesIn(list)
    ensures |BloomsIn(list + [c])| == |BloomsIn(list)| + if c.bloomHash != "" then 1 else 0
    ensures |IndexesIn(list + [c])| == |IndexesIn(list)| + if c.indexHash != "" then 1 else 0
  {
    assert c.range !in BloomsIn(list) && c.range !in IndexesIn(list);
    OneMore(list, c);
    hide BloomsIn, IndexesIn, RangesIn;
  }

  class ChunkFolders {
    var blooms: map<FileRange, Part>
    var indexes: map<FileRange, Part>

    constructor (blooms: map<FileRange, Part>, indexes: map<FileRange, Part>)
      ensures this.blooms == blooms && this.indexes == indexes
    {
      this.blooms, this.indexes := blooms, indexes;
    }

    ghost function Contents(): Parts
      reads this
    {
      Parts(blooms, indexes)
    }

    // Visits every bloom filter on disc, in any order, with the callback `cleanIndex`.
    method Walk(m: Listing, all: bool)
      returns (deleteMap: map<FileRange, Reason>, downloadMap: map<FileRange, Reason>, failed: bool)
      requires m.Valid()
      ensures failed <==> exists r :: r in blooms && r in m.chunkMap && Fails(Contents(), m.At(r))
      ensures !failed ==> deleteMap.Keys == Doomed(Contents(), m, all) && downloadMap.Keys == m.chunkMap.Keys
      ensures !failed ==> forall r :: r in m.chunkMap ==>
        (downloadMap[r] == Okay <==> r in blooms && Agrees(Contents(), m.At(r), all))
      ensures !failed ==> forall r :: r in deleteMap ==> deleteMap[r] == ReasonFor(Contents(), m, all, r)
      ensures !failed ==> forall r :: r in downloadMap ==>
        downloadMap[r] == if r in blooms then ReasonFor(Contents(), m, all, r) else FileMissing
    {
      hide Agrees, Fails, IsDoomed, IsValidChunk, BloomOkay, IndexOkay, ReasonFor, Marked;
      deleteMap, failed := map[], false;
      downloadMap := map r | r in m.chunkMap :: FileMissing;
      var todo := blooms.Keys;
      NothingMarked(Contents(), m, all, downloadMap);
      while todo != {}
        invariant todo <= blooms.Keys && Marked(Contents(), m, all, todo, deleteMap, downloadMap)
        invariant forall r :: r in blooms && r !in todo && r in m.chunkMap ==> !Fails(Contents(), m.At(r))
        decreases |todo|
      {
        var rng :| rng in todo;
        MarkedOneMore(Contents(), m, all, todo, rng, deleteMap, downloadMap);
        todo := todo - {rng};
        if rng in m.chunkMap {
          ValidMeansAgrees(Contents(), m.At(rng), all);
          var (bloomStatus, indexStatus, err) := IsValidChunk(Parts(blooms, indexes), m.At(rng), all);
          if err {
            return deleteMap, downloadMap, true;
          }
          if bloomStatus == Okay && indexStatus == Okay {
            downloadMap := downloadMap[rng := Okay];
          } else {
            var reason := if bloomStatus != Okay then bloomStatus else indexStatus;
            deleteMap, downloadMap := deleteMap[rng := reason], downloadMap[rng := reason];
          }
        } else if !rng.LaterThan(m.LastRange()) {
          deleteMap := deleteMap[rng := NotInManifest];
        } // else it was scraped after the manifest was written
      }
      AllMarked(Contents(), m, all, deleteMap, downloadMap);
    }

    // Removes both parts of one chunk, unless they are stuck.
    method RemoveChunk(rng: FileRange, stuck: Stuck) returns (n: nat, failed: bool)
      requires rng in blooms
      modifies this
      ensures Within(Minus(old(Contents()), {rng}), Contents()) && Within(Contents(), old(Contents()))
      ensures !failed ==> Contents() == Minus(old(Contents()), {rng}) && n == if rng in old(indexes) then 2 else 1
      ensures FileCount(Contents()) + n == FileCount(old(Contents()))
      ensures failed <==> IsStuck(old(Contents()), stuck, rng)
    {
      hide FileCount, Within, Minus;
      n, failed := 0, false;
      Trimmed(Contents(), rng);
      OneLess(Contents(), rng);
      if rng in indexes {
        if rng in stuck.indexes {
          return n, true;
        }
        indexes := indexes - {rng};
        n := n + 1;
      }
      if rng in blooms {
        if rng in stuck.blooms {
          return n, true;
        }
        OneLess(Contents(), rng);
        blooms := blooms - {rng};
        n := n + 1;
      }
    }

    // Removes the marked chunks, unless it is a dry run.
    method Remove(deleteMap: map<FileRange, Reason>, dryRun: bool, stuck: Stuck) returns (nDeleted: nat, failed: bool)
      requires deleteMap.Keys <= blooms.Keys
      modifies this
      ensures dryRun ==> Contents() == old(Contents()) && nDeleted == 0
      ensures FileCount(Contents()) + nDeleted == FileCount(old(Contents()))
      ensures Within(Minus(old(Contents()), deleteMap.Keys), Contents()) && Within(Contents(), old(Contents()))
      ensures !dryRun && !failed ==> Contents() == Minus(old(Contents()), deleteMap.Keys)
      ensures !dryRun && !failed ==> nDeleted == FilesOf(old(Contents()), deleteMap.Keys)
      ensures failed <==> !dryRun && Blocked(old(Contents()), deleteMap.Keys, stuck)
    {
      hide Minus, Within, FilesOf, IsStuck, FileCount;
      ghost var d := Contents();
      nDeleted, failed := 0, false;
      ghost var gone: set<FileRange> := {};
      MinusNothing(d);
      var todo := deleteMap.Keys;
      while todo != {}
        invariant gone == deleteMap.Keys - todo && todo <= deleteMap.Keys
        invariant Contents() == if dryRun then d else Minus(d, gone)
        invariant nDeleted == if dryRun then 0 else FilesOf(d, gone)
        invariant FileCount(Contents()) + nDeleted == FileCount(d)
        invariant !dryRun ==> forall r :: r in gone ==> !IsStuck(d, stuck, r)
        decreases |todo|
      {
        var rng :| rng in todo;
        todo := todo - {rng};
        RemovedOneMore(d, gone, rng);
        FilesOfOneMore(d, gone, rng);
        if !dryRun {
          var n;
          n, failed := RemoveChunk(rng, stuck);
          nDeleted := nDeleted + n;
          if failed {
            MinusMore(d, gone, deleteMap.Keys);
            MinusMore(d, gone + {rng}, deleteMap.Keys);
            WithinChain(Minus(d, deleteMap.Keys), Minus(d, gone + {rng}), Contents());
            WithinChain(Contents(), Minus(d, gone), d);
            return;
          }
        }
        gone := gone + {rng};
      }
      assert gone == deleteMap.Keys;
      MinusMore(d, gone, gone);
    }
  }

  lemma MinusNothing(d: Parts)
    ensures Minus(d, {}) == d && FilesOf(d, {}) == 0
  {
    assert {} * d.indexes.Keys == {};
    assert d.blooms - {} == d.blooms;
    assert d.indexes - {} == d.indexes;
  }

  lemma MinusMore(d: Parts, gone: set<FileRange>, more: set<FileRange>)
    requires gone <= more
    ensures Within(Minus(d, more), Minus(d, gone)) && Within(Minus(d, gone), d) && Within(d, d)
  {
  }

  lemma WithinChain(a: Parts, b: Parts, c: Parts)
    requires Within(a, b) && Within(b, c)
    ensures Within(a, c)
  {
  }

  // What the walk has marked of the bloom filters it has visited.
  ghost predicate Marked(d: Parts, m: Listing, all: bool, todo: set<FileRange>,
                         deleteMap: map<FileRange, Reason>, downloadMap: map<FileRange, Reason>)
    requires m.Valid()
  {
    && downloadMap.Keys == m.chunkMap.Keys
    && (forall r :: r in deleteMap <==> r in d.blooms && r !in todo && IsDoomed(d, m, all, r))
    && (forall r :: r in deleteMap ==> deleteMap[r] == ReasonFor(d, m, all, r))
    && (forall r :: r in downloadMap ==>
          downloadMap[r] == if r in d.blooms && r !in todo then ReasonFor(d, m, all, r) else FileMissing)
  }

  lemma NothingMarked(d: Parts, m: Listing, all: bool, downloadMap: map<FileRange, Reason>)
    requires m.Valid() && downloadMap == map r | r in m.chunkMap :: FileMissing
    ensures Marked(d, m, all, d.blooms.Keys, map[], downloadMap)
  {
  }

  lemma MarkedOneMore(d: Parts, m: Listing, all: bool, todo: set<FileRange>, rng: FileRange,
                      deleteMap: map<FileRange, Reason>, downloadMap: map<FileRange, Reason>)
    requires m.Valid() && Marked(d, m, all, todo, deleteMap, downloadMap) && rng in todo && rng in d.blooms
    ensures var rest := todo - {rng};
      if rng in m.chunkMap then
        var (bloom, idx, _) := IsValidChunk(d, m.At(rng), all);
        if bloom == Okay && idx == Okay then Marked(d, m, all, rest, deleteMap, downloadMap[rng := Okay])
        else
          var reason := if bloom != Okay then bloom else idx;
          Marked(d, m, all, rest, deleteMap[rng := reason], downloadMap[rng := reason])
      else if !rng.LaterThan(m.LastRange())
      then Marked(d, m, all, rest, deleteMap[rng := NotInManifest], downloadMap)
      else Marked(d, m, all, rest, deleteMap, downloadMap)
  {
    hide IsValidChunk, IsDoomed, ReasonFor, Listing.Valid, Listing.At, Listing.LastRange, FileRange.LaterThan;
    ReasonMeans(d, m, all, rng);
  }

  lemma ReasonMeans(d: Parts, m: Listing, all: bool, r: FileRange)
    requires m.Valid()
    ensures if r !in m.chunkMap
            then ReasonFor(d, m, all, r) == NotInManifest && (IsDoomed(d, m, all, r) <==> !r.LaterThan(m.LastRange()))
            else
              var (bloom, idx, _) := IsValidChunk(d, m.At(r), all);
              && ReasonFor(d, m, all, r) == (if bloom != Okay then bloom else idx)
              && (IsDoomed(d, m, all, r) <==> bloom != Okay || idx != Okay)
  {
    hide IsValidChunk, BloomOkay, IndexOkay;
    if r in m.chunkMap {
      ValidMeansAgrees(d, m.At(r), all);
    }
  }

  lemma AllMarked(d: Parts, m: Listing, all: bool, deleteMap: map<FileRange, Reason>,
                  downloadMap: map<FileRange, Reason>)
    requires m.Valid() && Marked(d, m, all, {}, deleteMap, downloadMap)
    ensures deleteMap.Keys == Doomed(d, m, all) && downloadMap.Keys == m.chunkMap.Keys
    ensures forall r :: r in m.chunkMap ==>
      (downloadMap[r] == Okay <==> r in d.blooms && Agrees(d, m.At(r), all))
    ensures forall r :: r in deleteMap ==> deleteMap[r] == ReasonFor(d, m, all, r)
    ensures forall r :: r in downloadMap ==>
      downloadMap[r] == if r in d.blooms then ReasonFor(d, m, all, r) else FileMissing
  {
    forall r | r in m.chunkMap ensures ReasonFor(d, m, all, r) == Okay <==> Agrees(d, m.At(r), all) {
      ValidMeansAgrees(d, m.At(r), all);
    }
    hide IsValidChunk, BloomOkay, IndexOkay, Agrees;
  }

  lemma DoomedMeans(d: Parts, m: Listing, all: bool, r: FileRange)
    requires m.Valid()
    ensures IsDoomed(d, m, all, r) <==>
      if r in m.chunkMap then !Agrees(d, m.At(r), all) else !r.LaterThan(m.LastRange())
    ensures r in m.chunkMap ==> (Agrees(d, m.At(r), all) <==> BloomOkay(d, m.At(r)) && IndexOkay(d, m.At(r), all))
  {
  }

  class Manifest {
    var chunks: seq<ChunkRecord>
    const chunkMap: map<FileRange, nat>

    // LoadManifest points the map to the records; of equal ranges the last one wins.
    constructor (chunks: seq<ChunkRecord>)
      ensures this.chunks == chunks && Contents().Valid()
      ensures forall i :: 0 <= i < |chunks| ==> i <= chunkMap[chunks[i].range]
    {
      var pointers: map<FileRange, nat> := map[];
      for i := 0 to |chunks|
        invariant forall j :: 0 <= j < i ==> chunks[j].range in pointers && j <= pointers[chunks[j].range]
        invariant forall r :: r in pointers ==> pointers[r] < i && chunks[pointers[r]].range == r
      {
        pointers := pointers[chunks[i].range := i];
      }
      this.chunks, this.chunkMap := chunks, pointers;
    }

    ghost function Contents(): Listing
      reads this
    {
      Listing(chunks, chunkMap)
    }

    // Blanks the parts of a chunk that are okay and counts the others.
    static method Blank(d: Parts, c: ChunkRecord, all: bool) returns (chunk: ChunkRecord, nParts: nat, failed: bool)
      ensures failed <==> Fails(d, c)
      ensures !failed ==> chunk == ToFetch(d, c, all)
      ensures !failed ==> nParts == (if BloomOkay(d, c) then 0 else 1) + if IndexOkay(d, c, all) then 0 else 1
    {
      hide Fails, BloomOkay, IndexOkay, IsValidChunk;
      ValidMeansAgrees(d, c, all);
      var (bloomStatus, indexStatus, err) := IsValidChunk(d, c, all);
      chunk, nParts, failed := c, 0, err;
      if err {
        return;
      }
      if bloomStatus == Okay {
        chunk := chunk.(bloomHash := "", bloomSize := 0);
      } else {
        nParts := nParts + 1;
      }
      if indexStatus == Okay {
        chunk := chunk.(indexHash := "", indexSize := 0);
      } else {
        nParts := nParts + 1;
      }
    }

    // The chunks that are not okay. Their okay parts are blanked, in the manifest as in the list.
    method DownloadList(d: Parts, downloadMap: map<FileRange, Reason>, opts: Options)
      returns (list: seq<ChunkRecord>, nToDownload: nat, failed: bool)
      requires Contents().Valid() && downloadMap.Keys == chunkMap.Keys
      modifies this
      ensures failed <==> exists r :: r in Pending(chunkMap, downloadMap, opts) && Fails(d, old(Contents()).At(r))
      ensures !failed ==> ListOk(d, old(Contents()), opts.all, Pending(chunkMap, downloadMap, opts), list)
      ensures !failed ==> Blanked(d, old(Contents()), opts.all, RangesIn(list), chunks)
      ensures !failed && Complete(old(Contents())) ==> nToDownload == |BloomsIn(list)| + |IndexesIn(list)|
    {
      hide Fails, BloomOkay, IndexOkay, ToFetch, Listing.Valid, Listing.At, BloomsIn, IndexesIn, RangesIn, Complete,
           ListOk, Blanked;
      ghost var m := Contents();
      ghost var pending := Pending(chunkMap, downloadMap, opts);
      list, nToDownload, failed := [], 0, false;
      ghost var listed: set<FileRange> := {};
      EmptyList(d, m, opts.all);
      var todo := chunkMap.Keys;
      while todo != {}
        invariant todo <= chunkMap.Keys && listed == pending - todo
        invariant ListOk(d, m, opts.all, listed, list)
        invariant Blanked(d, m, opts.all, listed, chunks)
        invariant Complete(m) ==> nToDownload == |BloomsIn(list)| + |IndexesIn(list)|
        invariant forall r :: r in pending && r !in todo ==> !Fails(d, m.At(r))
        decreases |todo|
      {
        var rng :| rng in todo;
        todo := todo - {rng};
        if downloadMap[rng] == Okay || rng.last < opts.firstBlock {
          continue;
        }
        ListStep(d, m, opts.all, listed, list, chunks, rng);
        listed := listed + {rng};
        var chunk, nParts;
        chunk, nParts, failed := Blank(d, chunks[chunkMap[rng]], opts.all);
        if failed {
          return;
        }
        ToFetchMeans(d, m, rng, opts.all);
        chunks := chunks[chunkMap[rng] := chunk];
        list, nToDownload := list + [chunk], nToDownload + nParts;
      }
      assert pending - {} == pending;
      ListedRanges(d, m, opts.all, pending, list);
    }
  }

  function Pending(chunkMap: map<FileRange, nat>, downloadMap: map<FileRange, Reason>, opts: Options): set<FileRange>
    requires downloadMap.Keys == chunkMap.Keys
  {
    set r | r in chunkMap && downloadMap[r] != Okay && r.last >= opts.firstBlock
  }

  lemma EmptyList(d: Parts, m: Listing, all: bool)
    requires m.Valid()
    ensures ListOk(d, m, all, {}, []) && Blanked(d, m, all, {}, m.chunks)
    ensures BloomsIn([]) == IndexesIn([]) == {}
  {
  }

  lemma ListedRanges(d: Parts, m: Listing, all: bool, wanted: set<FileRange>, list: seq<ChunkRecord>)
    requires m.Valid() && ListOk(d, m, all, wanted, list)
    ensures RangesIn(list) == wanted
  {
  }

  lemma ListStep(d: Parts, m: Listing, all: bool, wanted: set<FileRange>, list: seq<ChunkRecord>,
                 chunks: seq<ChunkRecord>, r: FileRange)
    requires m.Valid() && ListOk(d, m, all, wanted, list) && Blanked(d, m, all, wanted, chunks)
    requires r in m.chunkMap && r !in wanted
    ensures m.chunkMap[r] < |chunks| && chunks[m.chunkMap[r]] == m.At(r)
    ensures var c := ToFetch(d, m.At(r), all);
      && ListOk(d, m, all, wanted + {r}, list + [c])
      && Blanked(d, m, all, wanted + {r}, chunks[m.chunkMap[r] := c])
      && |BloomsIn(list + [c])| == |BloomsIn(list)| + (if c.bloomHash != "" then 1 else 0)
      && |IndexesIn(list + [c])| == |IndexesIn(list)| + (if c.indexHash != "" then 1 else 0)
  {
    hide BloomsIn, IndexesIn, RangesIn, BloomOkay, IndexOkay, DistinctRanges;
    var c := ToFetch(d, m.At(r), all);
    ListedOneMore(list, c);
    CountOneMore(list, c);
    assert forall x :: x in list + [c] <==> x in list || x == c;
    InList(list);
  }

  lemma InList(list: seq<ChunkRecord>)
    ensures forall c :: c in list ==> c.range in RangesIn(list)
  {
  }

  lemma ToFetchMeans(d: Parts, m: Listing, r: FileRange, all: bool)
    requires m.Valid() && r in m.chunkMap
    ensures var c := ToFetch(d, m.At(r), all);
      && c.range == r
      && (Complete(m) ==> (c.bloomHash == "" <==> BloomOkay(d, m.At(r))))
      && (Complete(m) ==> (c.indexHash == "" <==> IndexOkay(d, m.At(r), all)))
  {
  }

  lemma LateErrors(before: Parts, m: Listing, opts: Options)
    requires m.Valid()
    requires forall r :: r in before.blooms && r in m.chunkMap ==> !Fails(before, m.At(r))
    ensures var after := if opts.dryRun then before else Minus(before, Doomed(before, m, opts.all));
      (exists r :: r in Wanted(before, m, opts) && Fails(after, m.At(r))) <==> RaisesError(before, m, opts)
  {
  }

  method PrepareDownloadList(disc: ChunkFolders, man: Manifest, opts: Options, stuck: Stuck)
    returns (outcome: Outcome, nDeleted: nat)
    requires man.Contents().Valid()
    modifies disc, man
    ensures Ran(old(disc.Contents()), old(man.Contents()), opts, stuck, disc.Contents(), nDeleted, outcome)
    ensures outcome.Prepared? ==>
      Blanked(disc.Contents(), old(man.Contents()), opts.all, RangesIn(outcome.list), man.chunks)
  {
    hide Fails, Agrees, Minus, Within, FilesOf, FileCount, Blanked, IsDoomed, Blocked, ReasonFor, SortedBy, ListOk,
         Complete;
    ghost var before, m := disc.Contents(), man.Contents();
    MinusNothing(before);
    MinusMore(before, {}, Doomed(before, m, opts.all));
    var deleteMap, downloadMap, failed := disc.Walk(Listing(man.chunks, man.chunkMap), opts.all);
    if failed {
      return Failed, 0;
    }
    nDeleted, failed := disc.Remove(deleteMap, opts.dryRun, stuck);
    if failed {
      return Failed, nDeleted;
    }
    assert Pending(man.chunkMap, downloadMap, opts) == Wanted(before, m, opts);
    LateErrors(before, m, opts);
    var list, nToDownload;
    list, nToDownload, failed := man.DownloadList(Parts(disc.blooms, disc.indexes), downloadMap, opts);
    if failed {
      return Failed, nDeleted;
    }
    SortedList(disc.Contents(), m, opts.all, Wanted(before, m, opts), list);
    outcome := Prepared(Sort(list, Later), nToDownload);
  }

  lemma LaterIsPreorder()
    ensures TotalPreorder(Later)
  {
    StringOrderIsTotal();
    hide RangeName, StringLeq;
  }

  lemma SameMembers(list: seq<ChunkRecord>, sorted: seq<ChunkRecord>)
    requires multiset(list) == multiset(sorted)
    ensures RangesIn(sorted) == RangesIn(list)
    ensures BloomsIn(sorted) == BloomsIn(list) && IndexesIn(sorted) == IndexesIn(list)
    ensures forall c :: c in sorted ==> c in list
  {
    forall c ensures c in sorted <==> c in list {
      assert c in multiset(sorted) <==> c in multiset(list);
    }
  }

  lemma SortedList(d: Parts, m: Listing, all: bool, wanted: set<FileRange>, list: seq<ChunkRecord>)
    requires m.Valid() && ListOk(d, m, all, wanted, list)
    ensures ListOk(d, m, all, wanted, Sort(list, Later)) && SortedBy(Sort(list, Later), Later)
    ensures RangesIn(Sort(list, Later)) == RangesIn(list)
    ensures BloomsIn(Sort(list, Later)) == BloomsIn(list) && IndexesIn(Sort(list, Later)) == IndexesIn(list)
  {
    hide Sort, Later, RangesIn, BloomsIn, IndexesIn, ToFetch;
    LaterIsPreorder();
    SortSorts(list, Later);
    SameMembers(list, Sort(list, Later));
    InList(list);
    InList(Sort(list, Later));
  }

  // ---- What is returned ----

  lemma {:induction false} RangesBound(list: seq<ChunkRecord>)
    ensures |RangesIn(list)| <= |list|
  {
    if list != [] {
      var k := |list| - 1;
      RangesBound(list[..k]);
      OneMore(list[..k], list[k]);
      assert list == list[..k] + [list[k]];
    }
  }

  lemma PairwiseDistinct(list: seq<ChunkRecord>, i: nat, j: nat)
    requires DistinctRanges(list) && i < j < |list|
    ensures list[i].range != list[j].range
  {
    if list[i].range == list[j].range {
      var rest := Without(list, j);
      assert rest[i] == list[i];
      forall c | c in list ensures exists c' :: c' in rest && c'.range == c.range {
        var k :| 0 <= k < |list| && list[k] == c;
        assert if k == j then rest[i].range == c.range else rest[if k < j then k else k - 1] == c;
      }
      InList(rest);
      assert RangesIn(list) <= RangesIn(rest);
      SubsetSize(RangesIn(list), RangesIn(rest));
      RangesBound(rest);
    }
  }

  lemma {:induction false} SubsetSize(a: set<FileRange>, b: set<FileRange>)
    requires a <= b
    ensures |a| <= |b|
  {
    if a != {} {
      var x :| x in a;
      SubsetSize(a - {x}, b - {x});
    }
  }

  // Up to nine digits, the list is strictly descending by range.
  lemma StrictlyDescending(list: seq<ChunkRecord>, i: nat, j: nat)
    requires DistinctRanges(list) && SortedBy(list, Later) && i < j < |list|
    requires forall c :: c in list ==> c.range.first < 1_000_000_000 && c.range.last < 1_000_000_000
    ensures RangeLeq(list[j].range, list[i].range) && list[i].range != list[j].range
  {
    PairwiseDistinct(list, i, j);
    RangeOrder(list[j].range, list[i].range);
    assert Later(list[i], list[j]);
  }

  // A returned record names at least one part, and those of a removed chunk always its bloom filter.
  // The removed index is fetched again only with `all`, or for block zero.
  lemma RecordsNameParts(before: Parts, m: Listing, opts: Options, stuck: Stuck, after: Parts, nDeleted: nat,
                         list: seq<ChunkRecord>, n: nat, c: ChunkRecord)
    requires m.Valid() && Complete(m) && Ran(before, m, opts, stuck, after, nDeleted, Prepared(list, n)) && c in list
    ensures c.bloomHash != "" || c.indexHash != ""
    ensures !opts.dryRun ==> c.bloomHash == m.At(c.range).bloomHash
    ensures !opts.dryRun && c.range in before.blooms ==> (c.indexHash != "" <==> opts.all || c.range == GENESIS)
  {
    hide Ran, Listing.Valid, Listing.At, Complete;
    ListedRecord(before, m, opts, stuck, after, nDeleted, list, n, c);
    ToFetchMeans(after, m, c.range, opts.all);
    IsComplete(m, c.range);
  }

  lemma IsComplete(m: Listing, r: FileRange)
    requires m.Valid() && Complete(m) && r in m.chunkMap
    ensures m.At(r).range == r && m.At(r).bloomHash != "" && m.At(r).indexHash != ""
  {
  }

  lemma ListedRecord(before: Parts, m: Listing, opts: Options, stuck: Stuck, after: Parts, nDeleted: nat,
                     list: seq<ChunkRecord>, n: nat, c: ChunkRecord)
    requires m.Valid() && Ran(before, m, opts, stuck, after, nDeleted, Prepared(list, n)) && c in list
    ensures var r := c.range;
      && r in m.chunkMap && c == ToFetch(after, m.At(r), opts.all)
      && (r in before.blooms ==> !Agrees(before, m.At(r), opts.all))
      && (if opts.dryRun then after == before else r !in after.blooms && (r in before.blooms ==> r !in after.indexes))
  {
    hide DistinctRanges, SortedBy, Within, Listing.Valid, ToFetch, Agrees, Complete, Blocked, RaisesError, FilesOf;
    InList(list);
    assert c.range in Wanted(before, m, opts);
    assert c.range in before.blooms ==> c.range in Doomed(before, m, opts.all);
  }

  // A chunk that the manifest does not list stays if and only if it begins after the manifest's last
  // record ends.
  lemma UnlistedChunk(before: Parts, m: Listing, opts: Options, stuck: Stuck, after: Parts, nDeleted: nat,
                      list: seq<ChunkRecord>, n: nat, r: FileRange)
    requires m.Valid() && Ran(before, m, opts, stuck, after, nDeleted, Prepared(list, n)) && !opts.dryRun
    requires r in before.blooms && forall i :: 0 <= i < |m.chunks| ==> m.chunks[i].range != r
    ensures r in after.blooms <==>
      r.first > if m.chunks == [] then 0 else m.chunks[|m.chunks| - 1].range.last
    ensures r in after.indexes <==> r in before.indexes && r in after.blooms
  {
    hide ListOk, SortedBy, Within, RaisesError, FilesOf, Agrees;
    assert r !in m.chunkMap;
    assert r in Doomed(before, m, opts.all) <==> !r.LaterThan(m.LastRange());
  }

  // If the records are well-formed and increasing, that is after the end of every record.
  lemma StaleOrNewer(before: Parts, m: Listing, opts: Options, stuck: Stuck, after: Parts, nDeleted: nat,
                     list: seq<ChunkRecord>, n: nat, r: FileRange)
    requires m.Valid() && Ran(before, m, opts, stuck, after, nDeleted, Prepared(list, n)) && !opts.dryRun
    requires m.chunks != [] && forall i :: 0 <= i < |m.chunks| ==> m.chunks[i].range.first <= m.chunks[i].range.last
    requires forall i, j :: 0 <= i < j < |m.chunks| ==> m.chunks[i].range.last < m.chunks[j].range.first
    requires r in before.blooms && forall i :: 0 <= i < |m.chunks| ==> m.chunks[i].range != r
    ensures r in after.blooms <==> forall i :: 0 <= i < |m.chunks| ==> m.chunks[i].range.last < r.first
  {
    hide Ran, Listing.Valid;
    UnlistedChunk(before, m, opts, stuck, after, nDeleted, list, n, r);
    var k := |m.chunks| - 1;
    forall i | 0 <= i < k ensures m.chunks[i].range.last < m.chunks[k].range.last {
      assert m.chunks[i].range.last < m.chunks[k].range.first;
    }
  }

  // No part of a chunk that agrees with the manifest, or that is later than it, is touched, whatever
  // the outcome; nor are parts of chunks without a bloom filter.
  lemma AgreeingChunksStay(before: Parts, m: Listing, opts: Options, stuck: Stuck, after: Parts, nDeleted: nat,
                           outcome: Outcome,
                           r: FileRange)
    requires m.Valid() && Ran(before, m, opts, stuck, after, nDeleted, outcome)
    requires if r in m.chunkMap then Agrees(before, m.At(r), opts.all) || r !in before.blooms
             else r.LaterThan(m.LastRange()) || r !in before.blooms
    ensures r in after.blooms <==> r in before.blooms
    ensures r in after.indexes <==> r in before.indexes
    ensures r in before.blooms ==> after.blooms[r] == before.blooms[r]
    ensures r in before.indexes ==> after.indexes[r] == before.indexes[r]
  {
    hide Agrees, ListOk;
    assert r !in Doomed(before, m, opts.all);
    assert r in before.blooms ==> r in Minus(before, Doomed(before, m, opts.all)).blooms;
    assert r in before.indexes ==> r in Minus(before, Doomed(before, m, opts.all)).indexes;
  }

  // A dry run changes nothing, and names the chunks that the real run names if that can remove its files.
  lemma DryRunNamesTheSame(before: Parts, m: Listing, opts: Options, stuck: Stuck,
                           after: Parts, nDeleted: nat, outcome: Outcome,
                           dryAfter: Parts, dryDeleted: nat, dryOutcome: Outcome)
    requires m.Valid()
    requires Ran(before, m, opts.(dryRun := false), stuck, after, nDeleted, outcome)
    requires Ran(before, m, opts.(dryRun := true), stuck, dryAfter, dryDeleted, dryOutcome)
    ensures dryAfter == before
    ensures outcome.Prepared? <==> dryOutcome.Prepared? && !Blocked(before, Doomed(before, m, opts.all), stuck)
    ensures outcome.Prepared? ==> RangesIn(outcome.list) == RangesIn(dryOutcome.list)
  {
    hide Agrees, Fails, IsDoomed, Minus, Within;
  }

  // ---- Convergence ----

  // Every part named in the list is fetched and is what the manifest says.
  ghost predicate Fetched(d: Parts, m: Listing, list: seq<ChunkRecord>, fetched: Parts)
    requires m.Valid() && RangesIn(list) <= m.chunkMap.Keys
  {
    InList(list);
    var blooms := map r | r in BloomsIn(list) :: Part(m.At(r).bloomSize, Good);
    var indexes := map r | r in IndexesIn(list) :: Part(m.At(r).indexSize, Good);
    fetched == Parts(d.blooms + blooms, d.indexes + indexes)
  }

  lemma NamedParts(d: Parts, m: Listing, all: bool, wanted: set<FileRange>, list: seq<ChunkRecord>, r: FileRange)
    requires m.Valid() && Complete(m) && ListOk(d, m, all, wanted, list)
    ensures r in BloomsIn(list) <==> r in wanted && !BloomOkay(d, m.At(r))
    ensures r in IndexesIn(list) <==> r in wanted && !IndexOkay(d, m.At(r), all)
  {
  }

  lemma FetchedParts(d: Parts, m: Listing, all: bool, wanted: set<FileRange>, list: seq<ChunkRecord>, fetched: Parts,
                     r: FileRange)
    requires m.Valid() && Complete(m) && ListOk(d, m, all, wanted, list) && Fetched(d, m, list, fetched)
    ensures r in wanted ==> Agrees(fetched, m.At(r), all)
    ensures r !in wanted ==> (r in fetched.blooms <==> r in d.blooms) && (r in fetched.indexes <==> r in d.indexes)
    ensures r !in wanted && r in d.blooms ==> fetched.blooms[r] == d.blooms[r]
    ensures r !in wanted && r in d.indexes ==> fetched.indexes[r] == d.indexes[r]
  {
    hide Complete, Listing.Valid, BloomOkay, IndexOkay, ToFetch, RangesIn, BloomsIn, IndexesIn;
    NamedParts(d, m, all, wanted, list, r);
    Arrived(d, m, list, fetched, r);
    if r in wanted {
      assert m.At(r).range == r by { RangeAt(m, r); }
      PartsOkay(d, fetched, m.At(r), all, r in BloomsIn(list), r in IndexesIn(list));
    }
  }

  lemma RangeAt(m: Listing, r: FileRange)
    requires m.Valid() && r in m.chunkMap
    ensures m.At(r).range == r
  {
  }

  // What has been fetched is there, everything else is as it was.
  lemma Arrived(d: Parts, m: Listing, list: seq<ChunkRecord>, fetched: Parts, r: FileRange)
    requires m.Valid() && RangesIn(list) <= m.chunkMap.Keys && Fetched(d, m, list, fetched)
    ensures r in BloomsIn(list) + IndexesIn(list) ==> r in RangesIn(list)
    ensures if r in BloomsIn(list) then r in fetched.blooms && fetched.blooms[r] == Part(m.At(r).bloomSize, Good)
            else (r in fetched.blooms <==> r in d.blooms) && (r in d.blooms ==> fetched.blooms[r] == d.blooms[r])
    ensures if r in IndexesIn(list) then r in fetched.indexes && fetched.indexes[r] == Part(m.At(r).indexSize, Good)
            else (r in fetched.indexes <==> r in d.indexes) && (r in d.indexes ==> fetched.indexes[r] == d.indexes[r])
  {
  }

  lemma PartsOkay(d: Parts, fetched: Parts, c: ChunkRecord, all: bool, bloomNamed: bool, indexNamed: bool)
    requires bloomNamed <==> !BloomOkay(d, c)
    requires indexNamed <==> !IndexOkay(d, c, all)
    requires if bloomNamed then c.range in fetched.blooms && fetched.blooms[c.range] == Part(c.bloomSize, Good)
             else c.range in d.blooms ==> c.range in fetched.blooms && fetched.blooms[c.range] == d.blooms[c.range]
    requires if indexNamed then c.range in fetched.indexes && fetched.indexes[c.range] == Part(c.indexSize, Good)
             else
               (c.range in d.indexes <==> c.range in fetched.indexes) &&
               (c.range in d.indexes ==> fetched.indexes[c.range] == d.indexes[c.range])
    ensures Agrees(fetched, c, all)
  {
  }

  lemma ConvergedChunk(before: Parts, m: Listing, opts: Options, after: Parts, list: seq<ChunkRecord>, fetched: Parts,
                       r: FileRange)
    requires m.Valid() && Complete(m) && after == Minus(before, Doomed(before, m, opts.all))
    requires ListOk(after, m, opts.all, Wanted(before, m, opts), list) && Fetched(after, m, list, fetched)
    ensures r in fetched.blooms ==> !IsDoomed(fetched, m, opts.all, r)
    ensures r in m.chunkMap && r.last >= opts.firstBlock ==> r in fetched.blooms && Agrees(fetched, m.At(r), opts.all)
  {
    FetchedParts(after, m, opts.all, Wanted(before, m, opts), list, fetched, r);
    hide ListOk, Fetched, Complete;
  }

  lemma AgreeingDoesNotFail(d: Parts, c: ChunkRecord, all: bool)
    requires Agrees(d, c, all)
    ensures !Fails(d, c) && c.range in d.blooms
  {
  }

  // After a run, and after every named part has been fetched, another run on a fresh copy of the
  // manifest finds nothing to remove and nothing to fetch.
  lemma Converges(before: Parts, m: Listing, opts: Options, stuck: Stuck, after: Parts, nDeleted: nat,
                  list: seq<ChunkRecord>, n: nat,
                  fetched: Parts, stuck': Stuck, after': Parts, nDeleted': nat, outcome': Outcome)
    requires m.Valid() && Complete(m) && !opts.dryRun
    requires Ran(before, m, opts, stuck, after, nDeleted, Prepared(list, n))
    requires Fetched(after, m, list, fetched)
    requires Ran(fetched, m, opts, stuck', after', nDeleted', outcome')
    ensures outcome' == Prepared([], 0) && nDeleted' == 0 && after' == fetched
  {
    hide ListOk, Fetched, Agrees, Fails, IsDoomed, Minus, Within, Complete, FilesOf;
    forall r
      ensures r !in Doomed(fetched, m, opts.all) && r !in Wanted(fetched, m, opts)
      ensures r in m.chunkMap && (r in fetched.blooms || r.last >= opts.firstBlock) ==> !Fails(fetched, m.At(r))
    {
      ConvergedChunk(before, m, opts, after, list, fetched, r);
      DoomedMeans(fetched, m, opts.all, r);
      if r in m.chunkMap && Agrees(fetched, m.At(r), opts.all) {
        AgreeingDoesNotFail(fetched, m.At(r), opts.all);
      }
    }
    assert Doomed(fetched, m, opts.all) == {} && Wanted(fetched, m, opts) == {};
    assert !RaisesError(fetched, m, opts);
    MinusNothing(fetched);
    NothingListed(after', m, opts.all, outcome'.list);
  }

  lemma NothingListed(d: Parts, m: Listing, all: bool, list: seq<ChunkRecord>)
    requires m.Valid() && ListOk(d, m, all, {}, list)
    ensures list == [] && BloomsIn(list) == IndexesIn(list) == {}
  {
  }
}
