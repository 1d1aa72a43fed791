// CheckInternal: audit of each chunk's size against its place on the snap grid.
module CheckInternal {
  import opened Ranges
  import opened StageFile
  import opened Index
  import opened Report
  import opened Wrappers
  import CheckSequential
  import opened Common

  // What opening the index file of a chunk gives; `count` is the header's number of appearances.
  datatype Opened = NoSuchFile | IncorrectHash | OtherError | Header(count: Uint32)

  datatype Message = CannotOpen | BadName | SnapTooEarly | TooManyApps | TooFewApps

  datatype Config = Config(firstSnap: nat, snapTo: nat, appsPerChunk: nat) {
    // The number of appearances per chunk is read as a uint32.
    function AppsPer(): Uint32 {
      appsPerChunk % UINT32
    }
  }

  function SnapComplaint(c: Config, fR: FileRange, count: Uint32): Option<Message>
    requires c.snapTo >= 1
  {
    if fR.last >= c.firstSnap && fR.last % c.snapTo == 0 then
      if fR.last < c.firstSnap then Some(SnapTooEarly)
      else if count >= c.AppsPer() then Some(TooManyApps)
      else None
    else if count < c.AppsPer() && fR.last > 0 then Some(TooFewApps)
    else None
  }

  // The first complaint can never be made.
  lemma SnapIsNeverTooEarly(c: Config, fR: FileRange, count: Uint32)
    requires c.snapTo >= 1
    ensures SnapComplaint(c, fR, count) != Some(SnapTooEarly)
  {
  }

  // A chunk on the snap grid must not be full; any other, save block zero's, must be.
  lemma SnapsMean(c: Config, fR: FileRange, count: Uint32)
    requires c.snapTo >= 1
    ensures var onGrid := c.firstSnap <= fR.last && fR.last % c.snapTo == 0;
      var full := count >= c.appsPerChunk % 0x1_0000_0000;
      && (SnapComplaint(c, fR, count) == Some(TooManyApps) <==> onGrid && full)
      && (SnapComplaint(c, fR, count) == Some(TooFewApps) <==> !onGrid && !full && fR.last != 0)
      && (SnapComplaint(c, fR, count) == None <==> (onGrid && !full) || (!onGrid && (full || fR.last == 0)))
  {
  }

  method CheckSnaps(c: Config, name: Option<FileRange>, count: Uint32, report: ReportCheck<Message>)
    requires c.snapTo >= 1
    modifies report
    ensures report.visited == old(report.visited) + 1 && report.checked == old(report.checked) + 1
    ensures var complaint := if name.None? then Some(BadName) else SnapComplaint(c, name.value, count);
      && report.passed == old(report.passed) + (if complaint.None? then 1 else 0)
      && report.messages == old(report.messages) + (if complaint.None? then [] else [complaint.value])
  {
    report.visited := report.visited + 1;
    report.checked := report.checked + 1;
    if name.None? {
      report.messages := report.messages + [BadName];
      return;
    }
    var complaint := SnapComplaint(c, name.value, count);
    if complaint.Some? {
      report.messages := report.messages + [complaint.value];
    } else {
      report.passed := report.passed + 1;
    }
  }

  // An index file: the range in its name, and what opening it gives.
  datatype IndexFile = IndexFile(name: Option<FileRange>, content: Opened)

  // Blooms without an index, and files of another version, are fine unless the version is checked.
  predicate Fails(c: Config, f: IndexFile, checkVersion: bool)
    requires c.snapTo >= 1
  {
    || f.content.OtherError?
    || (f.content.IncorrectHash? && checkVersion)
    || (f.content.Header? && !checkVersion && (f.name.None? || SnapComplaint(c, f.name.value, f.content.count).Some?))
  }

  // A missing index never fails; one of another version fails exactly if the version is checked; an index
  // that can be read fails exactly if the version is not checked and its name or its size is wrong.
  lemma FailsMeans(c: Config, f: IndexFile, checkVersion: bool)
    requires c.snapTo >= 1
    ensures f.content == NoSuchFile ==> !Fails(c, f, checkVersion)
    ensures f.content == IncorrectHash ==> (Fails(c, f, checkVersion) <==> checkVersion)
    ensures f.content == OtherError ==> Fails(c, f, checkVersion)
    ensures f.content.Header? && checkVersion ==> !Fails(c, f, checkVersion)
    ensures f.content.Header? && !checkVersion ==> (Fails(c, f, checkVersion) <==>
      f.name == None ||
      (var full := f.content.count >= c.appsPerChunk % 0x1_0000_0000;
       if c.firstSnap <= f.name.value.last && f.name.value.last % c.snapTo == 0 then full
       else !full && f.name.value.last != 0))
  {
    if f.content.Header? && f.name.Some? {
      SnapsMean(c, f.name.value, f.content.count);
    }
  }

  // Why a file fails.
  function Complaint(c: Config, f: IndexFile, checkVersion: bool): Message
    requires c.snapTo >= 1 && Fails(c, f, checkVersion)
  {
    if f.content.Header? then (if f.name.None? then BadName else SnapComplaint(c, f.name.value, f.content.count).value)
    else CannotOpen
  }

  // How often a file is counted: its size is audited as a check of its own.
  function Checks(f: IndexFile, checkVersion: bool): nat {
    if f.content.Header? && !checkVersion then 2 else 1
  }

  method CheckIndexChunkInternal(c: Config, f: IndexFile, checkVersion: bool, report: ReportCheck<Message>)
    requires c.snapTo >= 1
    modifies report
    ensures report.visited == old(report.visited) + Checks(f, checkVersion)
    ensures report.checked == old(report.checked) + Checks(f, checkVersion)
    ensures report.checked - report.passed ==
            old(report.checked - report.passed) + if Fails(c, f, checkVersion) then 1 else 0
    ensures report.messages == old(report.messages) +
      if Fails(c, f, checkVersion) then [Complaint(c, f, checkVersion)] else []
  {
    report.visited := report.visited + 1;
    report.checked := report.checked + 1;
    match f.content {
      case NoSuchFile =>
        report.passed := report.passed + 1;
      case IncorrectHash =>
        if !checkVersion {
          report.passed := report.passed + 1;
        } else {
          report.messages := report.messages + [CannotOpen];
        }
      case OtherError =>
        report.messages := report.messages + [CannotOpen];
      case Header(count) =>
        report.passed := report.passed + 1;
        if !checkVersion {
          CheckSnaps(c, f.name, count, report);
        }
    }
  }

  // The files that fail, by their position.
  function Failing(c: Config, files: seq<IndexFile>, checkVersion: bool): set<nat>
    requires c.snapTo >= 1
  {
    set i | 0 <= i < |files| && Fails(c, files[i], checkVersion)
  }

  // The messages about the files that fail, in order.
  function Complaints(c: Config, files: seq<IndexFile>): (ms: seq<Message>)
    requires c.snapTo >= 1
    ensures |ms| <= |files|
  {
    if files == [] then []
    else
      var f := files[|files| - 1];
      Complaints(c, files[..|files| - 1]) + if Fails(c, f, false) then [Complaint(c, f, false)] else []
  }

  // How many files can be opened.
  function Readable(files: seq<IndexFile>): (n: nat)
    ensures n <= |files|
  {
    if files == [] then 0
    else Readable(files[..|files| - 1]) + if files[|files| - 1].content.Header? then 1 else 0
  }

  method CheckInternal(c: Config, files: seq<IndexFile>, report: ReportCheck<Message>)
    requires c.snapTo >= 1
    modifies report
    ensures report.visited == old(report.visited) + |files| + Readable(files)
    ensures report.checked == old(report.checked) + |files| + Readable(files)
    ensures report.checked - report.passed == old(report.checked - report.passed) + |Failing(c, files, false)|
    ensures report.messages == old(report.messages) + Complaints(c, files)
  {
    hide Fails, Complaint;
    assert files[..0] == [];
    for k := 0 to |files|
      invariant report.visited == old(report.visited) + k + Readable(files[..k])
      invariant report.checked == old(report.checked) + k + Readable(files[..k])
      invariant report.checked - report.passed == old(report.checked - report.passed) + |Failing(c, files[..k], false)|
      invariant report.messages == old(report.messages) + Complaints(c, files[..k])
    {
      assert files[..k + 1][..k] == files[..k];
      OneMoreFile(c, files[..k], files[k]);
      assert files[..k + 1] == files[..k] + [files[k]];
      CheckIndexChunkInternal(c, files[k], false, report);
    }
    assert files[..|files|] == files;
  }

  lemma OneMoreFile(c: Config, files: seq<IndexFile>, f: IndexFile)
    requires c.snapTo >= 1
    ensures |Failing(c, files + [f], false)| == |Failing(c, files, false)| + if Fails(c, f, false) then 1 else 0
  {
    var more := if Fails(c, f, false) then {|files|} else {};
    assert Failing(c, files + [f], false) == Failing(c, files, false) + more;
  }

  // ---- The writer and the auditors ----

  function Scraping(c: Config): Settings
    requires c.snapTo >= 1
  {
    Settings(c.appsPerChunk, Grid(c.firstSnap, c.snapTo))
  }

  // The file that chunk.Write makes of a chunk.
  function FileOf(chunk: Chunk): IndexFile {
    IndexFile(Some(chunk.range), Header(|chunk.apps| % UINT32))
  }

  function FilesOf(chunks: seq<Chunk>): (files: seq<IndexFile>)
    ensures |files| == |chunks| && forall i :: 0 <= i < |files| ==> files[i] == FileOf(chunks[i])
  {
    seq(|chunks|, i requires 0 <= i < |chunks| => FileOf(chunks[i]))
  }

  predicate SnappedAndFull(c: Config, chunk: Chunk)
    requires c.snapTo >= 1
  {
    Scraping(c).snap(chunk.range.last) && |chunk.apps| >= c.appsPerChunk
  }

  // A chunk that the scraper wrote passes the audit, unless it was cut at a snap point by a block that
  // also overtops it.
  lemma WriterAndAuditorAgree(c: Config, w: World, chunk: Chunk)
    requires c.snapTo >= 1 && c.appsPerChunk < UINT32 && |chunk.apps| < UINT32
    requires ChunkOk(Scraping(c), w, chunk)
    ensures Fails(c, FileOf(chunk), false) <==> SnappedAndFull(c, chunk)
  {
  }

  // The failures of a sound index are exactly its chunks that are both snapped and full.
  lemma ScrapedIndexAudit(c: Config, w: World, ix: Index)
    requires c.snapTo >= 1 && c.appsPerChunk < UINT32 && Inv(Scraping(c), w, ix)
    requires forall i :: 0 <= i < |ix.chunks| ==> |ix.chunks[i].apps| < UINT32
    ensures Failing(c, FilesOf(ix.chunks), false) == set i | 0 <= i < |ix.chunks| && SnappedAndFull(c, ix.chunks[i])
  {
    hide Fails, SnappedAndFull, Exact;
    forall i | 0 <= i < |ix.chunks|
      ensures Fails(c, FilesOf(ix.chunks)[i], false) <==> SnappedAndFull(c, ix.chunks[i])
    {
      ChunkIsOk(Scraping(c), w, ix, i);
      WriterAndAuditorAgree(c, w, ix.chunks[i]);
    }
  }

  lemma ChunkIsOk(cfg: Settings, w: World, ix: Index, i: nat)
    requires Inv(cfg, w, ix) && i < |ix.chunks|
    ensures ChunkOk(cfg, w, ix.chunks[i])
  {
  }

  function RangesOf(chunks: seq<Chunk>): (rs: seq<FileRange>)
    ensures |rs| == |chunks| && forall i :: 0 <= i < |rs| ==> rs[i] == chunks[i].range
  {
    seq(|chunks|, i requires 0 <= i < |chunks| => chunks[i].range)
  }

  // A sound index passes the lenient sequential audit, and the strict one if every block has an appearance.
  lemma ScrapedIndexIsSequential(cfg: Settings, w: World, ix: Index)
    requires cfg.perChunk >= 1 && Faithful(w) && Inv(cfg, w, ix) && Height(ix.chunks) < NOPOSN
    ensures CheckSequential.Audited(RangesOf(ix.chunks), true)
    ensures (forall b: nat :: b <= Top(ix) ==> w(b) != multiset{}) ==>
      CheckSequential.Audited(RangesOf(ix.chunks), false)
  {
    var rs := RangesOf(ix.chunks);
    ChunkRanges(cfg, w, ix);
    hide Inv, Top, CheckSequential.Audited, Faithful;
    EarlierIsIncreasing(rs);
    CheckSequential.LenientAuditMeansDisjoint(rs);
    if forall b: nat :: b <= Top(ix) ==> w(b) != multiset{} {
      forall i | 0 <= i < |rs| - 1 ensures rs[i].Precedes(rs[i + 1], true) {
        BusyChainTiles(cfg, w, ix, i);
      }
      AdjacentIsAudited(rs);
    }
  }

  lemma EarlierIsIncreasing(rs: seq<FileRange>)
    requires CheckSequential.WellFormed(rs) && forall i, j :: 0 <= i < j < |rs| ==> rs[i].EarlierThan(rs[j])
    ensures CheckSequential.Increasing(rs)
  {
    forall i | 0 <= i < |rs| - 1 ensures rs[i] != rs[i + 1] {
      assert rs[i].EarlierThan(rs[i + 1]);
    }
  }

  lemma AdjacentIsAudited(rs: seq<FileRange>)
    requires CheckSequential.WellFormed(rs) && forall i :: 0 <= i < |rs| - 1 ==> rs[i].Precedes(rs[i + 1], true)
    ensures CheckSequential.Audited(rs, false)
  {
    forall i | 0 <= i < |rs| - 1 ensures CheckSequential.PairOk(rs[i], rs[i + 1], false) {
      assert rs[i].Precedes(rs[i + 1], true) && rs[i + 1].WellFormed();
    }
    CheckSequential.AllPassMeansChain(rs, |rs|, false);
  }

  lemma ChunkRanges(cfg: Settings, w: World, ix: Index)
    requires Inv(cfg, w, ix) && Height(ix.chunks) < NOPOSN
    ensures var rs := RangesOf(ix.chunks);
      && CheckSequential.WellFormed(rs)
      && (forall i, j :: 0 <= i < j < |rs| ==> rs[i].EarlierThan(rs[j]))
  {
    HeightIsMax(ix.chunks);
    hide Exact, Height, Top, Total, SumBelow, SizeOk;
    forall i | 0 <= i < |ix.chunks| ensures ix.chunks[i].range.WellFormed() {
      ChunkIsOk(cfg, w, ix, i);
    }
  }
}
