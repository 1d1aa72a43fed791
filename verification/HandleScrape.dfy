// HandleScrape: the round loop. Each round plans a batch, runs the pipeline, consolidates, and cleans up.
module Scraper {
  import opened Ranges
  import opened StageFile
  import opened Index
  import opened Consolidation
  import opened Rounds
  import opened Wrappers
  import Pipeline
  import Timestamps
  import Batches
  import opened Common

  // uint64 arithmetic
  function Wrap(x: int): (n: nat)
    ensures n <= NOPOSN
    ensures 0 <= x <= NOPOSN ==> n == x
    ensures 0 <= x + NOPOSN && x < 0 ==> n == x + NOPOSN + 1
    ensures x == NOPOSN + 1 ==> n == 0
  {
    x % (NOPOSN + 1)
  }

  // The guards at the top of a round, and the blocks the round works on.
  method PlanBatch(next: nat, height: nat, unripeDist: nat, blockCnt: nat)
    returns (go: bool, ripeBlock: nat, blocks: seq<nat>)
    requires next <= NOPOSN && height <= NOPOSN && blockCnt <= NOPOSN
    ensures go <==> height >= unripeDist && next <= Wrap(height + 1) && blocks != []
    ensures go ==> ripeBlock == height - unripeDist
    ensures forall i :: 0 <= i < |blocks| ==> blocks[i] == next + i <= height
    ensures height >= unripeDist && next <= height < NOPOSN ==> |blocks| == Min(blockCnt, height + 1 - next)
    ensures next == height + 1 || height == NOPOSN ==> !go
  {
    go, ripeBlock, blocks := false, 0, [];
    if height < unripeDist {
      return;
    }
    if next > Wrap(height + 1) {
      return;
    }
    // height - start + 1 in uint64: at start = height + 1 it wraps twice, to zero
    var blockCount := Min(blockCnt, Wrap(Wrap(height - next) + 1));
    assert blockCount == if height == NOPOSN then 0 else Min(blockCnt, height + 1 - next);
    ripeBlock := height - unripeDist;
    var block, end := next, Wrap(next + blockCount);
    while block < end
      invariant next <= block <= end == next + blockCount
      invariant |blocks| == block - next
      invariant forall i :: 0 <= i < |blocks| ==> blocks[i] == next + i
    {
      blocks := blocks + [block];
      block := block + 1;
    }
    go := blocks != [];
  }

  // What one round meets. `seen` are the appearance lines of blocks that are not ripe yet.
  datatype RoundEnv = RoundEnv(
    cancelledAtStart: bool,
    metaFails: bool,
    height: nat,
    seen: nat -> seq<string>,
    scheduler: nat -> Pipeline.Action,
    cancelBlazeAt: Option<nat>,
    cancelledLate: bool,
    tsEnv: Timestamps.Env,
    env: Consolidation.Env,
    cancelledInPause: bool,
    unripeRemoveFails: bool)

  // The chain: the lines of the ripe file of each block, the same whenever the block is scraped.
  type RipeLines = nat -> seq<string>

  function WorldOf(ripeLines: RipeLines): World {
    (b: nat) => StageFile.Kept(ripeLines(b))
  }

  function LinesFor(ripeLines: RipeLines, e: RoundEnv, ripeBlock: int): nat -> seq<string> {
    (b: nat) => if b <= ripeBlock then ripeLines(b) else e.seen(b)
  }

  datatype Options = Options(blockCnt: nat, unripeDist: nat, runCount: nat, nChannels: nat, notify: bool)

  function BatchFor(opts: Options, ripeLines: RipeLines, e: RoundEnv, ripeBlock: nat,
                    blocks: seq<nat>): Pipeline.Batch {
    Pipeline.Batch(blocks, ripeBlock, LinesFor(ripeLines, e, ripeBlock), e.tsEnv.chain, opts.nChannels, opts.notify)
  }

  // How many blocks of the batch are ripe.
  function RipeCount(ripeBlock: nat, blocks: seq<nat>): (n: nat)
    ensures n <= |blocks|
  {
    if blocks == [] || ripeBlock < blocks[0] then 0 else Min(|blocks|, ripeBlock - blocks[0] + 1)
  }

  // Where the appearances of one block of an accepted batch are.
  lemma AcceptedBlock(opts: Options, ripeLines: RipeLines, e: RoundEnv, ripeBlock: nat, blocks: seq<nat>,
                      l: Pipeline.Log, i: nat)
    requires i < |blocks| && Timestamps.Consecutive(blocks)
    requires FoldersOf(BatchFor(opts, ripeLines, e, ripeBlock, blocks), l)
    ensures var n := RipeCount(ripeBlock, blocks);
      && (blocks[i] <= ripeBlock <==> i < n)
      && (i < n ==> blocks[i] !in l.unripe && Found(l.ripe, blocks[i]) == WorldOf(ripeLines)(blocks[i]))
      && (i >= n ==> blocks[i] !in l.ripe && (blocks[i] in l.unripe <==> e.seen(blocks[i]) != []))
  {
  }

  // The folders hold exactly the non-empty blocks, split at the ripe block (Pipeline.CleanRun).
  ghost predicate FoldersOf(batch: Pipeline.Batch, l: Pipeline.Log) {
    && (forall b :: b in l.ripe <==> b in batch.blocks && b <= batch.ripeBlock && batch.lines(b) != [])
    && (forall b :: b in l.unripe <==> b in batch.blocks && b > batch.ripeBlock && batch.lines(b) != [])
    && (forall b :: b in l.ripe ==> l.ripe[b] == batch.lines(b))
  }

  // An accepted batch gives a round each ripe block's appearances; which unripe blocks left a file.
  lemma AcceptedBatch(opts: Options, ripeLines: RipeLines, e: RoundEnv, ripeBlock: nat, blocks: seq<nat>,
                      s: Pipeline.Pipe)
    requires blocks != [] && Timestamps.Consecutive(blocks) && opts.nChannels >= 1
    requires var batch := BatchFor(opts, ripeLines, e, ripeBlock, blocks);
             Pipeline.Inv(batch, s) && Pipeline.Quiescent(s.hands) && s.log.errors == []
    ensures Batch(WorldOf(ripeLines), s.log.ripe, s.log.unripe.Keys, blocks, blocks[0], RipeCount(ripeBlock, blocks))
    ensures forall b :: b in blocks && b > ripeBlock ==> (b in s.log.unripe <==> e.seen(b) != [])
    ensures s.log.ripe.Keys <= Consumed(blocks, s.log.unripe.Keys)
    ensures s.log.nRipe > 0 <==> RipeCount(ripeBlock, blocks) > 0
  {
    hide Pipeline.Inv, Pipeline.Quiescent, StageFile.Kept, Found, WorldOf;
    var batch := BatchFor(opts, ripeLines, e, ripeBlock, blocks);
    Pipeline.CleanRun(batch, s);
    assert FoldersOf(batch, s.log);
    RipeBlocks(ripeBlock, blocks);
    hide FoldersOf;
    forall i | 0 <= i < |blocks|
      ensures var n := RipeCount(ripeBlock, blocks);
        && (i < n ==> blocks[i] !in s.log.unripe && Found(s.log.ripe, blocks[i]) == WorldOf(ripeLines)(blocks[i]))
        && (i >= n ==> blocks[i] !in s.log.ripe)
    {
      AcceptedBlock(opts, ripeLines, e, ripeBlock, blocks, s.log, i);
    }
  }

  lemma RipeBlocks(ripeBlock: nat, blocks: seq<nat>)
    requires blocks != [] && Timestamps.Consecutive(blocks)
    ensures |set b | b in blocks && b <= ripeBlock| > 0 <==> RipeCount(ripeBlock, blocks) > 0
  {
    var ripe := set b | b in blocks && b <= ripeBlock;
    if RipeCount(ripeBlock, blocks) > 0 {
      assert blocks[0] in ripe;
    } else {
      assert ripe == {};
    }
  }

  // ---- What a round does to the index ----

  // Nothing to do or nothing to consolidate; a round of `n` ripe blocks; an interrupted round that left
  // the index sound; one that cut a chunk beyond the ripe blocks, which did no harm; a damaged index.
  datatype Event = Idle | Completed(n: nat) | Stopped | Overran | Torn

  datatype Exit = Pause | Stop

  // No unripe block without appearances is a snap point, and nothing fails while the index is rewritten.
  ghost predicate Calm(cfg: Settings, opts: Options, ripeLines: RipeLines, e: RoundEnv) {
    && (forall b: nat :: e.height - opts.unripeDist < b <= e.height && e.seen(b) == [] ==> !cfg.snap(b))
    && (forall b: nat :: b <= e.height ==> Undisturbed(e.env, b))
    && var lines := LinesFor(ripeLines, e, e.height - opts.unripeDist);
    && (forall b: nat :: b <= e.height && lines(b) == [] ==> MayBeMissing(e.env, b))
    && cfg.perChunk <= e.env.interruptAtRecord
    && !e.env.stageWriteFails && !e.env.stageNotifyFails
  }

  // Nothing is cancelled, the node answers, and the stage can be backed up.
  ghost predicate Smooth(opts: Options, e: RoundEnv) {
    && !e.cancelledAtStart && !e.metaFails && e.height < UINT32
    && Batches.Smooth(e.scheduler, e.cancelBlazeAt, e.cancelledLate, e.tsEnv, opts.blockCnt)
    && !e.env.backupFails
  }

  // How many ripe blocks a round has before it.
  function Ahead(opts: Options, e: RoundEnv, top: nat): nat {
    Max(0, Min(opts.blockCnt, e.height - opts.unripeDist - top))
  }

  // Two stage files; or the old stage file beside a chunk that already contains it; or a chunk over an
  // unripe block that turns out to have appearances or is a snap point that was passed over.
  ghost predicate DamagedBy(cfg: Settings, opts: Options, ripeLines: RipeLines, e: RoundEnv,
                            before: Disc, fn: Option<FileRange>, after: Disc) {
    || |after.staging| > 1
    || (fn.Some? && fn.value in after.staging && after.finalized != before.finalized)
    || (exists b: nat :: e.height - opts.unripeDist < b <= Height(after.finalized)
          && (WorldOf(ripeLines)(b) != multiset{} || (cfg.snap(b) && e.seen(b) != [])))
  }

  // What each kind of damage takes.
  ghost predicate Faults(cfg: Settings, opts: Options, ripeLines: RipeLines, e: RoundEnv, after: Disc) {
    && !Calm(cfg, opts, ripeLines, e)
    && (|after.staging| > 1 ==> e.env.stageNotifyFails)
    && (Height(after.finalized) > e.height - opts.unripeDist ==>
          exists s: nat :: e.height - opts.unripeDist < s <= e.height && e.seen(s) == [] && cfg.snap(s))
  }

  // What one time around the loop does to the index. If all goes well it is a round over the ripe blocks ahead.
  ghost predicate Effect(cfg: Settings, opts: Options, ripeLines: RipeLines, e: RoundEnv, event: Event,
                         before: Disc, fn: Option<FileRange>, after: Disc, fn': Option<FileRange>)
    requires Sound(cfg, WorldOf(ripeLines), before, fn)
  {
    var top := Top(View(before, fn));
    var n := Ahead(opts, e, top);
    && (Calm(cfg, opts, ripeLines, e) && Smooth(opts, e) ==> event == if n > 0 then Completed(n) else Idle)
    && (event != Idle ==> (event.Torn? <==> DamagedBy(cfg, opts, ripeLines, e, before, fn, after)))
    && match event
       case Idle => after == before && fn' == fn
       case Completed(m) =>
         && m == n > 0
         && Sound(cfg, WorldOf(ripeLines), after, fn')
         && View(after, fn') == Round(cfg, WorldOf(ripeLines), View(before, fn), n)
       case Stopped =>
         && fn' == fn && Sound(cfg, WorldOf(ripeLines), after, fn) && top <= Top(View(after, fn))
         && after.staging == before.staging && (fn.Some? ==> after == before)
       case Overran =>
         && Sound(cfg, WorldOf(ripeLines), after, fn') && top <= Top(View(after, fn'))
         && Height(after.finalized) > e.height - opts.unripeDist && !Calm(cfg, opts, ripeLines, e)
       case Torn =>
         && Unsound(cfg, WorldOf(ripeLines), after)
         && Faults(cfg, opts, ripeLines, e, after)
  }

  lemma StageFound(cfg: Settings, w: World, d: Disc, fn: Option<FileRange>, latest: Option<FileRange>)
    requires Sound(cfg, w, d, fn)
    requires if d.staging == map[] then latest == None else latest.Some? && latest.value in d.staging
    ensures latest == fn && (fn.Some? ==> fn.value in d.staging)
  {
  }

  lemma StartOfRound(cfg: Settings, w: World, d: Disc, fn: Option<FileRange>, next: nat) returns (top: nat)
    requires Sound(cfg, w, d, fn)
    requires OneStage(d, fn) ==> next == Top(View(d, fn)) + 1
    ensures top == Top(View(d, fn)) && Wrap(next) == top + 1
  {
    top := Top(View(d, fn));
  }

  lemma IdleEffect(cfg: Settings, opts: Options, ripeLines: RipeLines, e: RoundEnv, d: Disc, fn: Option<FileRange>)
    requires Sound(cfg, WorldOf(ripeLines), d, fn) && Smooth(opts, e) ==> Ahead(opts, e, Top(View(d, fn))) == 0
    ensures Sound(cfg, WorldOf(ripeLines), d, fn) ==> Effect(cfg, opts, ripeLines, e, Idle, d, fn, d, fn)
  {
    hide Inv, StageOk, Top;
  }

  // Without faults a call is completed, unless it cannot back the stage up.
  lemma CalmSucceeds(cfg: Settings, w: World, ripe: map<nat, seq<string>>, unripe: set<nat>, env: Consolidation.Env,
                     blocks: seq<nat>, n: nat, before: Disc, fn: Option<FileRange>, after: Disc, outcome: Outcome)
    requires cfg.perChunk >= 1 && Recordable(w)
    requires Sound(cfg, w, before, fn) && (fn.Some? ==> fn.value in before.staging)
    requires blocks != [] && Batch(w, ripe, unripe, blocks, Top(View(before, fn)) + 1, n)
    requires forall b :: b in blocks ==> Undisturbed(env, b)
    requires forall b :: b in blocks && b !in unripe && b !in ripe ==> MayBeMissing(env, b)
    requires cfg.perChunk <= env.interruptAtRecord && !env.stageWriteFails && !env.stageNotifyFails
    requires Result(cfg, ripe, unripe, env, blocks, before, fn, after, outcome)
    ensures outcome == Success || (env.backupFails && after == before)
  {
    hide Inv, Batch, Recordable, Height, Process, Top, MaxBlock, Undisturbed, MayBeMissing, StageChanged, Start, Kept,
         Round,
         Exact, Overreach, StageOk;
    if !(fn.Some? && env.backupFails) {
      var acc, stop := ResultOfLoop(cfg, w, ripe, unripe, env, blocks, n, before, fn, after, outcome);
      CalmProcess(cfg, ripe, unripe, env, Start(before, fn, blocks[0]), blocks);
      RecordableIsFaithful(w);
      RoundKeepsInv(cfg, w, View(before, fn), n);
      StageIsSmall(cfg, w, Round(cfg, w, View(before, fn), n));
    }
  }

  // The damage that the loop can do, in terms of what the round meets.
  lemma DamageSeen(cfg: Settings, opts: Options, ripeLines: RipeLines, e: RoundEnv, ripeBlock: nat, blocks: seq<nat>,
                   unripe: set<nat>, n: nat, before: Disc, fn: Option<FileRange>, after: Disc, outcome: Outcome,
                   staged: bool, fn': Option<FileRange>)
    requires Sound(cfg, WorldOf(ripeLines), before, fn)
    requires blocks != [] && Timestamps.Consecutive(blocks) && blocks[0] == Top(View(before, fn)) + 1
    requires ripeBlock == e.height - opts.unripeDist && |blocks| == Min(opts.blockCnt, e.height + 1 - blocks[0])
    requires n == RipeCount(ripeBlock, blocks) > 0
    requires forall b :: b in blocks && b > ripeBlock ==> (b in unripe <==> e.seen(b) != [])
    requires staged ==> e.env.stageNotifyFails
    requires Judged(cfg, WorldOf(ripeLines), unripe, e.env, blocks, n, before, fn, after, outcome, staged, fn')
    ensures Damaged(cfg, WorldOf(ripeLines), unripe, Top(View(before, fn)) + n, before, fn, after) <==>
      DamagedBy(cfg, opts, ripeLines, e, before, fn, after)
    ensures |after.staging| > 1 ==> e.env.stageNotifyFails
    ensures Height(after.finalized) > Top(View(before, fn)) + n <==> Height(after.finalized) > ripeBlock
    ensures Height(after.finalized) > ripeBlock ==>
      exists s: nat :: ripeBlock < s <= e.height && e.seen(s) == [] && cfg.snap(s)
  {
    hide Inv, StageOk, Top, Height, WorldOf, Verdict, Round;
    var last := Top(View(before, fn)) + n;
    forall b | last < b <= Height(after.finalized) ensures b in blocks && b > ripeBlock {
      assert blocks[b - blocks[0]] == b;
    }
    assert last == ripeBlock || Height(after.finalized) <= last <= ripeBlock;
    if Height(after.finalized) > last {
      var s :| s in blocks && s > last && s !in unripe && cfg.snap(s);
      assert s <= e.height;
    }
  }

  lemma AfterConsolidate(cfg: Settings, opts: Options, ripeLines: RipeLines, e: RoundEnv, ripeBlock: nat,
                         blocks: seq<nat>,
                         s: Pipeline.Pipe, before: Disc, fn: Option<FileRange>, after: Disc, outcome: Outcome)
    returns (event: Event, fn': Option<FileRange>)
    requires cfg.perChunk >= 1 && opts.nChannels >= 1 && Recordable(WorldOf(ripeLines))
    requires Sound(cfg, WorldOf(ripeLines), before, fn) && (fn.Some? ==> fn.value in before.staging)
    requires blocks != [] && Timestamps.Consecutive(blocks) && blocks[0] == Top(View(before, fn)) + 1
    requires ripeBlock == e.height - opts.unripeDist && e.height < NOPOSN
    requires |blocks| == Min(opts.blockCnt, e.height + 1 - blocks[0])
    requires var batch := BatchFor(opts, ripeLines, e, ripeBlock, blocks);
             Pipeline.Inv(batch, s) && Pipeline.Quiescent(s.hands) && s.log.errors == []
    requires s.log.nRipe > 0
    requires Result(cfg, s.log.ripe, s.log.unripe.Keys, e.env, blocks, before, fn, after, outcome)
    ensures Effect(cfg, opts, ripeLines, e, event, before, fn, after, fn')
    ensures Calm(cfg, opts, ripeLines, e) && Smooth(opts, e) ==> outcome == Success
  {
    hide Pipeline.Inv, Pipeline.Quiescent, Batch, Result, Recordable, Sound, Calm, Top, Height, WorldOf, Damaged,
         DamagedBy, Judged, Effect, Batches.Smooth;
    var w, ripe, unripe := WorldOf(ripeLines), s.log.ripe, s.log.unripe.Keys;
    var n := RipeCount(ripeBlock, blocks);
    AcceptedBatch(opts, ripeLines, e, ripeBlock, blocks, s);
    fn' := SoundUnlessDamaged(cfg, w, ripe, unripe, e.env, blocks, n, before, fn, after, outcome);
    var staged := OnlyNotificationFailed(cfg, ripe, unripe, e.env, blocks, before, fn);
    DamageSeen(cfg, opts, ripeLines, e, ripeBlock, blocks, unripe, n, before, fn, after, outcome, staged, fn');
    if Calm(cfg, opts, ripeLines, e) {
      CalmCall(cfg, opts, ripeLines, e, ripeBlock, blocks, s, n, before, fn, after, outcome, staged, fn');
    }
    event :=
      if Damaged(cfg, w, unripe, Top(View(before, fn)) + n, before, fn, after) then Torn
      else if Height(after.finalized) > ripeBlock then Overran
      else if outcome == Success || (fn.None? && staged) then Completed(n)
      else Stopped;
    EffectOf(cfg, opts, ripeLines, e, unripe, blocks, n, before, fn, after, outcome, staged, fn', event);
  }

  lemma EffectOf(cfg: Settings, opts: Options, ripeLines: RipeLines, e: RoundEnv, unripe: set<nat>, blocks: seq<nat>,
                 n: nat, before: Disc, fn: Option<FileRange>, after: Disc, outcome: Outcome, staged: bool,
                 fn': Option<FileRange>, event: Event)
    requires Sound(cfg, WorldOf(ripeLines), before, fn) && n == Ahead(opts, e, Top(View(before, fn))) > 0
    requires var w, last, ripeBlock := WorldOf(ripeLines), Top(View(before, fn)) + n, e.height - opts.unripeDist;
      var height := Height(after.finalized);
      && Judged(cfg, w, unripe, e.env, blocks, n, before, fn, after, outcome, staged, fn')
      && (Damaged(cfg, w, unripe, last, before, fn, after) <==> DamagedBy(cfg, opts, ripeLines, e, before, fn, after))
      && (height > last <==> height > ripeBlock)
      && event == (if Damaged(cfg, w, unripe, last, before, fn, after) then Torn
                   else if height > ripeBlock then Overran
                   else if outcome == Success || (fn.None? && staged) then Completed(n)
                   else Stopped)
      && (Calm(cfg, opts, ripeLines, e) && Smooth(opts, e) ==> event == Completed(n))
      && (Torn == event || Overran == event ==> !Calm(cfg, opts, ripeLines, e))
      && (event == Torn ==> Faults(cfg, opts, ripeLines, e, after))
    ensures Effect(cfg, opts, ripeLines, e, event, before, fn, after, fn')
  {
    hide Sound, Calm, Smooth, Top, Height, WorldOf, Damaged, DamagedBy, Round, Faults, Unsound, Ahead;
  }

  lemma CalmCall(cfg: Settings, opts: Options, ripeLines: RipeLines, e: RoundEnv, ripeBlock: nat, blocks: seq<nat>,
                 s: Pipeline.Pipe, n: nat, before: Disc, fn: Option<FileRange>, after: Disc, outcome: Outcome,
                 staged: bool, fn': Option<FileRange>)
    requires cfg.perChunk >= 1 && opts.nChannels >= 1 && Recordable(WorldOf(ripeLines))
    requires Sound(cfg, WorldOf(ripeLines), before, fn) && (fn.Some? ==> fn.value in before.staging)
    requires blocks != [] && Timestamps.Consecutive(blocks) && blocks[0] == Top(View(before, fn)) + 1
    requires ripeBlock == e.height - opts.unripeDist && |blocks| == Min(opts.blockCnt, e.height + 1 - blocks[0])
    requires var batch := BatchFor(opts, ripeLines, e, ripeBlock, blocks);
             Pipeline.Inv(batch, s) && Pipeline.Quiescent(s.hands) && s.log.errors == []
    requires Batch(WorldOf(ripeLines), s.log.ripe, s.log.unripe.Keys, blocks, blocks[0], n)
    requires Result(cfg, s.log.ripe, s.log.unripe.Keys, e.env, blocks, before, fn, after, outcome)
    requires Judged(cfg, WorldOf(ripeLines), s.log.unripe.Keys, e.env, blocks, n, before, fn, after, outcome, staged,
                    fn')
    requires Height(after.finalized) > ripeBlock ==>
      exists s: nat :: ripeBlock < s <= e.height && e.seen(s) == [] && cfg.snap(s)
    requires Height(after.finalized) > Top(View(before, fn)) + n <==> Height(after.finalized) > ripeBlock
    requires Calm(cfg, opts, ripeLines, e)
    ensures outcome == Success || (e.env.backupFails && after == before)
    ensures !Damaged(cfg, WorldOf(ripeLines), s.log.unripe.Keys, Top(View(before, fn)) + n, before, fn, after)
    ensures Height(after.finalized) <= ripeBlock
  {
    hide Pipeline.Inv, Pipeline.Quiescent, Batch, Result, Recordable, Sound, Undisturbed, MayBeMissing, Top, Height,
         WorldOf,
         Overreach, Round;
    FilelessLines(opts, ripeLines, e, ripeBlock, blocks, s);
    CalmSucceeds(cfg, WorldOf(ripeLines), s.log.ripe, s.log.unripe.Keys, e.env, blocks, n, before, fn, after, outcome);
    NoOverreach(cfg, WorldOf(ripeLines), s.log.unripe.Keys, Top(View(before, fn)) + n, after.finalized);
  }

  lemma RipeAhead(opts: Options, ripeLines: RipeLines, e: RoundEnv, ripeBlock: nat, blocks: seq<nat>, s: Pipeline.Pipe)
    requires blocks != [] && Timestamps.Consecutive(blocks) && opts.nChannels >= 1
    requires var batch := BatchFor(opts, ripeLines, e, ripeBlock, blocks);
             Pipeline.Inv(batch, s) && Pipeline.Quiescent(s.hands) && s.log.errors == []
    ensures s.log.nRipe > 0 <==> blocks[0] <= ripeBlock
  {
    hide Pipeline.Inv, Pipeline.Quiescent;
    Pipeline.CleanRun(BatchFor(opts, ripeLines, e, ripeBlock, blocks), s);
    RipeBlocks(ripeBlock, blocks);
  }

  lemma ItConsolidates(cfg: Settings, log: Pipeline.Log, env: Consolidation.Env, blocks: seq<nat>, before: Disc,
                       latest: Option<FileRange>, after: Disc, outcome: Outcome)
    requires blocks != []
    requires if before.staging == map[] then latest == None else latest.Some? && latest.value in before.staging
    requires Result(cfg, log.ripe, log.unripe.Keys, env, blocks, before, latest, after, outcome)
    ensures Consolidates(cfg, log, env, blocks, before, after, outcome)
  {
    hide Result;
  }

  lemma NoneRipe(cfg: Settings, opts: Options, ripeLines: RipeLines, e: RoundEnv, ripeBlock: nat, blocks: seq<nat>,
                 s: Pipeline.Pipe, d: Disc, fn: Option<FileRange>)
    requires opts.nChannels >= 1 && blocks != [] && Timestamps.Consecutive(blocks)
    requires ripeBlock == e.height - opts.unripeDist
    requires var batch := BatchFor(opts, ripeLines, e, ripeBlock, blocks);
             Pipeline.Inv(batch, s) && Pipeline.Quiescent(s.hands) && s.log.errors == []
    requires s.log.nRipe == 0
    requires Sound(cfg, WorldOf(ripeLines), d, fn) ==> blocks[0] == Top(View(d, fn)) + 1
    ensures Sound(cfg, WorldOf(ripeLines), d, fn) ==> Effect(cfg, opts, ripeLines, e, Idle, d, fn, d, fn)
  {
    hide Pipeline.Inv, Pipeline.Quiescent, Effect, Sound, Top;
    Pipeline.CleanRun(BatchFor(opts, ripeLines, e, ripeBlock, blocks), s);
    RipeBlocks(ripeBlock, blocks);
    IdleEffect(cfg, opts, ripeLines, e, d, fn);
  }

  // A block of an accepted batch that left no file has no appearances.
  lemma FilelessLines(opts: Options, ripeLines: RipeLines, e: RoundEnv, ripeBlock: nat, blocks: seq<nat>,
                      s: Pipeline.Pipe)
    requires opts.nChannels >= 1 && blocks != [] && Timestamps.Consecutive(blocks)
    requires |blocks| == Min(opts.blockCnt, e.height + 1 - blocks[0])
    requires var batch := BatchFor(opts, ripeLines, e, ripeBlock, blocks);
             Pipeline.Inv(batch, s) && Pipeline.Quiescent(s.hands) && s.log.errors == []
    ensures forall b :: b in blocks ==> b <= e.height
    ensures forall b :: b in blocks && b !in s.log.unripe && b !in s.log.ripe ==>
      LinesFor(ripeLines, e, ripeBlock)(b) == []
  {
    hide Pipeline.Inv, Pipeline.Quiescent;
    Pipeline.CleanRun(BatchFor(opts, ripeLines, e, ripeBlock, blocks), s);
  }

  // ---- Runs ----

  function Sizes(events: seq<Event>): seq<nat> {
    if events == [] then []
    else
      var e := events[|events| - 1];
      Sizes(events[..|events| - 1]) + if e.Completed? then [e.n] else []
  }

  ghost predicate NoneTorn(events: seq<Event>) {
    forall i :: 0 <= i < |events| ==> !events[i].Torn?
  }

  ghost predicate Uninterrupted(events: seq<Event>) {
    forall i :: 0 <= i < |events| ==> events[i].Idle? || events[i].Completed?
  }

  ghost predicate AllCalm(cfg: Settings, opts: Options, ripeLines: RipeLines, envs: seq<RoundEnv>) {
    forall i :: 0 <= i < |envs| ==> Calm(cfg, opts, ripeLines, envs[i])
  }

  ghost predicate AllSmooth(opts: Options, envs: seq<RoundEnv>) {
    forall i :: 0 <= i < |envs| ==> Smooth(opts, envs[i])
  }

  ghost function Advanced(cfg: Settings, w: World, opts: Options, ix: Index, e: RoundEnv): Index {
    var n := Ahead(opts, e, Top(ix));
    if n > 0 then Round(cfg, w, ix, n) else ix
  }

  // The index that a run should lead to.
  ghost function Scraped(cfg: Settings, w: World, opts: Options, ix: Index, envs: seq<RoundEnv>): Index {
    if envs == [] then ix
    else Advanced(cfg, w, opts, Scraped(cfg, w, opts, ix, envs[..|envs| - 1]), envs[|envs| - 1])
  }

  lemma AdvancesToTip(cfg: Settings, w: World, opts: Options, ix: Index, e: RoundEnv, tip: nat)
    requires cfg.perChunk >= 1 && Faithful(w) && Inv(cfg, w, ix) && Top(ix) <= tip
    requires forall b: nat :: b <= tip ==> w(b) != multiset{}
    requires e.height - opts.unripeDist == tip
    ensures Inv(cfg, w, Advanced(cfg, w, opts, ix, e))
    ensures Top(Advanced(cfg, w, opts, ix, e)) == Min(tip, Top(ix) + opts.blockCnt)
  {
    hide Inv, Top, Round;
    var n := Ahead(opts, e, Top(ix));
    if n > 0 {
      BusyRound(cfg, w, ix, n);
      RoundKeepsInv(cfg, w, ix, n);
    }
  }

  lemma MinTwice(tip: nat, top: nat, c: nat, k: nat)
    requires top <= tip
    ensures Min(tip, Min(tip, top + k * c) + c) == Min(tip, top + (k + 1) * c)
  {
    assert (k + 1) * c == k * c + c;
  }

  // While the tip of the chain stands still and every block has appearances, a run in which all goes
  // well takes a full batch a round until it has reached the last ripe block, and stays there.
  lemma {:induction false} ReachesTip(cfg: Settings, w: World, opts: Options, ix: Index, envs: seq<RoundEnv>, tip: nat)
    requires cfg.perChunk >= 1 && Faithful(w) && Inv(cfg, w, ix) && Top(ix) <= tip
    requires forall b: nat :: b <= tip ==> w(b) != multiset{}
    requires Standing(opts, envs, tip)
    ensures Inv(cfg, w, Scraped(cfg, w, opts, ix, envs))
    ensures Top(Scraped(cfg, w, opts, ix, envs)) == Min(tip, Top(ix) + |envs| * opts.blockCnt)
  {
    hide Inv, Top, Advanced, Faithful;
    if envs != [] {
      var k := |envs| - 1;
      ReachesTip(cfg, w, opts, ix, envs[..k], tip);
      AdvancesToTip(cfg, w, opts, Scraped(cfg, w, opts, ix, envs[..k]), envs[k], tip);
      MinTwice(tip, Top(ix), opts.blockCnt, k);
    }
  }

  lemma AdvancedStops(cfg: Settings, w: World, opts: Options, ix: Index, e: RoundEnv, tip: nat)
    requires cfg.perChunk >= 1 && Faithful(w) && Inv(cfg, w, ix) && Top(ix) <= tip && e.height - opts.unripeDist == tip
    ensures Inv(cfg, w, Advanced(cfg, w, opts, ix, e))
    ensures var top, limit := Top(Advanced(cfg, w, opts, ix, e)), Min(tip, Top(ix) + opts.blockCnt);
      && Top(ix) <= top <= limit
      && (top != Top(ix) ==> Busy(cfg, w, top))
      && (forall b :: Top(ix) < b <= limit && Busy(cfg, w, b) ==> b <= top)
  {
    hide Inv, Top, Round, Busy;
    RoundKeepsInv(cfg, w, ix, Ahead(opts, e, Top(ix)));
    RoundStops(cfg, w, ix, Ahead(opts, e, Top(ix)));
  }

  ghost predicate BusyWithin(cfg: Settings, w: World, a: nat, cnt: nat) {
    exists b :: a < b <= a + cnt && Busy(cfg, w, b)
  }

  // Between `from` and `to` a batch never finds idle blocks only.
  ghost predicate NoIdleBatch(cfg: Settings, w: World, cnt: nat, from: nat, to: nat) {
    forall a :: from <= a < to ==> BusyWithin(cfg, w, a, cnt)
  }

  ghost predicate Standing(opts: Options, envs: seq<RoundEnv>, tip: nat) {
    forall i :: 0 <= i < |envs| ==> envs[i].height - opts.unripeDist == tip
  }

  // `last` is the last busy block up to the tip.
  ghost predicate LastBusy(cfg: Settings, w: World, top: nat, last: nat, tip: nat) {
    top <= last <= tip && (last == top || Busy(cfg, w, last)) && forall b :: last < b <= tip ==> !Busy(cfg, w, b)
  }

  lemma {:induction false} MovesOn(cfg: Settings, w: World, opts: Options, ix: Index, envs: seq<RoundEnv>, last: nat,
                                   tip: nat)
    requires cfg.perChunk >= 1 && Faithful(w) && Inv(cfg, w, ix) && Standing(opts, envs, tip)
    requires LastBusy(cfg, w, Top(ix), last, tip)
    ensures var scraped := Scraped(cfg, w, opts, ix, envs);
      && Inv(cfg, w, scraped) && Top(ix) <= Top(scraped) <= last
      && (NoIdleBatch(cfg, w, opts.blockCnt, Top(ix), last) ==> Top(scraped) >= Min(last, Top(ix) + |envs|))
  {
    hide Inv, Top, Advanced, Faithful, Busy;
    if envs != [] {
      var k := |envs| - 1;
      var before := Scraped(cfg, w, opts, ix, envs[..k]);
      MovesOn(cfg, w, opts, ix, envs[..k], last, tip);
      AdvancedStops(cfg, w, opts, before, envs[k], tip);
      if NoIdleBatch(cfg, w, opts.blockCnt, Top(ix), last) && Top(before) < last {
        assert BusyWithin(cfg, w, Top(before), opts.blockCnt);
        var b :| Top(before) < b <= Top(before) + opts.blockCnt && Busy(cfg, w, b);
        assert b <= last || last <= Top(before) + opts.blockCnt;
      }
    }
  }

  lemma {:induction false} StaysStuck(cfg: Settings, w: World, opts: Options, ix: Index, envs: seq<RoundEnv>, a: nat,
                                      tip: nat)
    requires cfg.perChunk >= 1 && Faithful(w) && Inv(cfg, w, ix) && Standing(opts, envs, tip)
    requires Top(ix) <= a <= tip && !BusyWithin(cfg, w, a, opts.blockCnt)
    ensures Inv(cfg, w, Scraped(cfg, w, opts, ix, envs)) && Top(Scraped(cfg, w, opts, ix, envs)) <= a
  {
    hide Inv, Top, Advanced, Faithful, Busy;
    if envs != [] {
      var k := |envs| - 1;
      StaysStuck(cfg, w, opts, ix, envs[..k], a, tip);
      AdvancedStops(cfg, w, opts, Scraped(cfg, w, opts, ix, envs[..k]), envs[k], tip);
    }
  }

  // On any chain whose tip stands still, enough rounds in which all goes well reach the last busy ripe
  // block if and only if no full batch on the way there consists of idle blocks.
  lemma ReachesLastBusy(cfg: Settings, w: World, opts: Options, ix: Index, envs: seq<RoundEnv>, last: nat, tip: nat)
    requires cfg.perChunk >= 1 && Faithful(w) && Inv(cfg, w, ix) && Standing(opts, envs, tip)
    requires LastBusy(cfg, w, Top(ix), last, tip) && |envs| >= last - Top(ix)
    ensures Top(Scraped(cfg, w, opts, ix, envs)) == last <==> NoIdleBatch(cfg, w, opts.blockCnt, Top(ix), last)
  {
    hide Inv, Top, Advanced, Faithful, Busy, Scraped;
    MovesOn(cfg, w, opts, ix, envs, last, tip);
    if !NoIdleBatch(cfg, w, opts.blockCnt, Top(ix), last) {
      var a :| Top(ix) <= a < last && !BusyWithin(cfg, w, a, opts.blockCnt);
      StaysStuck(cfg, w, opts, ix, envs, a, tip);
    }
  }

  // From a sound index a run leads to a sound index that is not behind, unless a round tore it, which
  // takes a fault; a run without interrupted rounds is the run of its completed rounds.
  ghost predicate RunOk(cfg: Settings, opts: Options, ripeLines: RipeLines, envs: seq<RoundEnv>, events: seq<Event>,
                        before: Disc, fn: Option<FileRange>, after: Disc, fn': Option<FileRange>) {
    && |events| == |envs|
    && var w := WorldOf(ripeLines);
       Sound(cfg, w, before, fn) ==>
         && (AllCalm(cfg, opts, ripeLines, envs) ==> NoneTorn(events))
         && (NoneTorn(events) ==> Sound(cfg, w, after, fn') && Top(View(before, fn)) <= Top(View(after, fn')))
         && (Uninterrupted(events) ==>
               View(after, fn') == AfterRounds(cfg, w, View(before, fn), Sizes(events)))
  }

  // If all goes well every round takes the ripe blocks ahead.
  ghost predicate AsPlanned(cfg: Settings, opts: Options, ripeLines: RipeLines, envs: seq<RoundEnv>,
                            before: Disc, fn: Option<FileRange>, after: Disc, fn': Option<FileRange>) {
    var w := WorldOf(ripeLines);
    Sound(cfg, w, before, fn) && AllCalm(cfg, opts, ripeLines, envs) && AllSmooth(opts, envs) ==>
      Sound(cfg, w, after, fn') && View(after, fn') == Scraped(cfg, w, opts, View(before, fn), envs)
  }

  lemma OneMorePlanned(cfg: Settings, opts: Options, ripeLines: RipeLines, envs: seq<RoundEnv>,
                       before: Disc, fn: Option<FileRange>, mid: Disc, fn1: Option<FileRange>,
                       e: RoundEnv, event: Event, after: Disc, fn2: Option<FileRange>)
    requires cfg.perChunk >= 1 && Recordable(WorldOf(ripeLines))
    requires AsPlanned(cfg, opts, ripeLines, envs, before, fn, mid, fn1)
    requires Sound(cfg, WorldOf(ripeLines), mid, fn1) ==> Effect(cfg, opts, ripeLines, e, event, mid, fn1, after, fn2)
    ensures AsPlanned(cfg, opts, ripeLines, envs + [e], before, fn, after, fn2)
  {
    hide Recordable, Calm, Smooth, Ahead, Top, Round, Inv, StageOk;
    var all := envs + [e];
    if Sound(cfg, WorldOf(ripeLines), before, fn) && AllCalm(cfg, opts, ripeLines, all) && AllSmooth(opts, all) {
      assert (envs + [e])[|envs|] == e && (envs + [e])[..|envs|] == envs;
      assert forall i :: 0 <= i < |envs| ==> (envs + [e])[i] == envs[i];
    }
  }

  // ---- How a round ends ----

  // The blocks a round worked on, the steps its workers took, and where it ended.
  datatype Ending =
    | CancelledAtStart
    | NoMeta
    | NothingToDo
    | Lost(blocks: seq<nat>, acts: seq<Pipeline.Action>, cancelled: bool)
    | NoneToConsolidate(blocks: seq<nat>, acts: seq<Pipeline.Action>)
    | Consolidated(blocks: seq<nat>, acts: seq<Pipeline.Action>, outcome: Outcome)

  // The blocks that a round works on: from the one after the index, up to the count or the chain height.
  ghost predicate Planned(cfg: Settings, opts: Options, ripeLines: RipeLines, e: RoundEnv, before: Disc,
                          fn: Option<FileRange>, blocks: seq<nat>) {
    && !e.cancelledAtStart && !e.metaFails && opts.unripeDist <= e.height
    && blocks != [] && Timestamps.Consecutive(blocks)
    && (Sound(cfg, WorldOf(ripeLines), before, fn) ==> blocks[0] == Top(View(before, fn)) + 1)
    && |blocks| == Min(opts.blockCnt, e.height + 1 - blocks[0])
  }

  // A run of the workers over these blocks, which goes no further than a cancellation.
  ghost predicate Worked(cfg: Settings, opts: Options, ripeLines: RipeLines, e: RoundEnv, before: Disc,
                         fn: Option<FileRange>, blocks: seq<nat>, acts: seq<Pipeline.Action>) {
    && Planned(cfg, opts, ripeLines, e, before, fn, blocks)
    && var batch := BatchFor(opts, ripeLines, e, e.height - opts.unripeDist, blocks);
    && Pipeline.ValidRun(batch, Pipeline.Initial(batch), acts)
    && Pipeline.AsProposed(batch, Pipeline.Initial(batch), acts, e.scheduler, 0)
    && (e.cancelBlazeAt.Some? ==> |acts| <= e.cancelBlazeAt.value)
  }

  ghost predicate NoneFaulty(acts: seq<Pipeline.Action>) {
    forall k :: 0 <= k < |acts| ==> !Pipeline.Faulty(acts[k])
  }

  // The user cancels before the batch is done.
  ghost predicate BatchCancelled(opts: Options, ripeLines: RipeLines, e: RoundEnv, stamps: nat, blocks: seq<nat>,
                                 acts: seq<Pipeline.Action>)
    requires opts.unripeDist <= e.height && blocks != []
    requires var batch := BatchFor(opts, ripeLines, e, e.height - opts.unripeDist, blocks);
             Pipeline.ValidRun(batch, Pipeline.Initial(batch), acts)
  {
    var batch := BatchFor(opts, ripeLines, e, e.height - opts.unripeDist, blocks);
    || Batches.CutShort(batch, e.cancelBlazeAt, acts)
    || (NoneFaulty(acts) && Batches.CancelledLater(batch, e.cancelledLate, e.tsEnv, stamps))
  }

  function StampsAfter(opts: Options, ripeLines: RipeLines, e: RoundEnv, stamps: nat, blocks: seq<nat>): nat
    requires opts.unripeDist <= e.height && blocks != []
  {
    Batches.GrownBy(BatchFor(opts, ripeLines, e, e.height - opts.unripeDist, blocks), e.tsEnv, stamps)
  }

  ghost predicate StampsFault(opts: Options, ripeLines: RipeLines, e: RoundEnv, blocks: seq<nat>)
    requires opts.unripeDist <= e.height
  {
    Batches.TimestampsFault(e.tsEnv, BatchFor(opts, ripeLines, e, e.height - opts.unripeDist, blocks))
  }

  // The call of Consolidate, on the folders that the workers have left.
  ghost predicate Consolidates(cfg: Settings, log: Pipeline.Log, env: Consolidation.Env, blocks: seq<nat>,
                               before: Disc, after: Disc, outcome: Outcome) {
    && blocks != []
    && exists latest: Option<FileRange> ::
         && (latest.Some? ==> latest.value in before.staging)
         && (before.staging == map[] <==> latest == None)
         && Result(cfg, log.ripe, log.unripe.Keys, env, blocks, before, latest, after, outcome)
  }

  // `stamps` and `stamps'` are the lengths of the timestamp file.
  ghost predicate Ends(cfg: Settings, opts: Options, ripeLines: RipeLines, e: RoundEnv, stamps: nat, stamps': nat,
                       before: Disc, fn: Option<FileRange>, after: Disc, ending: Ending) {
    match ending
    case CancelledAtStart => e.cancelledAtStart && after == before && stamps' == stamps
    case NoMeta => !e.cancelledAtStart && e.metaFails && after == before && stamps' == stamps
    case NothingToDo =>
      && !e.cancelledAtStart && !e.metaFails && after == before && stamps' == stamps
      && (Sound(cfg, WorldOf(ripeLines), before, fn) && e.height < NOPOSN ==>
            e.height < opts.unripeDist || e.height <= Top(View(before, fn)) || opts.blockCnt == 0)
    case Lost(blocks, acts, cancelled) =>
      && Worked(cfg, opts, ripeLines, e, before, fn, blocks, acts) && after == before
      && (cancelled <==> BatchCancelled(opts, ripeLines, e, stamps, blocks, acts))
      && (NoneFaulty(acts) && !cancelled ==> StampsFault(opts, ripeLines, e, blocks))
    case NoneToConsolidate(blocks, acts) =>
      && Worked(cfg, opts, ripeLines, e, before, fn, blocks, acts) && after == before
      && NoneFaulty(acts) && !BatchCancelled(opts, ripeLines, e, stamps, blocks, acts)
      && blocks[0] > e.height - opts.unripeDist && stamps' == StampsAfter(opts, ripeLines, e, stamps, blocks)
    case Consolidated(blocks, acts, outcome) =>
      && Worked(cfg, opts, ripeLines, e, before, fn, blocks, acts)
      && NoneFaulty(acts) && !BatchCancelled(opts, ripeLines, e, stamps, blocks, acts)
      && blocks[0] <= e.height - opts.unripeDist && stamps' == StampsAfter(opts, ripeLines, e, stamps, blocks)
      && var batch := BatchFor(opts, ripeLines, e, e.height - opts.unripeDist, blocks);
         var log := Pipeline.Run(batch, Pipeline.Initial(batch), acts).log;
         Consolidates(cfg, log, e.env, blocks, before, after, outcome)
  }

  lemma EndsEarly(cfg: Settings, opts: Options, ripeLines: RipeLines, e: RoundEnv, stamps: nat, d: Disc,
                  fn: Option<FileRange>, ending: Ending)
    requires match ending
      case CancelledAtStart => e.cancelledAtStart
      case NoMeta => !e.cancelledAtStart && e.metaFails
      case NothingToDo =>
        && !e.cancelledAtStart && !e.metaFails
        && (Sound(cfg, WorldOf(ripeLines), d, fn) && e.height < NOPOSN ==>
              e.height < opts.unripeDist || e.height <= Top(View(d, fn)) || opts.blockCnt == 0)
      case _ => false
    ensures Ends(cfg, opts, ripeLines, e, stamps, stamps, d, fn, d, ending)
    ensures Quits(ending) <==> ending == CancelledAtStart
  {
    hide Sound, Top;
  }

  // From what ScrapeBatch says of a batch to how the round ends, or that the batch is accepted.
  lemma BatchEnds(cfg: Settings, opts: Options, ripeLines: RipeLines, e: RoundEnv, stamps: nat, stamps': nat, d: Disc,
                  fn: Option<FileRange>, blocks: seq<nat>, acts: seq<Pipeline.Action>, outcome: Batches.BatchOutcome,
                  cancelled: bool)
    requires Worked(cfg, opts, ripeLines, e, d, fn, blocks, acts)
    requires var batch := BatchFor(opts, ripeLines, e, e.height - opts.unripeDist, blocks);
      && (cancelled <==>
            || Batches.CutShort(batch, e.cancelBlazeAt, acts)
            || (outcome != Batches.Rejected && Batches.CancelledLater(batch, e.cancelledLate, e.tsEnv, stamps)))
      && (outcome == Batches.Rejected <==> exists k :: 0 <= k < |acts| && Pipeline.Faulty(acts[k]))
      && (outcome == Batches.Interrupted ==> cancelled)
      && (outcome == Batches.TimestampsFailed ==> Batches.TimestampsFault(e.tsEnv, batch))
      && (outcome == Batches.Accepted ==> stamps' == Batches.GrownBy(batch, e.tsEnv, stamps))
    ensures outcome != Batches.Accepted || cancelled ==>
      Ends(cfg, opts, ripeLines, e, stamps, stamps', d, fn, d, Lost(blocks, acts, cancelled))
    ensures outcome == Batches.Accepted && !cancelled ==>
      && NoneFaulty(acts) && !BatchCancelled(opts, ripeLines, e, stamps, blocks, acts)
      && stamps' == StampsAfter(opts, ripeLines, e, stamps, blocks)
  {
    hide Sound, Top, BatchFor, Batches.GrownBy, Pipeline.ValidRun, Pipeline.AsProposed, Pipeline.Faulty,
         Batches.CutShort, Batches.CancelledLater, Batches.TimestampsFault;
  }

  lemma EndsAccepted(cfg: Settings, opts: Options, ripeLines: RipeLines, e: RoundEnv, stamps: nat, stamps': nat,
                     before: Disc, fn: Option<FileRange>, after: Disc, blocks: seq<nat>, acts: seq<Pipeline.Action>,
                     called: Option<Outcome>)
    requires Worked(cfg, opts, ripeLines, e, before, fn, blocks, acts)
    requires NoneFaulty(acts) && !BatchCancelled(opts, ripeLines, e, stamps, blocks, acts)
    requires stamps' == StampsAfter(opts, ripeLines, e, stamps, blocks)
    requires called.None? <==> blocks[0] > e.height - opts.unripeDist
    requires called.None? ==> after == before
    requires var batch := BatchFor(opts, ripeLines, e, e.height - opts.unripeDist, blocks);
      var log := Pipeline.Run(batch, Pipeline.Initial(batch), acts).log;
      called.Some? ==> Consolidates(cfg, log, e.env, blocks, before, after, called.value)
    ensures var ending := if called.None? then NoneToConsolidate(blocks, acts)
                          else Consolidated(blocks, acts, called.value);
      && Ends(cfg, opts, ripeLines, e, stamps, stamps', before, fn, after, ending)
      && (Quits(ending) <==> called == Some(Cancelled) || called == Some(Critical))
  {
    hide Worked, Consolidates, NoneFaulty, BatchCancelled, StampsAfter;
  }

  // Only a cancellation or a chunk that cannot be written ends the loop; every other error ends the round.
  ghost predicate Quits(ending: Ending) {
    match ending
    case CancelledAtStart => true
    case Lost(_, _, cancelled) => cancelled
    case Consolidated(_, _, outcome) => outcome == Cancelled || outcome == Critical
    case _ => false
  }

  lemma LostQuits(blocks: seq<nat>, acts: seq<Pipeline.Action>, cancelled: bool)
    ensures Quits(Lost(blocks, acts, cancelled)) <==> cancelled
  {
  }

  // So do a cancellation in the pause and an unripe folder that cannot be removed.
  ghost predicate Final(e: RoundEnv, ending: Ending) {
    Quits(ending) || e.cancelledInPause || e.unripeRemoveFails
  }

  // What it takes to end the loop in a round: a cancellation somewhere, or a chunk that cannot be written.
  lemma QuitsOnCause(cfg: Settings, opts: Options, ripeLines: RipeLines, e: RoundEnv, stamps: nat, stamps': nat,
                     before: Disc, fn: Option<FileRange>, after: Disc, ending: Ending)
    requires cfg.perChunk >= 1 && Sound(cfg, WorldOf(ripeLines), before, fn)
    requires Ends(cfg, opts, ripeLines, e, stamps, stamps', before, fn, after, ending) && Quits(ending)
    ensures
      || e.cancelledAtStart || e.cancelBlazeAt.Some? || e.cancelledLate || e.tsEnv.cancelAt < e.tsEnv.MaxBlocks()
      || (exists b :: b <= e.height && b in e.env.interruptBefore) || e.env.interruptAtRecord < cfg.perChunk
      || (exists b :: b <= e.height && b in e.env.chunkWriteFails)
  {
    hide Pipeline.ValidRun, Pipeline.AsProposed, Pipeline.Run, Pipeline.Initial, BatchFor, Top, Result, Exact, Height,
         WorldOf;
    if ending.Consolidated? {
      var batch := BatchFor(opts, ripeLines, e, e.height - opts.unripeDist, ending.blocks);
      var log := Pipeline.Run(batch, Pipeline.Initial(batch), ending.acts).log;
      var latest: Option<FileRange> :|
        && (latest.Some? ==> latest.value in before.staging)
        && (before.staging == map[] <==> latest == None)
        && Result(cfg, log.ripe, log.unripe.Keys, e.env, ending.blocks, before, latest, after, ending.outcome);
      StageFound(cfg, WorldOf(ripeLines), before, fn, latest);
      StageIsSmall(cfg, WorldOf(ripeLines), View(before, fn));
      CallCause(cfg, log.ripe, log.unripe.Keys, e.env, ending.blocks, before, fn, after, ending.outcome);
      assert forall b :: b in ending.blocks ==> b <= e.height;
    }
  }

  // The index and the timestamp file before the first and after every time around.
  datatype State = State(disc: Disc, fn: Option<FileRange>, stamps: nat)

  ghost predicate Course(cfg: Settings, opts: Options, ripeLines: RipeLines, envs: seq<RoundEnv>,
                         endings: seq<Ending>, states: seq<State>) {
    && |endings| == |envs| && |states| == |endings| + 1
    && forall i :: 0 <= i < |endings| ==>
         Ends(cfg, opts, ripeLines, envs[i], states[i].stamps, states[i + 1].stamps, states[i].disc, states[i].fn,
              states[i + 1].disc, endings[i])
  }

  // Every record written in round `i` says when the chain that this round met made its block.
  ghost predicate Stamps(envs: seq<RoundEnv>, states: seq<State>, records: seq<Timestamps.Record32>) {
    && |states| == |envs| + 1 && states[|envs|].stamps == |records|
    && forall i :: 0 <= i < |envs| ==> StampsOf(envs[i].tsEnv.chain, records, states[i].stamps, states[i + 1].stamps)
  }

  ghost predicate StampsOf(chain: nat -> nat, records: seq<Timestamps.Record32>, m: nat, n: nat) {
    m <= n <= |records| && forall b :: m <= b < n ==> Timestamps.Tells(records[b], b, chain)
  }

  lemma OneMoreStamps(envs: seq<RoundEnv>, states: seq<State>, records: seq<Timestamps.Record32>, e: RoundEnv, s: State,
                      more: seq<Timestamps.Record32>)
    requires Stamps(envs, states, records) && records <= more && s.stamps == |more|
    requires StampsOf(e.tsEnv.chain, more, |records|, |more|)
    ensures Stamps(envs + [e], states + [s], more)
  {
    forall i | 0 <= i < |envs| ensures StampsOf(envs[i].tsEnv.chain, more, states[i].stamps, states[i + 1].stamps) {
      assert StampsOf(envs[i].tsEnv.chain, records, states[i].stamps, states[i + 1].stamps);
    }
    hide StampsOf;
  }

  lemma OneMoreEnding(cfg: Settings, opts: Options, ripeLines: RipeLines, envs: seq<RoundEnv>, endings: seq<Ending>,
                      states: seq<State>, e: RoundEnv, ending: Ending, s': State)
    requires Course(cfg, opts, ripeLines, envs, endings, states)
    requires var s := states[|endings|];
      Ends(cfg, opts, ripeLines, e, s.stamps, s'.stamps, s.disc, s.fn, s'.disc, ending)
    ensures Course(cfg, opts, ripeLines, envs + [e], endings + [ending], states + [s'])
  {
    hide Ends;
  }

  ghost predicate Trace(cfg: Settings, opts: Options, ripeLines: RipeLines, envs: seq<RoundEnv>, events: seq<Event>,
                        states: seq<State>) {
    && |events| == |envs| && |states| == |events| + 1
    && forall i :: 0 <= i < |events| ==> Turn(cfg, opts, ripeLines, envs[i], events[i], states[i], states[i + 1])
  }

  ghost predicate Turn(cfg: Settings, opts: Options, ripeLines: RipeLines, e: RoundEnv, event: Event, s: State,
                       s': State) {
    Sound(cfg, WorldOf(ripeLines), s.disc, s.fn) ==>
      Effect(cfg, opts, ripeLines, e, event, s.disc, s.fn, s'.disc, s'.fn)
  }

  lemma {:induction false} SoundWhileUntorn(cfg: Settings, opts: Options, ripeLines: RipeLines, envs: seq<RoundEnv>,
                                            events: seq<Event>, states: seq<State>, k: nat)
    requires cfg.perChunk >= 1 && Recordable(WorldOf(ripeLines)) && Trace(cfg, opts, ripeLines, envs, events, states)
    requires Sound(cfg, WorldOf(ripeLines), states[0].disc, states[0].fn)
    requires k <= |events| && forall i :: 0 <= i < k ==> !events[i].Torn?
    ensures Sound(cfg, WorldOf(ripeLines), states[k].disc, states[k].fn)
  {
    hide Sound, Effect, Recordable, WorldOf;
    if k > 0 {
      SoundWhileUntorn(cfg, opts, ripeLines, envs, events, states, k - 1);
      assert Turn(cfg, opts, ripeLines, envs[k - 1], events[k - 1], states[k - 1], states[k]);
      EffectKeeps(cfg, opts, ripeLines, envs[k - 1], events[k - 1], states[k - 1].disc, states[k - 1].fn,
                  states[k].disc, states[k].fn);
    }
  }

  // A run keeps the index sound exactly as long as no round tears it. The first round that does leaves
  // one of three kinds of damage, which takes a fault.
  lemma FirstTorn(cfg: Settings, opts: Options, ripeLines: RipeLines, envs: seq<RoundEnv>,
                  events: seq<Event>, states: seq<State>, k: nat)
    requires cfg.perChunk >= 1 && Recordable(WorldOf(ripeLines)) && Trace(cfg, opts, ripeLines, envs, events, states)
    requires Sound(cfg, WorldOf(ripeLines), states[0].disc, states[0].fn)
    requires k < |events| && forall i :: 0 <= i < k ==> !events[i].Torn?
    ensures events[k].Torn? <==> Unsound(cfg, WorldOf(ripeLines), states[k + 1].disc)
    ensures events[k].Torn? <==>
      events[k] != Idle && DamagedBy(cfg, opts, ripeLines, envs[k], states[k].disc, states[k].fn, states[k + 1].disc)
    ensures events[k].Torn? ==> Faults(cfg, opts, ripeLines, envs[k], states[k + 1].disc)
  {
    hide Sound, Recordable, WorldOf, DamagedBy, Faults, Calm, Smooth, Top, Round;
    SoundWhileUntorn(cfg, opts, ripeLines, envs, events, states, k);
    assert Turn(cfg, opts, ripeLines, envs[k], events[k], states[k], states[k + 1]);
    if !events[k].Torn? {
      EffectKeeps(cfg, opts, ripeLines, envs[k], events[k], states[k].disc, states[k].fn, states[k + 1].disc,
                  states[k + 1].fn);
    }
  }

  lemma {:induction false} RoundsAppend(cfg: Settings, w: World, ix: Index, ns: seq<nat>, n: nat)
    ensures AfterRounds(cfg, w, ix, ns + [n]) == Round(cfg, w, AfterRounds(cfg, w, ix, ns), n)
    decreases |ns|
  {
    hide Round;
    if |ns| == 0 {
      assert (ns + [n])[1..] == ns;
    } else {
      assert (ns + [n])[1..] == ns[1..] + [n];
      RoundsAppend(cfg, w, Round(cfg, w, ix, ns[0]), ns[1..], n);
    }
  }

  lemma EffectKeeps(cfg: Settings, opts: Options, ripeLines: RipeLines, e: RoundEnv, event: Event,
                    before: Disc, fn: Option<FileRange>, after: Disc, fn': Option<FileRange>)
    requires cfg.perChunk >= 1 && Recordable(WorldOf(ripeLines)) && Sound(cfg, WorldOf(ripeLines), before, fn)
    requires Effect(cfg, opts, ripeLines, e, event, before, fn, after, fn')
    ensures event.Torn? ==> !Calm(cfg, opts, ripeLines, e)
    ensures !event.Torn? ==>
      Sound(cfg, WorldOf(ripeLines), after, fn') && Top(View(before, fn)) <= Top(View(after, fn'))
    ensures event.Idle? ==> after == before && fn' == fn
    ensures event.Completed? ==> View(after, fn') == Round(cfg, WorldOf(ripeLines), View(before, fn), event.n)
  {
    hide Inv, Recordable, Calm, Top, Round, StageOk;
    if event.Completed? {
      RecordableIsFaithful(WorldOf(ripeLines));
      RoundProgress(cfg, WorldOf(ripeLines), View(before, fn), event.n);
    }
  }

  lemma OneMoreRound(cfg: Settings, opts: Options, ripeLines: RipeLines, envs: seq<RoundEnv>, events: seq<Event>,
                     before: Disc, fn: Option<FileRange>, mid: Disc, fn1: Option<FileRange>,
                     e: RoundEnv, event: Event, after: Disc, fn2: Option<FileRange>)
    requires cfg.perChunk >= 1 && Recordable(WorldOf(ripeLines))
    requires RunOk(cfg, opts, ripeLines, envs, events, before, fn, mid, fn1)
    requires Sound(cfg, WorldOf(ripeLines), mid, fn1) ==> Effect(cfg, opts, ripeLines, e, event, mid, fn1, after, fn2)
    ensures RunOk(cfg, opts, ripeLines, envs + [e], events + [event], before, fn, after, fn2)
  {
    hide Recordable, Calm, Top, Round, AfterRounds, Effect, Inv, StageOk;
    var w := WorldOf(ripeLines);
    if Sound(cfg, w, before, fn) {
      assert NoneTorn(events + [event]) <==> NoneTorn(events) && !event.Torn? by {
        assert (events + [event])[|events|] == event;
        assert forall i :: 0 <= i < |events| ==> (events + [event])[i] == events[i];
      }
      assert AllCalm(cfg, opts, ripeLines, envs + [e]) ==>
        AllCalm(cfg, opts, ripeLines, envs) && Calm(cfg, opts, ripeLines, e) by {
        assert (envs + [e])[|envs|] == e;
        assert forall i :: 0 <= i < |envs| ==> (envs + [e])[i] == envs[i];
      }
      if NoneTorn(events) {
        EffectKeeps(cfg, opts, ripeLines, e, event, mid, fn1, after, fn2);
        assert (events + [event])[..|events|] == events;
        if Uninterrupted(events + [event]) {
          assert forall i :: 0 <= i < |events| ==> (events + [event])[i] == events[i];
          assert (events + [event])[|events|] == event;
          assert Uninterrupted(events) && (event.Idle? || event.Completed?);
          assert Sizes(events + [event]) == Sizes(events) + if event.Completed? then [event.n] else [];
          assert Sizes(events) + [] == Sizes(events);
          if event.Completed? {
            RoundsAppend(cfg, w, View(before, fn), Sizes(events), event.n);
          }
        }
      }
    }
  }

  // All goes well, and the user does not cancel in a pause.
  ghost predicate Unbroken(cfg: Settings, opts: Options, ripeLines: RipeLines, envs: seq<RoundEnv>) {
    && AllCalm(cfg, opts, ripeLines, envs) && AllSmooth(opts, envs)
    && forall i :: 0 <= i < |envs| ==> !envs[i].cancelledInPause && !envs[i].unripeRemoveFails
  }

  // A run, told by what each round did to the index, how it ended and what it wrote to the timestamp file.
  ghost predicate History(cfg: Settings, opts: Options, ripeLines: RipeLines, envs: seq<RoundEnv>,
                          events: seq<Event>, endings: seq<Ending>, states: seq<State>,
                          records: seq<Timestamps.Record32>) {
    && Trace(cfg, opts, ripeLines, envs, events, states)
    && Course(cfg, opts, ripeLines, envs, endings, states)
    && Stamps(envs, states, records)
    && var first, last := states[0], states[|envs|];
    && RunOk(cfg, opts, ripeLines, envs, events, first.disc, first.fn, last.disc, last.fn)
    && AsPlanned(cfg, opts, ripeLines, envs, first.disc, first.fn, last.disc, last.fn)
  }

  lemma LongerHistory(cfg: Settings, opts: Options, ripeLines: RipeLines, envs: seq<RoundEnv>, events: seq<Event>,
                      endings: seq<Ending>, states: seq<State>, records: seq<Timestamps.Record32>,
                      e: RoundEnv, event: Event, ending: Ending, s: State, more: seq<Timestamps.Record32>)
    requires cfg.perChunk >= 1 && Recordable(WorldOf(ripeLines))
    requires History(cfg, opts, ripeLines, envs, events, endings, states, records)
    requires records <= more && s.stamps == |more| && StampsOf(e.tsEnv.chain, more, |records|, |more|)
    requires var last := states[|envs|];
      && (Sound(cfg, WorldOf(ripeLines), last.disc, last.fn) ==>
            Effect(cfg, opts, ripeLines, e, event, last.disc, last.fn, s.disc, s.fn))
      && Ends(cfg, opts, ripeLines, e, last.stamps, s.stamps, last.disc, last.fn, s.disc, ending)
    ensures History(cfg, opts, ripeLines, envs + [e], events + [event], endings + [ending], states + [s], more)
  {
    var first, last := states[0], states[|envs|];
    OneMoreRound(cfg, opts, ripeLines, envs, events, first.disc, first.fn, last.disc, last.fn, e, event, s.disc, s.fn);
    OneMorePlanned(cfg, opts, ripeLines, envs, first.disc, first.fn, last.disc, last.fn, e, event, s.disc, s.fn);
    OneMoreTurn(cfg, opts, ripeLines, envs, events, states, e, event, s);
    OneMoreEnding(cfg, opts, ripeLines, envs, endings, states, e, ending, s);
    OneMoreStamps(envs, states, records, e, s, more);
    hide Recordable, Sound, Effect, Ends, RunOk, AsPlanned, StampsOf, Trace, Course, Stamps;
  }

  lemma StillSound(cfg: Settings, opts: Options, ripeLines: RipeLines, envs: seq<RoundEnv>, k: nat,
                   events: seq<Event>, endings: seq<Ending>, states: seq<State>, records: seq<Timestamps.Record32>)
    requires k < |envs| && History(cfg, opts, ripeLines, envs[..k], events, endings, states, records)
    ensures Sound(cfg, WorldOf(ripeLines), states[0].disc, states[0].fn) && Unbroken(cfg, opts, ripeLines, envs) ==>
      && Sound(cfg, WorldOf(ripeLines), states[k].disc, states[k].fn)
      && Calm(cfg, opts, ripeLines, envs[k]) && Smooth(opts, envs[k])
  {
    hide Sound, Calm, Smooth, Scraped, Trace, Course, Stamps, RunOk;
  }

  lemma OneMoreTurn(cfg: Settings, opts: Options, ripeLines: RipeLines, envs: seq<RoundEnv>, events: seq<Event>,
                    states: seq<State>, e: RoundEnv, event: Event, s': State)
    requires Trace(cfg, opts, ripeLines, envs, events, states)
    requires var s := states[|events|];
      Sound(cfg, WorldOf(ripeLines), s.disc, s.fn) ==>
        Effect(cfg, opts, ripeLines, e, event, s.disc, s.fn, s'.disc, s'.fn)
    ensures Trace(cfg, opts, ripeLines, envs + [e], events + [event], states + [s'])
  {
    hide Sound, Effect;
    assert Turn(cfg, opts, ripeLines, e, event, states[|events|], s');
    hide Turn;
  }

  lemma NoRounds(cfg: Settings, opts: Options, ripeLines: RipeLines, d: Disc, fn: Option<FileRange>,
                 records: seq<Timestamps.Record32>)
    ensures History(cfg, opts, ripeLines, [], [], [], [State(d, fn, |records|)], records)
  {
  }

  class Scraper {
    const folder: IndexFolder
    const file: Timestamps.TimestampFile
    const opts: Options

    constructor (folder: IndexFolder, file: Timestamps.TimestampFile, opts: Options)
      ensures this.folder == folder && this.file == file && this.opts == opts
    {
      this.folder, this.file, this.opts := folder, file, opts;
    }

    // One past the highest block that a chunk, a stage file or a ripe file is named after.
    method NextIndexHeight(ghost fn: Option<FileRange>) returns (next: nat)
      ensures Height(folder.finalized) < next
      ensures forall r :: r in folder.staging ==> r.last < next
      ensures forall b :: b in folder.ripe ==> b < next
      ensures next == Height(folder.finalized) + 1 || next - 1 in folder.ripe ||
              exists r :: r in folder.staging && next == r.last + 1
      ensures OneStage(folder.Contents(), fn) && folder.ripe == map[] ==> next == Top(View(folder.Contents(), fn)) + 1
    {
      var staging := 0;
      var todo := folder.staging.Keys;
      while todo != {}
        invariant todo <= folder.staging.Keys
        invariant forall r :: r in folder.staging && r !in todo ==> r.last <= staging
        invariant staging == 0 || exists r :: r in folder.staging && r.last == staging
        decreases |todo|
      {
        var r :| r in todo;
        if r.last > staging {
          staging := r.last;
        }
        todo := todo - {r};
      }
      var finalized := Height(folder.finalized);
      var ripe := HighestRipe();
      if staging == 0 {
        staging := finalized;
      }
      next := Max(ripe, Max(staging, finalized)) + 1;
    }

    method HighestRipe() returns (ripe: nat)
      ensures forall b :: b in folder.ripe ==> b <= ripe
      ensures ripe == 0 || ripe in folder.ripe
    {
      ripe := 0;
      var todo := folder.ripe.Keys;
      while todo != {}
        invariant todo <= folder.ripe.Keys
        invariant forall b :: b in folder.ripe && b !in todo ==> b <= ripe
        invariant ripe == 0 || ripe in folder.ripe
        decreases |todo|
      {
        var b :| b in todo;
        ripe := Max(ripe, b);
        todo := todo - {b};
      }
    }

    // The end of a round whose batch was accepted.
    method ConsolidateBatch(ripeLines: RipeLines, e: RoundEnv, ripeBlock: nat, blocks: seq<nat>, nRipe: nat,
                            ghost s: Pipeline.Pipe, ghost fn: Option<FileRange>)
      returns (exit: Exit, ghost event: Event, ghost fn': Option<FileRange>, ghost called: Option<Outcome>)
      requires folder.cfg.perChunk >= 1 && opts.nChannels >= 1 && Recordable(WorldOf(ripeLines))
      requires ripeBlock == e.height - opts.unripeDist && e.height < NOPOSN
      requires blocks != [] && Timestamps.Consecutive(blocks)
      requires |blocks| == Min(opts.blockCnt, e.height + 1 - blocks[0])
      requires var batch := BatchFor(opts, ripeLines, e, ripeBlock, blocks);
               Pipeline.Inv(batch, s) && Pipeline.Quiescent(s.hands) && s.log.errors == []
      requires s.log.ripe == folder.ripe && s.log.unripe == folder.unripe && s.log.nRipe == nRipe
      requires Sound(folder.cfg, WorldOf(ripeLines), folder.Contents(), fn) ==>
        blocks[0] == Top(View(folder.Contents(), fn)) + 1
      modifies folder`finalized, folder`staging, folder`ripe, folder`unripe
      ensures old(folder.finalized) <= folder.finalized
      ensures called.None? <==> blocks[0] > ripeBlock
      ensures called.None? ==> folder.Contents() == old(folder.Contents())
      ensures called.Some? ==>
        Consolidates(folder.cfg, s.log, e.env, blocks, old(folder.Contents()), folder.Contents(), called.value)
      ensures exit == Stop <==> called == Some(Cancelled) || called == Some(Critical)
      ensures Sound(folder.cfg, WorldOf(ripeLines), old(folder.Contents()), fn) ==>
        && Effect(folder.cfg, opts, ripeLines, e, event, old(folder.Contents()), fn, folder.Contents(), fn')
        && (Calm(folder.cfg, opts, ripeLines, e) && Smooth(opts, e) ==> exit == Pause)
    {
      hide Recordable, Result, Consolidates, Pipeline.Inv, Pipeline.Quiescent, Sound, Calm, Smooth, Top, Effect,
           OneStage, Height, FilesLeft, WorldOf, BatchFor;
      ghost var before := folder.Contents();
      event, fn', called := Idle, fn, None;
      RipeAhead(opts, ripeLines, e, ripeBlock, blocks, s);
      if nRipe == 0 {
        NoneRipe(folder.cfg, opts, ripeLines, e, ripeBlock, blocks, s, before, fn);
        return Pause, event, fn', called;
      }
      var outcome;
      ghost var latest;
      outcome, latest := folder.Consolidate(blocks, e.env);
      ChunksStay(folder.cfg, s.log.ripe, s.log.unripe.Keys, e.env, blocks, before, latest, folder.Contents(), outcome);
      if Sound(folder.cfg, WorldOf(ripeLines), before, fn) {
        StageFound(folder.cfg, WorldOf(ripeLines), before, fn, latest);
        event, fn' := AfterConsolidate(folder.cfg, opts, ripeLines, e, ripeBlock, blocks, s, before, fn,
                                       folder.Contents(), outcome);
      }
      called := Some(outcome);
      ItConsolidates(folder.cfg, s.log, e.env, blocks, before, latest, folder.Contents(), outcome);
      exit := if outcome == Cancelled || outcome == Critical then Stop else Pause;
    }

    // The blocks of a round: the pipeline, and what follows if it accepts the batch.
    method RunBatch(ripeLines: RipeLines, e: RoundEnv, ripeBlock: nat, blocks: seq<nat>, ghost fn: Option<FileRange>)
      returns (exit: Exit, ghost event: Event, ghost fn': Option<FileRange>, ghost ending: Ending)
      requires folder.cfg.perChunk >= 1 && opts.nChannels >= 1 && Recordable(WorldOf(ripeLines))
      requires folder.ripe == map[] && folder.unripe == map[] && Timestamps.Complete(file.records)
      requires ripeBlock == e.height - opts.unripeDist && e.height < NOPOSN
      requires Planned(folder.cfg, opts, ripeLines, e, folder.Contents(), fn, blocks)
      modifies folder`finalized, folder`staging, folder`ripe, folder`unripe, file
      ensures Timestamps.Complete(file.records) && old(file.records) <= file.records
      ensures StampsOf(e.tsEnv.chain, file.records, |old(file.records)|, |file.records|)
      ensures old(folder.finalized) <= folder.finalized
      ensures Ends(folder.cfg, opts, ripeLines, e, |old(file.records)|, |file.records|, old(folder.Contents()), fn,
                   folder.Contents(), ending)
      ensures exit == Stop <==> Quits(ending)
      ensures Sound(folder.cfg, WorldOf(ripeLines), old(folder.Contents()), fn) ==>
        && Effect(folder.cfg, opts, ripeLines, e, event, old(folder.Contents()), fn, folder.Contents(), fn')
        && (Calm(folder.cfg, opts, ripeLines, e) && Smooth(opts, e) ==> exit == Pause)
    {
      hide Recordable, Pipeline.Inv, Pipeline.Quiescent, Pipeline.ValidRun, Pipeline.AsProposed, Pipeline.Run,
           Pipeline.Initial, Pipeline.Faulty, Sound, Calm, Top, Effect, Consolidates, Batches.CutShort,
           Batches.CancelledLater, Batches.TimestampsFault, Ends, Quits, NoneFaulty, BatchCancelled, View, LinesFor;
      event, fn' := Idle, fn;
      ghost var before := folder.Contents();
      var bm := new Batches.BlazeManager(folder, file);
      var batch := BatchFor(opts, ripeLines, e, ripeBlock, blocks);
      var accepted, cancelled;
      ghost var acts;
      accepted, cancelled, acts := bm.ScrapeBatch(batch, e.scheduler, e.cancelBlazeAt, e.cancelledLate, e.tsEnv);
      BatchEnds(folder.cfg, opts, ripeLines, e, |old(file.records)|, |file.records|, before, fn, blocks, acts, accepted,
                cancelled);
      if accepted != Batches.Accepted || cancelled {
        IdleEffect(folder.cfg, opts, ripeLines, e, before, fn);
        LostQuits(blocks, acts, cancelled);
        return if cancelled then Stop else Pause, event, fn', Lost(blocks, acts, cancelled);
      }
      ghost var called;
      exit, event, fn', called := ConsolidateBatch(ripeLines, e, ripeBlock, blocks, bm.nRipe, bm.State(), fn);
      EndsAccepted(folder.cfg, opts, ripeLines, e, |old(file.records)|, |file.records|, before, fn, folder.Contents(),
                   blocks, acts, called);
      ending := if called.None? then NoneToConsolidate(blocks, acts) else Consolidated(blocks, acts, called.value);
    }

    // Once around the loop, up to the pause. `fn` is the stage file at the start, if any.
    method Round(ripeLines: RipeLines, e: RoundEnv, ghost fn: Option<FileRange>)
      returns (exit: Exit, ghost event: Event, ghost fn': Option<FileRange>, ghost ending: Ending)
      requires folder.cfg.perChunk >= 1 && opts.nChannels >= 1 && opts.blockCnt <= NOPOSN && e.height <= NOPOSN
      requires Recordable(WorldOf(ripeLines))
      requires folder.ripe == map[] && folder.unripe == map[] && Timestamps.Complete(file.records)
      modifies folder`finalized, folder`staging, folder`ripe, folder`unripe, file
      ensures Timestamps.Complete(file.records) && old(file.records) <= file.records
      ensures StampsOf(e.tsEnv.chain, file.records, |old(file.records)|, |file.records|)
      ensures old(folder.finalized) <= folder.finalized
      ensures Ends(folder.cfg, opts, ripeLines, e, |old(file.records)|, |file.records|, old(folder.Contents()), fn,
                   folder.Contents(), ending)
      ensures exit == Stop <==> Quits(ending)
      ensures Sound(folder.cfg, WorldOf(ripeLines), old(folder.Contents()), fn) ==>
        && Effect(folder.cfg, opts, ripeLines, e, event, old(folder.Contents()), fn, folder.Contents(), fn')
        && (Calm(folder.cfg, opts, ripeLines, e) && Smooth(opts, e) ==> exit == Pause)
    {
      hide Recordable, Sound, Calm, Top, Effect, Ends, Quits, Timestamps.Complete;
      event, fn' := Idle, fn;
      ghost var before := folder.Contents();
      ghost var sound := Sound(folder.cfg, WorldOf(ripeLines), before, fn);
      if e.cancelledAtStart {
        IdleEffect(folder.cfg, opts, ripeLines, e, before, fn);
        EndsEarly(folder.cfg, opts, ripeLines, e, |file.records|, before, fn, CancelledAtStart);
        return Stop, event, fn', CancelledAtStart;
      }
      if e.metaFails {
        IdleEffect(folder.cfg, opts, ripeLines, e, before, fn);
        EndsEarly(folder.cfg, opts, ripeLines, e, |file.records|, before, fn, NoMeta);
        return Pause, event, fn', NoMeta;
      }
      var next := NextIndexHeight(fn);
      ghost var top := 0;
      if sound {
        top := StartOfRound(folder.cfg, WorldOf(ripeLines), before, fn, next);
      }
      var go, ripeBlock, blocks := PlanBatch(Wrap(next), e.height, opts.unripeDist, opts.blockCnt);
      if !go {
        IdleEffect(folder.cfg, opts, ripeLines, e, before, fn);
        EndsEarly(folder.cfg, opts, ripeLines, e, |file.records|, before, fn, NothingToDo);
        return Pause, event, fn', NothingToDo;
      }
      exit, event, fn', ending := RunBatch(ripeLines, e, ripeBlock, blocks, fn);
    }

    // The loop. `envs` is what successive times around meet; `fn` is the stage file at the start, if any.
    method HandleScrape(ripeLines: RipeLines, envs: seq<RoundEnv>, ghost fn: Option<FileRange>)
      returns (ghost events: seq<Event>, ghost fn': Option<FileRange>, ghost states: seq<State>,
               ghost endings: seq<Ending>)
      requires folder.cfg.perChunk >= 1 && opts.nChannels >= 1 && opts.blockCnt <= NOPOSN
      requires forall i :: 0 <= i < |envs| ==> envs[i].height <= NOPOSN
      requires Recordable(WorldOf(ripeLines)) && Timestamps.Complete(file.records)
      modifies folder`finalized, folder`staging, folder`ripe, folder`unripe, file
      ensures Timestamps.Complete(file.records) && old(file.records) <= file.records
      ensures old(folder.finalized) <= folder.finalized
      ensures |events| <= |envs|
      ensures History(folder.cfg, opts, ripeLines, envs[..|events|], events, endings, states, file.records)
      ensures states[0] == State(old(folder.Contents()), fn, |old(file.records)|)
      ensures states[|events|] == State(folder.Contents(), fn', |file.records|)
      // the loop goes on until the run count, or a round after which it has to stop
      ensures forall k :: 0 <= k < |events| - 1 ==> !Final(envs[k], endings[k])
      ensures opts.runCount != 0 ==> |events| <= opts.runCount
      ensures |events| < |envs| ==>
        || (opts.runCount != 0 && |events| == opts.runCount)
        || (events != [] && Final(envs[|events| - 1], endings[|events| - 1]))
      ensures Sound(folder.cfg, WorldOf(ripeLines), old(folder.Contents()), fn) &&
              Unbroken(folder.cfg, opts, ripeLines, envs) ==>
        |events| == if opts.runCount == 0 then |envs| else Min(opts.runCount, |envs|)
    {
      hide Recordable, Sound, Effect, RunOk, AsPlanned, Timestamps.Complete, Calm, Smooth, Trace, Course, Ends, Quits,
           Stamps, StampsOf, History;
      folder.CleanEphemeral();
      events, fn', states, endings := [], fn, [State(folder.Contents(), fn, |file.records|)], [];
      NoRounds(folder.cfg, opts, ripeLines, folder.Contents(), fn, file.records);
      var runCount, k := 0, 0;
      while k < |envs|
        invariant |events| == |endings| == k <= |envs| && |states| == k + 1
        invariant History(folder.cfg, opts, ripeLines, envs[..k], events, endings, states, file.records)
        invariant forall j :: 0 <= j < k ==> !Final(envs[j], endings[j])
        invariant folder.ripe == map[] && folder.unripe == map[]
        invariant Timestamps.Complete(file.records) && old(file.records) <= file.records
        invariant old(folder.finalized) <= folder.finalized
        invariant states[0] == State(old(folder.Contents()), fn, |old(file.records)|)
        invariant states[k] == State(folder.Contents(), fn', |file.records|)
        invariant runCount == k && (opts.runCount == 0 || k == 0 || k < opts.runCount)
      {
        var exit;
        ghost var event, ending;
        ghost var records := file.records;
        exit, event, fn', ending := Round(ripeLines, envs[k], fn');
        StillSound(folder.cfg, opts, ripeLines, envs, k, events, endings, states, records);
        ghost var s := State(folder.Contents(), fn', |file.records|);
        LongerHistory(folder.cfg, opts, ripeLines, envs[..k], events, endings, states, records, envs[k], event, ending,
                      s, file.records);
        events, states, endings := events + [event], states + [s], endings + [ending];
        assert envs[..k] + [envs[k]] == envs[..k + 1];
        if exit == Stop {
          return;
        }
        runCount := runCount + 1;
        if (opts.runCount != 0 && runCount >= opts.runCount) || envs[k].cancelledInPause {
          return;
        }
        if folder.ripe != map[] {
          folder.CleanEphemeral();
        }
        if envs[k].unripeRemoveFails {
          return;
        }
        folder.RemoveUnripe();
        k := k + 1;
      }
    }
  }
}
