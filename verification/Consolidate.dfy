// BlazeManager.Consolidate: merge the stage and the ripe files, cut chunks, write the new stage.
module Consolidation {
  import opened Ranges
  import opened StageFile
  import opened Index
  import opened Wrappers

  datatype Outcome = Success | Cancelled | Failed | Critical

  // What a run of Consolidate meets outside its own control. Blocks identify the point in the loop.
  datatype Env = Env(
    noAddresses: set<nat>,   // blocks whose header shows that no address appears in them
    allowMissing: bool,
    backupFails: bool,
    interruptBefore: set<nat>,
    chunkWriteFails: set<nat>,
    chunkNotifyFails: set<nat>,
    interruptAtRecord: nat,  // an index past the last record means never
    stageWriteFails: bool,
    stageNotifyFails: bool)

  function Found(ripe: map<nat, seq<string>>, block: nat): multiset<Record> {
    if block in ripe then Kept(ripe[block]) else multiset{}
  }

  // The loop over the blocks: where it stops and with what.
  function Process(cfg: Settings, ripe: map<nat, seq<string>>, unripe: set<nat>, env: Env, acc: Acc, blocks: seq<nat>)
    : (r: (Acc, Outcome))
    ensures acc.chunks <= r.0.chunks
    decreases |blocks|
  {
    if |blocks| == 0 then (acc, Success)
    else
      var block := blocks[0];
      if block in env.interruptBefore then (acc, Cancelled)
      else if block in unripe then Process(cfg, ripe, unripe, env, acc, blocks[1..])
      else if block !in ripe && block !in env.noAddresses && !env.allowMissing then (acc, Failed)
      else
        var next := AddBlock(cfg, acc, block, Found(ripe, block));
        if |next.chunks| > |acc.chunks| && block in env.chunkWriteFails then (acc, Critical)
        else if |next.chunks| > |acc.chunks| && block in env.chunkNotifyFails then (next, Failed)
        else Process(cfg, ripe, unripe, env, next, blocks[1..])
  }

  lemma ProcessStep(cfg: Settings, ripe: map<nat, seq<string>>, unripe: set<nat>, env: Env, acc: Acc, blocks: seq<nat>)
    requires |blocks| > 0
    ensures var b := blocks[0];
      var next := AddBlock(cfg, acc, b, Found(ripe, b));
      Process(cfg, ripe, unripe, env, acc, blocks) ==
        if b in env.interruptBefore then (acc, Cancelled)
        else if b in unripe then Process(cfg, ripe, unripe, env, acc, blocks[1..])
        else if b !in ripe && b !in env.noAddresses && !env.allowMissing then (acc, Failed)
        else if |next.chunks| > |acc.chunks| && b in env.chunkWriteFails then (acc, Critical)
        else if |next.chunks| > |acc.chunks| && b in env.chunkNotifyFails then (next, Failed)
        else Process(cfg, ripe, unripe, env, next, blocks[1..])
  {
  }

  // How many blocks the loop gets through, and whether it ends by cleaning the ripe and unripe folders.
  function Reads(cfg: Settings, ripe: map<nat, seq<string>>, unripe: set<nat>, env: Env, acc: Acc,
                 blocks: seq<nat>): (r: (nat, bool))
    ensures r.0 <= |blocks|
    ensures Process(cfg, ripe, unripe, env, acc, blocks).1 == Success ==> r == (|blocks|, false)
    ensures r.1 ==> Process(cfg, ripe, unripe, env, acc, blocks).1 == Failed
    decreases |blocks|
  {
    if |blocks| == 0 then (0, false)
    else
      var b := blocks[0];
      var next := AddBlock(cfg, acc, b, Found(ripe, b));
      if b in env.interruptBefore then (0, false)
      else if b !in unripe && b !in ripe && b !in env.noAddresses && !env.allowMissing then (0, true)
      else if b !in unripe && |next.chunks| > |acc.chunks| && b in env.chunkWriteFails + env.chunkNotifyFails
      then (1, false)
      else
        var (k, cleans) := Reads(cfg, ripe, unripe, env, if b in unripe then acc else next, blocks[1..]);
        (k + 1, cleans)
  }

  lemma ReadsStep(cfg: Settings, ripe: map<nat, seq<string>>, unripe: set<nat>, env: Env, acc: Acc, blocks: seq<nat>)
    requires |blocks| > 0
    ensures var b := blocks[0];
      var next := AddBlock(cfg, acc, b, Found(ripe, b));
      Reads(cfg, ripe, unripe, env, acc, blocks) ==
        if b in env.interruptBefore then (0, false)
        else if b !in unripe && b !in ripe && b !in env.noAddresses && !env.allowMissing then (0, true)
        else if b !in unripe && |next.chunks| > |acc.chunks| && b in env.chunkWriteFails + env.chunkNotifyFails
        then (1, false)
        else
          var (k, cleans) := Reads(cfg, ripe, unripe, env, if b in unripe then acc else next, blocks[1..]);
          (k + 1, cleans)
  {
  }

  // After `i` blocks the loop is in the state `acc`.
  ghost predicate OnTrack(cfg: Settings, ripe: map<nat, seq<string>>, unripe: set<nat>, env: Env, start: Acc,
                          blocks: seq<nat>,
                          i: nat, acc: Acc)
    requires i <= |blocks|
  {
    var (k, cleans) := Reads(cfg, ripe, unripe, env, acc, blocks[i..]);
    && Process(cfg, ripe, unripe, env, start, blocks) == Process(cfg, ripe, unripe, env, acc, blocks[i..])
    && Reads(cfg, ripe, unripe, env, start, blocks) == (i + k, cleans)
  }

  lemma StartOnTrack(cfg: Settings, ripe: map<nat, seq<string>>, unripe: set<nat>, env: Env, start: Acc,
                     blocks: seq<nat>)
    ensures OnTrack(cfg, ripe, unripe, env, start, blocks, 0, start)
  {
    assert blocks[0..] == blocks;
  }

  lemma TrackStep(cfg: Settings, ripe: map<nat, seq<string>>, unripe: set<nat>, env: Env, start: Acc, blocks: seq<nat>,
                  i: nat, acc: Acc)
    requires i < |blocks| && OnTrack(cfg, ripe, unripe, env, start, blocks, i, acc)
    ensures var b := blocks[i];
      var next := AddBlock(cfg, acc, b, Found(ripe, b));
      var cut := cfg.snap(b) || |acc.recs| + |Found(ripe, b)| >= cfg.perChunk;
      var result, seen := Process(cfg, ripe, unripe, env, start, blocks), Reads(cfg, ripe, unripe, env, start, blocks);
      if b in env.interruptBefore then result == (acc, Cancelled) && seen == (i, false)
      else if b in unripe then OnTrack(cfg, ripe, unripe, env, start, blocks, i + 1, acc)
      else if b !in ripe && b !in env.noAddresses && !env.allowMissing then result == (acc, Failed) && seen == (i, true)
      else if cut && b in env.chunkWriteFails then result == (acc, Critical) && seen == (i + 1, false)
      else if cut && b in env.chunkNotifyFails then result == (next, Failed) && seen == (i + 1, false)
      else OnTrack(cfg, ripe, unripe, env, start, blocks, i + 1, next)
  {
    hide Process, Reads, AddBlock, Found;
    assert blocks[i..][1..] == blocks[i + 1..];
    ProcessStep(cfg, ripe, unripe, env, acc, blocks[i..]);
    ReadsStep(cfg, ripe, unripe, env, acc, blocks[i..]);
    AddBlockShape(cfg, acc, blocks[i], Found(ripe, blocks[i]));
  }

  lemma EndOfTrack(cfg: Settings, ripe: map<nat, seq<string>>, unripe: set<nat>, env: Env, start: Acc,
                   blocks: seq<nat>, acc: Acc)
    requires OnTrack(cfg, ripe, unripe, env, start, blocks, |blocks|, acc)
    ensures Process(cfg, ripe, unripe, env, start, blocks) == (acc, Success)
    ensures Reads(cfg, ripe, unripe, env, start, blocks) == (|blocks|, false)
  {
  }

  // The ripe and unripe folders after the loop.
  ghost predicate FilesLeft(seen: (nat, bool), blocks: seq<nat>,
                            ripe: map<nat, seq<string>>, unripe: map<nat, seq<string>>,
                            ripe': map<nat, seq<string>>, unripe': map<nat, seq<string>>)
    requires seen.0 <= |blocks|
  {
    if seen.1 then ripe' == unripe' == map[]
    else unripe' == unripe && ripe' == ripe - Consumed(blocks[..seen.0], unripe.Keys)
  }

  lemma NothingToProcess(cfg: Settings, ripe: map<nat, seq<string>>, unripe: set<nat>, env: Env, acc: Acc)
    ensures Process(cfg, ripe, unripe, env, acc, []) == (acc, Success)
  {
  }

  lemma AddBlockShape(cfg: Settings, acc: Acc, b: nat, found: multiset<Record>)
    ensures var next, recs, range := AddBlock(cfg, acc, b, found), acc.recs + found, acc.range.(last := b);
      if cfg.snap(b) || |acc.recs| + |found| >= cfg.perChunk
      then next == Acc(acc.chunks + [Chunk(range, recs)], multiset{}, FileRange(b + 1, b + 1))
      else next == Acc(acc.chunks, recs, range)
    ensures |acc.recs + found| == |acc.recs| + |found|
  {
  }

  lemma FoundStill(ripe: map<nat, seq<string>>, gone: set<nat>, b: nat)
    requires b !in gone
    ensures Found(ripe - gone, b) == Found(ripe, b) && (b in ripe - gone <==> b in ripe)
  {
  }

  ghost predicate IsLatest(staging: map<FileRange, seq<string>>, fn: FileRange) {
    fn in staging && forall r :: r in staging ==> RangeLeq(r, fn)
  }

  // The ripe files a completed loop has read, and thereby deleted.
  function Consumed(blocks: seq<nat>, unripe: set<nat>): set<nat> {
    set b | b in blocks && b !in unripe
  }

  lemma NoneConsumed(unripe: set<nat>)
    ensures Consumed([], unripe) == {}
  {
  }

  lemma ConsumedOneMore(blocks: seq<nat>, i: nat, unripe: set<nat>)
    requires i < |blocks| && Distinct(blocks)
    ensures blocks[i] !in Consumed(blocks[..i], unripe)
    ensures Consumed(blocks[..i + 1], unripe) ==
            Consumed(blocks[..i], unripe) + if blocks[i] in unripe then {} else {blocks[i]}
  {
  }

  datatype StageChange = Nothing | Removed | Written

  function StageStep(env: Env, recs: multiset<Record>): StageChange {
    if recs == multiset{} || env.interruptAtRecord < |recs| then Nothing
    else if env.stageWriteFails then Removed
    else Written
  }

  function StageOutcome(env: Env, recs: multiset<Record>): Outcome {
    if recs != multiset{} && env.interruptAtRecord < |recs| then Cancelled
    else if recs != multiset{} && env.stageWriteFails then Failed
    else if env.stageNotifyFails then Failed
    else Success
  }

  ghost predicate Distinct(blocks: seq<nat>) {
    forall i, j :: 0 <= i < j < |blocks| ==> blocks[i] != blocks[j]
  }

  // ---- The effect of a call as a relation on values ----

  datatype Disc = Disc(finalized: seq<Chunk>, staging: map<FileRange, seq<string>>)

  function StageContents(d: Disc, fn: Option<FileRange>): seq<string>
    requires fn.Some? ==> fn.value in d.staging
  {
    if fn.Some? then d.staging[fn.value] else []
  }

  function Start(d: Disc, fn: Option<FileRange>, firstBlock: nat): Acc
    requires fn.Some? ==> fn.value in d.staging
  {
    var lines := StageContents(d, fn);
    Acc(d.finalized, Kept(lines),
        if fn.Some? then SpanOfFile(lines) else FileRange(Height(d.finalized) + 1, firstBlock))
  }

  function Remaining(d: Disc, fn: Option<FileRange>): map<FileRange, seq<string>> {
    if fn.Some? then d.staging - {fn.value} else d.staging
  }

  ghost function NewStage(acc: Acc): FileRange {
    FileRange(Height(acc.chunks) + 1, MaxBlock(acc.recs))
  }

  ghost predicate StageChanged(env: Env, acc: Acc, stop: Outcome, rest: map<FileRange, seq<string>>,
                               staging: map<FileRange, seq<string>>) {
    if stop != Success then staging == rest
    else match StageStep(env, acc.recs)
      case Nothing => staging == rest
      case Removed => staging == rest - {NewStage(acc)}
      case Written => exists table :: multiset(table) == acc.recs && staging == rest[NewStage(acc) := StageLines(table)]
  }

  ghost predicate Result(cfg: Settings, ripe: map<nat, seq<string>>, unripe: set<nat>, env: Env, blocks: seq<nat>,
                         before: Disc, fn: Option<FileRange>, after: Disc, outcome: Outcome)
    requires blocks != [] && (fn.Some? ==> fn.value in before.staging)
  {
    if fn.Some? && env.backupFails then after == before && outcome == Failed
    else
      var (acc, stop) := Process(cfg, ripe, unripe, env, Start(before, fn, blocks[0]), blocks);
      && after.finalized == acc.chunks
      && outcome == (if stop != Success then stop else StageOutcome(env, acc.recs))
      && exists staging :: StageChanged(env, acc, stop, Remaining(before, fn), staging) &&
           after.staging ==
           if outcome != Success && fn.Some? then staging[fn.value := before.staging[fn.value]] else staging
  }

  // The folders of the index on disc.
  class IndexFolder {
    const cfg: Settings
    var finalized: seq<Chunk>
    var staging: map<FileRange, seq<string>>
    var ripe: map<nat, seq<string>>
    var unripe: map<nat, seq<string>>

    constructor (cfg: Settings, finalized: seq<Chunk>)
      ensures this.cfg == cfg && this.finalized == finalized
      ensures staging == map[] && ripe == map[] && unripe == map[]
    {
      this.cfg, this.finalized := cfg, finalized;
      staging, ripe, unripe := map[], map[], map[];
    }

    // file.LatestFileInFolder on the staging folder
    method LatestStage() returns (fn: FileRange)
      requires staging != map[]
      ensures IsLatest(staging, fn)
    {
      fn :| fn in staging;
      var todo := staging.Keys - {fn};
      while todo != {}
        invariant todo <= staging.Keys && fn in staging
        invariant forall r :: r in staging && r !in todo ==> RangeLeq(r, fn)
        decreases |todo|
      {
        var r :| r in todo;
        if RangeLeq(fn, r) {
          fn := r;
        }
        todo := todo - {r};
      }
    }

    // cleanEphemeralIndexFolders
    method CleanEphemeral()
      modifies this`ripe, this`unripe
      ensures ripe == map[] && unripe == map[]
    {
      ripe, unripe := map[], map[];
    }

    method RemoveUnripe()
      modifies this`unripe
      ensures unripe == map[]
    {
      unripe := map[];
    }

    // Writes a chunk that ends with `block` if it is time to; `acc` is the state before the block, `next` after it.
    method CutIfDue(block: nat, env: Env, appMap: AppMap, chunkRange: FileRange, nAppearances: nat,
                    ghost recs: multiset<Record>)
      returns (cut: bool, outcome: Outcome)
      requires Holds(appMap, recs) && nAppearances == |recs| && chunkRange.last == block
      modifies this`finalized
      ensures cut == (cfg.snap(block) || |recs| >= cfg.perChunk)
      ensures outcome == if cut && block in env.chunkWriteFails then Critical
                         else if cut && block in env.chunkNotifyFails then Failed else Success
      ensures finalized ==
              if cut && outcome != Critical then old(finalized) + [Chunk(chunkRange, recs)] else old(finalized)
    {
      cut, outcome := cfg.snap(chunkRange.last) || nAppearances >= cfg.perChunk, Success;
      if cut {
        if block in env.chunkWriteFails {
          return cut, Critical;
        }
        var table := Flatten(appMap, recs);
        finalized := finalized + [Chunk(chunkRange, multiset(table))];
        if block in env.chunkNotifyFails {
          return cut, Failed;
        }
      }
    }

    // The loop over the blocks. The appearances gathered so far are in `appMap0`.
    method CutChunks(blocks: seq<nat>, env: Env, appMap0: AppMap, chunkRange0: FileRange, nAppearances0: nat,
                     ghost start: Acc)
      returns (appMap: AppMap, outcome: Outcome)
      requires Distinct(blocks)
      requires start.chunks == finalized && start.range == chunkRange0
      requires Holds(appMap0, start.recs) && nAppearances0 == |start.recs|
      modifies this`finalized, this`ripe, this`unripe
      ensures finalized == Process(cfg, old(ripe), old(unripe).Keys, env, start, blocks).0.chunks
      ensures outcome == Process(cfg, old(ripe), old(unripe).Keys, env, start, blocks).1
      ensures outcome == Success ==> Holds(appMap, Process(cfg, old(ripe), old(unripe).Keys, env, start, blocks).0.recs)
      ensures FilesLeft(Reads(cfg, old(ripe), old(unripe).Keys, env, start, blocks), blocks, old(ripe), old(unripe),
                        ripe, unripe)
    {
      hide Kept, Holds, Total, Height, Process, Reads, AddBlock, Found, Consumed, Distinct, OnTrack;
      ghost var ripe0, unripe0 := ripe, unripe.Keys;
      ghost var acc := start;
      appMap := appMap0;
      var chunkRange, nAppearances := chunkRange0, nAppearances0;
      StartOnTrack(cfg, ripe0, unripe0, env, start, blocks);
      NoneConsumed(unripe0);
      for i := 0 to |blocks|
        invariant acc.chunks == finalized && acc.range == chunkRange
        invariant Holds(appMap, acc.recs) && nAppearances == |acc.recs|
        invariant OnTrack(cfg, ripe0, unripe0, env, start, blocks, i, acc)
        invariant unripe == old(unripe) && ripe == ripe0 - Consumed(blocks[..i], unripe0)
      {
        var block := blocks[i];
        ConsumedOneMore(blocks, i, unripe0);
        TrackStep(cfg, ripe0, unripe0, env, start, blocks, i, acc);
        AddBlockShape(cfg, acc, block, Found(ripe0, block));
        FoundStill(ripe0, Consumed(blocks[..i], unripe0), block);
        if block in env.interruptBefore {
          return appMap, Cancelled;
        }
        if block in unripe {
          continue;
        }
        if block !in ripe && block !in env.noAddresses && !env.allowMissing {
          CleanEphemeral();
          return appMap, Failed;
        }
        var thisMap, thisCount := ReadRipe(block);
        ghost var next := AddBlock(cfg, acc, block, Found(ripe0, block));
        nAppearances := nAppearances + thisCount;
        appMap := Merge(appMap, thisMap, acc.recs, Found(ripe0, block));
        chunkRange := chunkRange.(last := block);
        var cut;
        cut, outcome := CutIfDue(block, env, appMap, chunkRange, nAppearances, acc.recs + Found(ripe0, block));
        if outcome != Success {
          return;
        }
        if cut {
          appMap, nAppearances := map[], 0;
          chunkRange := FileRange(chunkRange.last + 1, chunkRange.last + 1);
          NothingHeld();
        }
        acc := next;
      }
      EndOfTrack(cfg, ripe0, unripe0, env, start, blocks, acc);
      outcome := Success;
    }

    // AsciiFileToAppearanceMap on a ripe file, which it deletes
    method ReadRipe(block: nat) returns (thisMap: AppMap, thisCount: nat)
      modifies this`ripe
      ensures Holds(thisMap, Found(old(ripe), block)) && thisCount == |Found(old(ripe), block)|
      ensures ripe == old(ripe) - {block}
    {
      var fileRange;
      thisMap, fileRange, thisCount := ReadAppearances(if block in ripe then ripe[block] else []);
      ripe := ripe - {block};
    }

    // The new stage, if any appearances are left. Its rows are sorted.
    method WriteStage(appMap: AppMap, env: Env, ghost recs: multiset<Record>) returns (outcome: Outcome)
      requires Holds(appMap, recs)
      modifies this`staging
      ensures outcome == StageOutcome(env, recs)
      ensures var newFn := FileRange(Height(finalized) + 1, MaxBlock(recs));
        match StageStep(env, recs)
        case Nothing => staging == old(staging)
        case Removed => staging == old(staging) - {newFn}
        case Written => exists table :: multiset(table) == recs && staging == old(staging)[newFn := StageLines(table)]
    {
      hide Holds, Height, MaxBlock, StageLines;
      HoldsEmpty(appMap, recs);
      if appMap != map[] {
        var table := Flatten(appMap, recs);
        var last, interrupted := LastOf(table, env.interruptAtRecord);
        if interrupted {
          return Cancelled;
        }
        assert |table| == |recs|;
        LastIsMax(table, recs, last);
        var newRange := FileRange(Height(finalized) + 1, last);
        if env.stageWriteFails {
          staging := staging - {newRange};
          return Failed;
        }
        staging := staging[newRange := StageLines(table)];
      }
      outcome := if env.stageNotifyFails then Failed else Success;
    }

    ghost function Contents(): Disc
      reads this
    {
      Disc(finalized, staging)
    }

    // `fn` is the stage file found at the start, if any. While it is being replaced a backup is kept.
    method Consolidate(blocks: seq<nat>, env: Env) returns (outcome: Outcome, ghost fn: Option<FileRange>)
      requires blocks != [] && Distinct(blocks)
      modifies this`finalized, this`staging, this`ripe, this`unripe
      ensures if old(staging) == map[] then fn == None else fn.Some? && IsLatest(old(staging), fn.value)
      ensures Result(cfg, old(ripe), old(unripe).Keys, env, blocks, old(Contents()), fn, Contents(), outcome)
      ensures if fn.Some? && env.backupFails then ripe == old(ripe) && unripe == old(unripe)
              else
                var start := Start(old(Contents()), fn, blocks[0]);
                FilesLeft(Reads(cfg, old(ripe), old(unripe).Keys, env, start, blocks), blocks, old(ripe), old(unripe),
                          ripe, unripe)
    {
      hide Process, Reads, FilesLeft, Kept, SpanOfFile, Holds, Height, MaxBlock, StageLines, RangeLeq;
      var found, stageFn, backup := staging != map[], FileRange(0, 0), [];
      if found {
        stageFn := LatestStage();
        if env.backupFails {
          return Failed, Some(stageFn);
        }
        backup := staging[stageFn];
      }
      var appMap, chunkRange, nAppearances := ReadAppearances(backup);
      if found {
        staging := staging - {stageFn};
      } else {
        chunkRange := FileRange(Height(finalized) + 1, blocks[0]);
      }
      fn := if found then Some(stageFn) else None;
      ghost var start := Start(old(Contents()), fn, blocks[0]);
      appMap, outcome := CutChunks(blocks, env, appMap, chunkRange, nAppearances, start);
      ghost var acc := Process(cfg, old(ripe), old(unripe).Keys, env, start, blocks).0;
      ghost var stop := outcome;
      if outcome == Success {
        outcome := WriteStage(appMap, env, acc.recs);
      }
      assert StageChanged(env, acc, stop, Remaining(old(Contents()), fn), staging);
      if outcome != Success && found {
        staging := staging[stageFn := backup];
      }
    }
  }

  // The block range of the rows, polling for a cancellation before each one.
  method LastOf(table: seq<Record>, interruptAt: nat) returns (last: nat, interrupted: bool)
    ensures interrupted <==> interruptAt < |table|
    ensures !interrupted && |table| > 0 ==>
      && (forall j :: 0 <= j < |table| ==> table[j].block <= last)
      && (exists j :: 0 <= j < |table| && table[j].block == last)
  {
    last, interrupted := 0, false;
    ghost var at := 0;
    for i := 0 to |table|
      invariant i <= interruptAt
      invariant forall j :: 0 <= j < i ==> table[j].block <= last
      invariant if i == 0 then last == 0 else at < i && table[at].block == last
    {
      if i == interruptAt {
        return last, true;
      }
      if i == 0 || table[i].block >= last {
        at := i;
      }
      if table[i].block > last {
        last := table[i].block;
      }
    }
  }

  lemma LastIsMax(table: seq<Record>, recs: multiset<Record>, last: nat)
    requires multiset(table) == recs && recs != multiset{}
    requires forall j :: 0 <= j < |table| ==> table[j].block <= last
    requires exists j :: 0 <= j < |table| && table[j].block == last
    ensures last == MaxBlock(recs)
  {
  }
}
