// What one call of Consolidate does to the index on disc: a completed call is a round of the index,
// a call stopped before its first chunk leaves no trace, and any other stop is characterised exactly.
module Rounds {
  import opened Ranges
  import opened StageFile
  import opened Index
  import opened Consolidation
  import opened UnripeEnd
  import opened Wrappers

  // A stage file is named after the block following the last chunk and its own last appearance.
  ghost predicate StageOk(finalized: seq<Chunk>, fn: FileRange, lines: seq<string>) {
    && Canonical(lines) && Kept(lines) != multiset{}
    && fn == FileRange(Height(finalized) + 1, MaxBlock(Kept(lines)))
  }

  // There is at most one stage file.
  ghost predicate OneStage(d: Disc, fn: Option<FileRange>) {
    if fn.None? then d.staging == map[]
    else d.staging.Keys == {fn.value} && StageOk(d.finalized, fn.value, d.staging[fn.value])
  }

  ghost function View(d: Disc, fn: Option<FileRange>): Index
    requires fn.Some? ==> fn.value in d.staging
  {
    Index(d.finalized, Kept(StageContents(d, fn)))
  }

  // A ripe block's appearances are its own and can be written to the stage.
  ghost predicate Recordable(w: World) {
    Faithful(w) && forall b, r :: r in w(b) ==> Writable(r)
  }

  // The index on disc is exact and in shape.
  ghost predicate Sound(cfg: Settings, w: World, d: Disc, fn: Option<FileRange>) {
    OneStage(d, fn) && Inv(cfg, w, View(d, fn)) && Top(View(d, fn)) < NOPOSN
  }

  // Whatever is taken for its stage file.
  ghost predicate Unsound(cfg: Settings, w: World, d: Disc) {
    forall f :: !Sound(cfg, w, d, f)
  }

  // The first `n` blocks of the batch are ripe and their files hold their appearances. The others are not.
  ghost predicate Batch(w: World, ripe: map<nat, seq<string>>, unripe: set<nat>, blocks: seq<nat>, start: nat, n: nat) {
    && n <= |blocks|
    && (forall i :: 0 <= i < |blocks| ==> blocks[i] == start + i)
    && (forall i :: 0 <= i < n ==> blocks[i] !in unripe && Found(ripe, blocks[i]) == w(blocks[i]))
    && (forall i :: n <= i < |blocks| ==> blocks[i] !in ripe)
  }

  lemma StartIsLoad(d: Disc, fn: Option<FileRange>)
    requires OneStage(d, fn)
    ensures Start(d, fn, Top(View(d, fn)) + 1) == Load(View(d, fn))
  {
    hide Height, StageOk, StoredOf, SpanOf;
    if fn.Some? {
      var lines := d.staging[fn.value];
      StageSpan(d.finalized, fn.value, lines);
    } else {
      assert Kept([]) == multiset{} by { NoLines(); }
    }
  }

  lemma NoLines()
    ensures Kept([]) == multiset{}
  {
  }

  lemma StageSpan(finalized: seq<Chunk>, fn: FileRange, lines: seq<string>)
    requires StageOk(finalized, fn, lines)
    ensures Kept(lines) != multiset{}
    ensures SpanOfFile(lines) == FileRange(MinBlock(Kept(lines)), MaxBlock(Kept(lines)))
  {
    hide StoredOf, SpanOf, Height, Tight;
    NoLines();
    SpanIsTight(ParseAll(lines));
    TightIsMinMax(Kept(lines), SpanOf(ParseAll(lines)));
  }

  lemma TightIsMinMax(recs: multiset<Record>, span: FileRange)
    requires Tight(recs, span) && recs != multiset{}
    ensures span == FileRange(MinBlock(recs), MaxBlock(recs))
  {
  }

  lemma BatchTail(w: World, ripe: map<nat, seq<string>>, unripe: set<nat>, blocks: seq<nat>, start: nat, n: nat)
    requires Batch(w, ripe, unripe, blocks, start, n) && n > 0
    ensures Batch(w, ripe, unripe, blocks[1..], start + 1, n - 1)
    ensures |blocks| > 0 && blocks[0] == start && start !in unripe && Found(ripe, start) == w(start)
    ensures blocks[1..][n - 1..] == blocks[n..]
  {
  }

  lemma BatchEnd(w: World, ripe: map<nat, seq<string>>, unripe: set<nat>, blocks: seq<nat>, start: nat, n: nat)
    requires Batch(w, ripe, unripe, blocks, start, n)
    ensures n <= |blocks| && Unripe(ripe, blocks[n..], start + n)
    ensures forall b :: b in blocks ==> b < start + |blocks|
    ensures forall b :: b in blocks[n..] ==> b in blocks
    ensures blocks != [] ==> blocks[0] == start
  {
  }

  // The ripe part of a batch: the loop stops with the chunks of a shorter round, or goes on to the
  // unripe end with the state of the whole round.
  lemma {:induction false} RipePart(cfg: Settings, w: World, ripe: map<nat, seq<string>>, unripe: set<nat>, env: Env,
                                    acc: Acc, blocks: seq<nat>, start: nat, n: nat)
    returns (k: nat, tail: bool)
    requires cfg.perChunk >= 1 && Faithful(w) && AccInv(cfg, w, acc, start)
    requires Batch(w, ripe, unripe, blocks, start, n)
    ensures k <= n <= |blocks|
    ensures !tail ==>
      && Process(cfg, ripe, unripe, env, acc, blocks).1 != Success
      && Process(cfg, ripe, unripe, env, acc, blocks).0.chunks == AddBlocks(cfg, w, acc, start, k).chunks
    ensures tail ==> k == n
    ensures var end := Process(cfg, ripe, unripe, env, AddBlocks(cfg, w, acc, start, n), blocks[n..]);
      tail ==> Process(cfg, ripe, unripe, env, acc, blocks) == end
    decreases n
  {
    hide Batch, AccInv, Found, AddBlock, Process;
    BatchEnd(w, ripe, unripe, blocks, start, n);
    k, tail := 0, false;
    if n == 0 {
      tail := true;
      assert blocks[0..] == blocks;
    } else {
      BatchTail(w, ripe, unripe, blocks, start, n);
      ProcessStep(cfg, ripe, unripe, env, acc, blocks);
      var next := AddBlock(cfg, acc, start, w(start));
      if start in env.interruptBefore || (start !in ripe && start !in env.noAddresses && !env.allowMissing) {
      } else if |next.chunks| > |acc.chunks| && start in env.chunkWriteFails {
      } else if |next.chunks| > |acc.chunks| && start in env.chunkNotifyFails {
        k := 1;
        assert AddBlocks(cfg, w, acc, start, 1) == AddBlocks(cfg, w, next, start + 1, 0);
      } else {
        AddBlockKeeps(cfg, w, acc, start);
        k, tail := RipePart(cfg, w, ripe, unripe, env, next, blocks[1..], start + 1, n - 1);
        k := k + 1;
      }
    }
  }

  lemma RecordableIsFaithful(w: World)
    requires Recordable(w)
    ensures Faithful(w)
  {
  }

  // ---- What the loop has done when it stops ----

  // A block after `last` that some chunk covers turns out to have appearances, or is a snap point that
  // was skipped for its unripe file.
  ghost predicate Overreach(cfg: Settings, w: World, unripe: set<nat>, last: nat, chunks: seq<Chunk>) {
    !NothingLost(cfg, w, unripe, last + 1, Height(chunks))
  }

  ghost predicate NoneBusy(w: World, after: nat, last: nat) {
    forall b :: after < b <= last ==> w(b) == multiset{}
  }

  ghost predicate Processing(cfg: Settings, w: World, unripe: set<nat>, ix: Index, blocks: seq<nat>, n: nat, r: Acc,
                             stop: Outcome) {
    var last := Top(ix) + n;
    && ix.chunks <= r.chunks && Height(r.chunks) <= Top(ix) + |blocks|
    && (r.chunks != ix.chunks ==> Height(r.chunks) > Top(ix))
    && (Inv(cfg, w, Index(r.chunks, multiset{})) <==> !Overreach(cfg, w, unripe, last, r.chunks))
    && (Height(r.chunks) > last ==>
          && r.recs == multiset{}
          && (exists s :: s in blocks && s > last && s !in unripe && cfg.snap(s))
          && (Exact(w, Index(r.chunks, multiset{})) <==> NoneBusy(w, last, Height(r.chunks))))
    && (Height(r.chunks) <= last && stop == Success ==> Index(r.chunks, r.recs) == Round(cfg, w, ix, n))
  }

  lemma StoppedEarly(cfg: Settings, w: World, unripe: set<nat>, ix: Index, blocks: seq<nat>, n: nat, k: nat, r: Acc,
                     stop: Outcome)
    requires cfg.perChunk >= 1 && Faithful(w) && Inv(cfg, w, ix) && k <= n <= |blocks|
    requires r.chunks == AddBlocks(cfg, w, Load(ix), Top(ix) + 1, k).chunks
    requires stop == Success ==> k == n && r.recs == AddBlocks(cfg, w, Load(ix), Top(ix) + 1, n).recs
    ensures Processing(cfg, w, unripe, ix, blocks, n, r, stop)
  {
    hide Inv, AccInv, Load, AddBlocks, Height, Top, Exact;
    var next := Top(ix) + 1;
    var acc := AddBlocks(cfg, w, Load(ix), next, k);
    LoadOk(cfg, w, ix);
    AddBlocksKeeps(cfg, w, Load(ix), next, k);
    Leave(cfg, w, acc, next + k);
    LoadChunks(ix);
    if r.chunks != ix.chunks {
      CutRaisesHeight(cfg, w, Load(ix), next, k);
    }
  }

  lemma LoadChunks(ix: Index)
    ensures Load(ix).chunks == ix.chunks
  {
  }

  lemma Processed(cfg: Settings, w: World, ripe: map<nat, seq<string>>, unripe: set<nat>, env: Env, ix: Index,
                  blocks: seq<nat>, n: nat)
    requires cfg.perChunk >= 1 && Faithful(w) && Inv(cfg, w, ix) && Batch(w, ripe, unripe, blocks, Top(ix) + 1, n)
    ensures var (r, stop) := Process(cfg, ripe, unripe, env, Load(ix), blocks);
      Processing(cfg, w, unripe, ix, blocks, n, r, stop)
  {
    hide Batch, Inv, AccInv, Load, Process, Height, Top, AddBlocks, Exact, Processing, NothingLost;
    var next := Top(ix) + 1;
    LoadOk(cfg, w, ix);
    BatchEnd(w, ripe, unripe, blocks, next, n);
    var k, tail := RipePart(cfg, w, ripe, unripe, env, Load(ix), blocks, next, n);
    var (r, stop) := Process(cfg, ripe, unripe, env, Load(ix), blocks);
    if !tail {
      StoppedEarly(cfg, w, unripe, ix, blocks, n, k, r, stop);
    } else {
      var acc := AddBlocks(cfg, w, Load(ix), next, n);
      AddBlocksKeeps(cfg, w, Load(ix), next, n);
      Leave(cfg, w, acc, next + n);
      Shape(cfg, ripe, unripe, env, acc, blocks[n..], next + n);
      if r.chunks == acc.chunks {
        StoppedEarly(cfg, w, unripe, ix, blocks, n, n, r, stop);
      } else {
        WentOn(cfg, w, ripe, unripe, env, ix, blocks, n, acc);
      }
    }
  }

  lemma WentOn(cfg: Settings, w: World, ripe: map<nat, seq<string>>, unripe: set<nat>, env: Env, ix: Index,
               blocks: seq<nat>, n: nat, acc: Acc)
    requires cfg.perChunk >= 1 && Faithful(w) && n <= |blocks| && ix.chunks <= acc.chunks
    requires AccInv(cfg, w, acc, Top(ix) + 1 + n) && Unripe(ripe, blocks[n..], Top(ix) + 1 + n)
    requires forall b :: b in blocks[n..] ==> b in blocks && b <= Top(ix) + |blocks|
    requires Process(cfg, ripe, unripe, env, acc, blocks[n..]).0.chunks != acc.chunks
    ensures var (r, stop) := Process(cfg, ripe, unripe, env, acc, blocks[n..]);
      Processing(cfg, w, unripe, ix, blocks, n, r, stop)
  {
    hide Inv, AccInv, Process, Height, Top, Exact, NothingLost, Unripe, Faithful;
    var t := Top(ix) + 1 + n;
    var r := Process(cfg, ripe, unripe, env, acc, blocks[n..]).0;
    Leave(cfg, w, acc, t);
    Shape(cfg, ripe, unripe, env, acc, blocks[n..], t);
    ExactIf(cfg, w, ripe, unripe, env, acc, blocks[n..], t);
    if NothingLost(cfg, w, unripe, t, Height(r.chunks)) {
      SoundIf(cfg, w, ripe, unripe, env, acc, blocks[n..], t);
    }
    if Inv(cfg, w, Index(r.chunks, multiset{})) {
      OnlyIf(cfg, w, ripe, unripe, env, acc, blocks[n..], t);
    }
  }

  // ---- A completed call ----

  lemma StageIsWritable(cfg: Settings, w: World, ix: Index, table: seq<Record>)
    requires cfg.perChunk >= 1 && Recordable(w) && Inv(cfg, w, ix) && multiset(table) == ix.stage
    ensures forall r :: r in table ==> Writable(r)
  {
    hide Inv, Writable;
    RecordableIsFaithful(w);
    forall r | r in table ensures Writable(r) {
      assert r in ix.stage;
      StageIsExact(cfg, w, ix, r);
      assert r in w(r.block);
    }
  }

  // Reading back the stage that a call has written gives the appearances that were gathered.
  lemma WrittenStage(cfg: Settings, w: World, ix: Index, table: seq<Record>, d: Disc)
    requires cfg.perChunk >= 1 && Recordable(w) && Inv(cfg, w, ix) && multiset(table) == ix.stage != multiset{}
    requires d.finalized == ix.chunks && d.staging == map[NameOf(ix) := StageLines(table)]
    ensures OneStage(d, Some(NameOf(ix))) && View(d, Some(NameOf(ix))) == ix
  {
    hide Inv, Recordable, Writable, StageLines, Kept, Canonical, Height, MaxBlock;
    StageIsWritable(cfg, w, ix, table);
    StageRoundTrip(table);
    StageIsCanonical(table);
  }

  // The name of a stage file.
  ghost function NameOf(ix: Index): FileRange {
    FileRange(Height(ix.chunks) + 1, MaxBlock(ix.stage))
  }

  // The disc after a call that got as far as writing the stage, or had none to write.
  lemma StageLeft(cfg: Settings, w: World, env: Env, acc: Acc, d: Disc) returns (fn': Option<FileRange>)
    requires cfg.perChunk >= 1 && Recordable(w) && d.finalized == acc.chunks
    requires acc.recs != multiset{} ==> Inv(cfg, w, Index(acc.chunks, acc.recs))
    requires StageStep(env, acc.recs) != Removed && (acc.recs != multiset{} ==> StageStep(env, acc.recs) == Written)
    requires StageChanged(env, acc, Success, map[], d.staging)
    ensures OneStage(d, fn') && View(d, fn') == Index(acc.chunks, acc.recs)
    ensures fn' == (if acc.recs == multiset{} then None else Some(NewStage(acc)))
  {
    hide Inv, Recordable, StageLines, Kept, Height, MaxBlock;
    NoLines();
    if acc.recs == multiset{} {
      fn' := None;
    } else {
      fn' := Some(NewStage(acc));
      var table :| multiset(table) == acc.recs && d.staging == map[][NewStage(acc) := StageLines(table)];
      WrittenStage(cfg, w, Index(acc.chunks, acc.recs), table, d);
    }
  }

  // ---- A call that nothing disturbs ----

  ghost predicate Undisturbed(env: Env, b: nat) {
    b !in env.interruptBefore && b !in env.chunkWriteFails && b !in env.chunkNotifyFails
  }

  ghost predicate MayBeMissing(env: Env, b: nat) {
    env.allowMissing || b in env.noAddresses
  }

  lemma {:induction false} CalmProcess(cfg: Settings, ripe: map<nat, seq<string>>, unripe: set<nat>, env: Env,
                                       acc: Acc, blocks: seq<nat>)
    requires forall b :: b in blocks ==> Undisturbed(env, b)
    requires forall b :: b in blocks && b !in unripe && b !in ripe ==> MayBeMissing(env, b)
    ensures Process(cfg, ripe, unripe, env, acc, blocks).1 == Success
    decreases |blocks|
  {
    hide AddBlock, Found;
    if |blocks| != 0 {
      var b := blocks[0];
      assert b in blocks;
      CalmProcess(cfg, ripe, unripe, env, if b in unripe then acc else AddBlock(cfg, acc, b, Found(ripe, b)),
                  blocks[1..]);
    }
  }

  // What stops the loop for good.
  lemma {:induction false} StopCause(cfg: Settings, ripe: map<nat, seq<string>>, unripe: set<nat>, env: Env,
                                     acc: Acc, blocks: seq<nat>)
    requires cfg.perChunk >= 1 && |acc.recs| < cfg.perChunk
    ensures var (r, stop) := Process(cfg, ripe, unripe, env, acc, blocks);
      && |r.recs| < cfg.perChunk
      && (stop == Cancelled ==> exists b :: b in blocks && b in env.interruptBefore)
      && (stop == Critical ==> exists b :: b in blocks && b in env.chunkWriteFails)
    decreases |blocks|
  {
    hide AddBlock, Found, Process;
    if |blocks| == 0 {
      NothingToProcess(cfg, ripe, unripe, env, acc);
    } else {
      var b := blocks[0];
      assert b in blocks && forall x :: x in blocks[1..] ==> x in blocks;
      ProcessStep(cfg, ripe, unripe, env, acc, blocks);
      AddBlockShape(cfg, acc, b, Found(ripe, b));
      var next := if b in unripe then acc else AddBlock(cfg, acc, b, Found(ripe, b));
      StopCause(cfg, ripe, unripe, env, next, blocks[1..]);
    }
  }

  lemma CallCause(cfg: Settings, ripe: map<nat, seq<string>>, unripe: set<nat>, env: Env, blocks: seq<nat>,
                  before: Disc, fn: Option<FileRange>, after: Disc, outcome: Outcome)
    requires cfg.perChunk >= 1 && blocks != [] && (fn.Some? ==> fn.value in before.staging)
    requires |Kept(StageContents(before, fn))| < cfg.perChunk
    requires Result(cfg, ripe, unripe, env, blocks, before, fn, after, outcome)
    ensures outcome == Cancelled ==>
      (exists b :: b in blocks && b in env.interruptBefore) || env.interruptAtRecord < cfg.perChunk
    ensures outcome == Critical ==> exists b :: b in blocks && b in env.chunkWriteFails
  {
    hide Process, Kept, StageChanged, SpanOfFile, Height;
    StopCause(cfg, ripe, unripe, env, Start(before, fn, blocks[0]), blocks);
  }

  // ---- A call that errs or is cancelled ----

  ghost predicate AtMostOneStage(d: Disc, fn: Option<FileRange>) {
    if fn.None? then d.staging == map[] else d.staging.Keys == {fn.value}
  }

  // The new stage file was on disc already when its notification failed.
  ghost predicate OnlyNotificationFailed(cfg: Settings, ripe: map<nat, seq<string>>, unripe: set<nat>, env: Env,
                                         blocks: seq<nat>, before: Disc, fn: Option<FileRange>)
    requires blocks != [] && (fn.Some? ==> fn.value in before.staging)
  {
    var (acc, stop) := Process(cfg, ripe, unripe, env, Start(before, fn, blocks[0]), blocks);
    && !(fn.Some? && env.backupFails)
    && stop == Success && StageStep(env, acc.recs) == Written && env.stageNotifyFails
  }

  // Whatever happens, no chunk is ever dropped.
  lemma ChunksStay(cfg: Settings, ripe: map<nat, seq<string>>, unripe: set<nat>, env: Env, blocks: seq<nat>,
                   before: Disc, fn: Option<FileRange>, after: Disc, outcome: Outcome)
    requires blocks != [] && (fn.Some? ==> fn.value in before.staging)
    requires Result(cfg, ripe, unripe, env, blocks, before, fn, after, outcome)
    ensures before.finalized <= after.finalized
  {
  }

  // The stage always comes back as it was; before the first chunk, so does everything else. The
  // exception is a failed notification: then the old stage is put back beside the new one, which is
  // no change only if both have the same name.
  lemma Rollback(cfg: Settings, ripe: map<nat, seq<string>>, unripe: set<nat>, env: Env, blocks: seq<nat>,
                 before: Disc, fn: Option<FileRange>, after: Disc, outcome: Outcome)
    requires blocks != [] && AtMostOneStage(before, fn)
    requires Result(cfg, ripe, unripe, env, blocks, before, fn, after, outcome) && outcome != Success
    ensures before.finalized <= after.finalized
    ensures !OnlyNotificationFailed(cfg, ripe, unripe, env, blocks, before, fn) ==> after.staging == before.staging
    ensures OnlyNotificationFailed(cfg, ripe, unripe, env, blocks, before, fn) ==>
      var newFn := NewStage(Process(cfg, ripe, unripe, env, Start(before, fn, blocks[0]), blocks).0);
      && after.staging.Keys == before.staging.Keys + {newFn}
      && (after.staging == before.staging <==> fn == Some(newFn))
  {
    ChunksStay(cfg, ripe, unripe, env, blocks, before, fn, after, outcome);
    hide Process, Start, StageChanged, StageLines, Kept, SpanOfFile, Height, NewStage, StageStep, StageOutcome;
    if !(fn.Some? && env.backupFails) {
      var (acc, stop) := Process(cfg, ripe, unripe, env, Start(before, fn, blocks[0]), blocks);
      assert Remaining(before, fn) == map[];
      StageBack(env, acc, stop, before, fn, after);
    }
  }

  lemma StageBack(env: Env, acc: Acc, stop: Outcome, before: Disc, fn: Option<FileRange>, after: Disc)
    requires AtMostOneStage(before, fn)
    requires exists staging :: StageChanged(env, acc, stop, map[], staging) &&
               after.staging == if fn.Some? then staging[fn.value := before.staging[fn.value]] else staging
    ensures if stop == Success && StageStep(env, acc.recs) == Written
            then after.staging.Keys == before.staging.Keys + {NewStage(acc)}
              && (after.staging == before.staging <==> fn == Some(NewStage(acc)))
            else after.staging == before.staging
  {
    hide StageLines, Kept, Height, NewStage, StageStep;
    var staging :| StageChanged(env, acc, stop, map[], staging) &&
      after.staging == if fn.Some? then staging[fn.value := before.staging[fn.value]] else staging;
    if stop == Success && StageStep(env, acc.recs) == Written {
      assert staging.Keys == {NewStage(acc)};
      assert NewStage(acc) in after.staging;
    } else {
      assert staging == map[];
    }
  }

  lemma HasStage(cfg: Settings, w: World, d: Disc, fn: Option<FileRange>)
    requires Sound(cfg, w, d, fn)
    ensures AtMostOneStage(d, fn)
    ensures View(d, fn).stage == multiset{} <==> fn == None
  {
  }

  // ---- When the index on disc is still sound ----

  // Two stage files; or the old stage file beside a chunk that already contains it; or a chunk that
  // reaches too far.
  ghost predicate Damaged(cfg: Settings, w: World, unripe: set<nat>, last: nat,
                          before: Disc, fn: Option<FileRange>, after: Disc) {
    || |after.staging| > 1
    || (fn.Some? && fn.value in after.staging && after.finalized != before.finalized)
    || Overreach(cfg, w, unripe, last, after.finalized)
  }

  lemma TwoStages(cfg: Settings, w: World, d: Disc, f: Option<FileRange>)
    requires |d.staging| > 1
    ensures !Sound(cfg, w, d, f)
  {
    hide Inv, StageOk;
    assert |d.staging| == |d.staging.Keys|;
  }

  lemma StaleStage(cfg: Settings, w: World, before: Disc, fn: FileRange, after: Disc, f: Option<FileRange>)
    requires OneStage(before, Some(fn)) && fn in after.staging && Height(after.finalized) != Height(before.finalized)
    ensures !Sound(cfg, w, after, f)
  {
    hide Inv, Height, MaxBlock, Canonical;
  }

  lemma NoStage(cfg: Settings, w: World, d: Disc, f: Option<FileRange>)
    requires d.staging == map[]
    ensures OneStage(d, None) && View(d, None) == Index(d.finalized, multiset{})
    ensures Sound(cfg, w, d, f) ==> f == None && Inv(cfg, w, Index(d.finalized, multiset{}))
    ensures Top(View(d, None)) == Height(d.finalized)
  {
    hide Inv, Height;
    NoLines();
  }

  ghost predicate Verdict(cfg: Settings, w: World, unripe: set<nat>, last: nat,
                          before: Disc, fn: Option<FileRange>, after: Disc, fn': Option<FileRange>)
    requires Sound(cfg, w, before, fn)
  {
    && (Damaged(cfg, w, unripe, last, before, fn, after) ==> Unsound(cfg, w, after))
    && (!Damaged(cfg, w, unripe, last, before, fn, after) ==>
          Sound(cfg, w, after, fn') && Top(View(before, fn)) <= Top(View(after, fn')))
  }

  // The loop has completed and the stage has been written, if there was one to write.
  lemma StageDone(cfg: Settings, w: World, unripe: set<nat>, env: Env, blocks: seq<nat>, n: nat, acc: Acc,
                  before: Disc, fn: Option<FileRange>, after: Disc)
    returns (fn': Option<FileRange>)
    requires cfg.perChunk >= 1 && Recordable(w) && Sound(cfg, w, before, fn) && n <= |blocks|
    requires Top(View(before, fn)) + |blocks| < NOPOSN
    requires Processing(cfg, w, unripe, View(before, fn), blocks, n, acc, Success)
    requires after.finalized == acc.chunks && StageChanged(env, acc, Success, map[], after.staging)
    requires StageStep(env, acc.recs) != Removed && (acc.recs != multiset{} ==> StageStep(env, acc.recs) == Written)
    ensures Verdict(cfg, w, unripe, Top(View(before, fn)) + n, before, fn, after, fn')
    ensures Height(after.finalized) <= Top(View(before, fn)) + n ==>
      && Sound(cfg, w, after, fn') && View(after, fn') == Round(cfg, w, View(before, fn), n)
    ensures OneStage(after, fn')
  {
    hide Inv, Recordable, StageLines, Kept, Height, MaxBlock, Round, Top, StageOk, NothingLost, Exact, StageStep,
         StageChanged;
    var ix := View(before, fn);
    RecordableIsFaithful(w);
    RoundKeepsInv(cfg, w, ix, n);
    RoundProgress(cfg, w, ix, n);
    fn' := StageLeft(cfg, w, env, acc, after);
    if acc.recs == multiset{} {
      StageGone(env, acc, after);
      NoStage(cfg, w, after, None);
      forall f ensures Sound(cfg, w, after, f) ==> f == None && Inv(cfg, w, Index(after.finalized, multiset{})) {
        NoStage(cfg, w, after, f);
      }
      assert Index(acc.chunks, acc.recs) == Index(acc.chunks, multiset{});
    } else {
      NewName(before, fn, after, fn');
    }
    NoOverreach(cfg, w, unripe, Top(ix) + n, acc.chunks);
    HeightBelowTop(ix);
  }

  lemma NoOverreach(cfg: Settings, w: World, unripe: set<nat>, last: nat, chunks: seq<Chunk>)
    ensures Height(chunks) <= last ==> !Overreach(cfg, w, unripe, last, chunks)
  {
  }

  lemma HeightBelowTop(ix: Index)
    ensures Height(ix.chunks) <= Top(ix)
  {
  }

  lemma StageGone(env: Env, acc: Acc, d: Disc)
    requires acc.recs == multiset{} && StageChanged(env, acc, Success, map[], d.staging)
    ensures d.staging == map[]
  {
  }

  // Two well-named stage files with the same name belong to equally high chunks.
  lemma NewName(before: Disc, fn: Option<FileRange>, after: Disc, fn': Option<FileRange>)
    requires OneStage(before, fn) && OneStage(after, fn')
    ensures |after.staging| <= 1
    ensures fn.Some? && fn.value in after.staging ==> Height(after.finalized) == Height(before.finalized)
  {
    hide Height, MaxBlock, Canonical;
    assert |after.staging| == |after.staging.Keys|;
  }

  // The stage files are as they were.
  lemma StagePutBack(cfg: Settings, w: World, unripe: set<nat>, blocks: seq<nat>, n: nat, acc: Acc, stop: Outcome,
                     before: Disc, fn: Option<FileRange>, after: Disc)
    requires cfg.perChunk >= 1 && Recordable(w) && Sound(cfg, w, before, fn) && n <= |blocks|
    requires Top(View(before, fn)) + |blocks| < NOPOSN
    requires Processing(cfg, w, unripe, View(before, fn), blocks, n, acc, stop)
    requires after.finalized == acc.chunks && after.staging == before.staging
    ensures Verdict(cfg, w, unripe, Top(View(before, fn)) + n, before, fn, after, fn)
    ensures fn.Some? && !Damaged(cfg, w, unripe, Top(View(before, fn)) + n, before, fn, after) ==> after == before
  {
    hide Inv, Recordable, Kept, Height, MaxBlock, Round, Top, StageOk, NothingLost, Exact;
    var ix := View(before, fn);
    HeightBelowTop(ix);
    NoOverreach(cfg, w, unripe, Top(ix) + n, acc.chunks);
    OneFile(before, fn);
    if fn.None? {
      NoStage(cfg, w, before, None);
      NoStage(cfg, w, after, None);
      HeightIsMonotone(before.finalized, after.finalized);
      forall f ensures Sound(cfg, w, after, f) ==> f == None && Inv(cfg, w, Index(after.finalized, multiset{})) {
        NoStage(cfg, w, after, f);
      }
    } else if after.finalized != before.finalized {
      forall f ensures !Sound(cfg, w, after, f) {
        StaleStage(cfg, w, before, fn.value, after, f);
      }
    }
  }

  lemma OneFile(d: Disc, fn: Option<FileRange>)
    requires OneStage(d, fn)
    ensures |d.staging| <= 1 && (fn.Some? ==> fn.value in d.staging)
  {
    hide StageOk;
    assert |d.staging| == |d.staging.Keys|;
  }

  // The old stage file is put back beside the new one.
  lemma BothStages(cfg: Settings, w: World, unripe: set<nat>, blocks: seq<nat>, n: nat, acc: Acc,
                   before: Disc, fn: FileRange, newFn: FileRange, after: Disc)
    requires cfg.perChunk >= 1 && Recordable(w) && Sound(cfg, w, before, Some(fn)) && n <= |blocks|
    requires Top(View(before, Some(fn))) + |blocks| < NOPOSN
    requires Processing(cfg, w, unripe, View(before, Some(fn)), blocks, n, acc, Success) && acc.recs != multiset{}
    requires newFn == NewStage(acc) && after.finalized == acc.chunks
    requires after.staging.Keys == {fn, newFn} && (fn == newFn ==> after.staging == before.staging)
    ensures Verdict(cfg, w, unripe, Top(View(before, Some(fn))) + n, before, Some(fn), after, Some(fn))
    ensures Damaged(cfg, w, unripe, Top(View(before, Some(fn))) + n, before, Some(fn), after) <==> fn != newFn
    ensures fn == newFn ==> after == before
  {
    hide Inv, Recordable, Kept, MaxBlock, Round, Top, NothingLost, Exact, Canonical, Height;
    assert |after.staging| == |after.staging.Keys|;
    if fn == newFn {
      HeightBelowTop(View(before, Some(fn)));
      StagePutBack(cfg, w, unripe, blocks, n, acc, Success, before, Some(fn), after);
    } else {
      assert |{fn, newFn}| == 2;
      forall f ensures !Sound(cfg, w, after, f) {
        TwoStages(cfg, w, after, f);
      }
    }
  }

  // What the loop of a call does, from its result.
  lemma ResultOfLoop(cfg: Settings, w: World, ripe: map<nat, seq<string>>, unripe: set<nat>, env: Env,
                     blocks: seq<nat>, n: nat,
                     before: Disc, fn: Option<FileRange>, after: Disc, outcome: Outcome)
    returns (acc: Acc, stop: Outcome)
    requires cfg.perChunk >= 1 && Recordable(w) && Sound(cfg, w, before, fn)
    requires blocks != [] && Batch(w, ripe, unripe, blocks, Top(View(before, fn)) + 1, n)
    requires fn.Some? ==> fn.value in before.staging
    requires Result(cfg, ripe, unripe, env, blocks, before, fn, after, outcome) && !(fn.Some? && env.backupFails)
    ensures (acc, stop) == Process(cfg, ripe, unripe, env, Start(before, fn, blocks[0]), blocks)
    ensures Processing(cfg, w, unripe, View(before, fn), blocks, n, acc, stop) && after.finalized == acc.chunks
    ensures outcome == if stop != Success then stop else StageOutcome(env, acc.recs)
    ensures outcome == Success ==> StageChanged(env, acc, Success, map[], after.staging)
    ensures outcome != Success && fn.None? ==> StageChanged(env, acc, stop, map[], after.staging)
  {
    hide Batch, Inv, Process, Height, MaxBlock, StageOk, Top, StageLines, Kept, Recordable, Processing, StageChanged,
         Start;
    var next := Top(View(before, fn)) + 1;
    RecordableIsFaithful(w);
    BatchEnd(w, ripe, unripe, blocks, next, n);
    StartIsLoad(before, fn);
    Processed(cfg, w, ripe, unripe, env, View(before, fn), blocks, n);
    var r := Process(cfg, ripe, unripe, env, Start(before, fn, blocks[0]), blocks);
    acc, stop := r.0, r.1;
    assert Remaining(before, fn) == map[];
  }

  // Every call, whatever fails or interrupts it, leaves a sound index or one of three kinds of damage.
  // An undamaged index is that of the round, or what it was, unless a chunk reaches beyond the ripe blocks.
  ghost predicate Judged(cfg: Settings, w: World, unripe: set<nat>, env: Env, blocks: seq<nat>, n: nat,
                         before: Disc, fn: Option<FileRange>, after: Disc, outcome: Outcome, staged: bool,
                         fn': Option<FileRange>)
    requires Sound(cfg, w, before, fn)
  {
    var last := Top(View(before, fn)) + n;
    && Verdict(cfg, w, unripe, last, before, fn, after, fn')
    && (!Damaged(cfg, w, unripe, last, before, fn, after) && Height(after.finalized) <= last ==>
          if outcome == Success || (fn.None? && staged)
          then Sound(cfg, w, after, fn') && View(after, fn') == Round(cfg, w, View(before, fn), n)
          else fn' == fn && after.staging == before.staging && (fn.Some? ==> after == before))
    && Height(after.finalized) <= Top(View(before, fn)) + |blocks|
    // what damage takes
    && (|after.staging| > 1 ==> fn.Some? && staged && outcome != Success)
    && (after.finalized != before.finalized && fn.Some? && fn.value in after.staging ==> outcome != Success)
    && (Height(after.finalized) > last ==> exists s :: s in blocks && s > last && s !in unripe && cfg.snap(s))
  }

  lemma JudgeDone(cfg: Settings, w: World, unripe: set<nat>, env: Env, blocks: seq<nat>, n: nat, acc: Acc,
                  before: Disc, fn: Option<FileRange>, after: Disc, outcome: Outcome)
    returns (fn': Option<FileRange>)
    requires cfg.perChunk >= 1 && Recordable(w) && Sound(cfg, w, before, fn) && n <= |blocks|
    requires Top(View(before, fn)) + |blocks| < NOPOSN
    requires Processing(cfg, w, unripe, View(before, fn), blocks, n, acc, Success)
    requires after.finalized == acc.chunks && StageChanged(env, acc, Success, map[], after.staging)
    requires StageStep(env, acc.recs) != Removed && (acc.recs != multiset{} ==> StageStep(env, acc.recs) == Written)
    requires outcome == Success || fn.None?
    ensures Judged(cfg, w, unripe, env, blocks, n, before, fn, after, outcome, outcome != Success, fn')
    ensures acc.recs != multiset{} && fn.None? ==>
      !Damaged(cfg, w, unripe, Top(View(before, fn)) + n, before, fn, after)
  {
    hide Inv, Height, MaxBlock, Top, Kept, Recordable, StageChanged, NothingLost, Exact, Round, Canonical, StageStep,
         StageOk;
    NoOverreach(cfg, w, unripe, Top(View(before, fn)) + n, acc.chunks);
    HeightBelowTop(View(before, fn));
    fn' := StageDone(cfg, w, unripe, env, blocks, n, acc, before, fn, after);
    NewName(before, fn, after, fn');
  }

  lemma JudgePutBack(cfg: Settings, w: World, unripe: set<nat>, env: Env, blocks: seq<nat>, n: nat, acc: Acc,
                     stop: Outcome,
                     before: Disc, fn: Option<FileRange>, after: Disc, outcome: Outcome)
    requires cfg.perChunk >= 1 && Recordable(w) && Sound(cfg, w, before, fn) && n <= |blocks|
    requires Top(View(before, fn)) + |blocks| < NOPOSN
    requires Processing(cfg, w, unripe, View(before, fn), blocks, n, acc, stop)
    requires after.finalized == acc.chunks && after.staging == before.staging && outcome != Success
    ensures Judged(cfg, w, unripe, env, blocks, n, before, fn, after, outcome, false, fn)
  {
    hide Inv, Height, MaxBlock, Top, Kept, Recordable, NothingLost, Exact, Round, StageOk;
    OneFile(before, fn);
    StagePutBack(cfg, w, unripe, blocks, n, acc, stop, before, fn, after);
  }

  // Nothing has been touched.
  lemma JudgeUntouched(cfg: Settings, w: World, unripe: set<nat>, env: Env, blocks: seq<nat>, n: nat,
                       d: Disc, fn: Option<FileRange>, outcome: Outcome)
    requires Sound(cfg, w, d, fn) && outcome != Success
    ensures Judged(cfg, w, unripe, env, blocks, n, d, fn, d, outcome, false, fn)
  {
    hide Inv, Height, MaxBlock, Top, Kept, NothingLost, StageOk;
    OneFile(d, fn);
    HeightBelowTop(View(d, fn));
    NoOverreach(cfg, w, unripe, Top(View(d, fn)) + n, d.finalized);
  }

  lemma JudgeBoth(cfg: Settings, w: World, unripe: set<nat>, env: Env, blocks: seq<nat>, n: nat, acc: Acc,
                  before: Disc, fn: FileRange, after: Disc, outcome: Outcome)
    requires cfg.perChunk >= 1 && Recordable(w) && Sound(cfg, w, before, Some(fn)) && n <= |blocks|
    requires Top(View(before, Some(fn))) + |blocks| < NOPOSN
    requires Processing(cfg, w, unripe, View(before, Some(fn)), blocks, n, acc, Success) && acc.recs != multiset{}
    requires after.finalized == acc.chunks && outcome != Success
    requires after.staging.Keys == {fn, NewStage(acc)} && (fn == NewStage(acc) ==> after.staging == before.staging)
    ensures Judged(cfg, w, unripe, env, blocks, n, before, Some(fn), after, outcome, true, Some(fn))
    ensures Damaged(cfg, w, unripe, Top(View(before, Some(fn))) + n, before, Some(fn), after) <==> fn != NewStage(acc)
  {
    hide Inv, Height, MaxBlock, Top, Kept, Recordable, NothingLost, Exact, Round, StageOk, NewStage;
    BothStages(cfg, w, unripe, blocks, n, acc, before, fn, NewStage(acc), after);
  }

  lemma SoundUnlessDamaged(cfg: Settings, w: World, ripe: map<nat, seq<string>>, unripe: set<nat>, env: Env,
                           blocks: seq<nat>,
                           n: nat, before: Disc, fn: Option<FileRange>, after: Disc, outcome: Outcome)
    returns (fn': Option<FileRange>)
    requires cfg.perChunk >= 1 && Recordable(w)
    requires Sound(cfg, w, before, fn) && (fn.Some? ==> fn.value in before.staging)
    requires blocks != [] && Batch(w, ripe, unripe, blocks, Top(View(before, fn)) + 1, n)
    requires Top(View(before, fn)) + |blocks| < NOPOSN
    requires Result(cfg, ripe, unripe, env, blocks, before, fn, after, outcome)
    ensures var staged := OnlyNotificationFailed(cfg, ripe, unripe, env, blocks, before, fn);
      && Judged(cfg, w, unripe, env, blocks, n, before, fn, after, outcome, staged, fn')
      // a failed notification is harmless if and only if there was no stage file, or one of the same name
      && (staged ==>
            var newFn := NewStage(Process(cfg, ripe, unripe, env, Start(before, fn, blocks[0]), blocks).0);
            (Damaged(cfg, w, unripe, Top(View(before, fn)) + n, before, fn, after) <==> fn.Some? && fn.value != newFn))
  {
    hide Batch, Inv, Process, Height, MaxBlock, Top, StageLines, Kept, Recordable, NothingLost, Exact, Round, Canonical,
         Start, NewStage, Sound, Judged, Damaged, Processing;
    BatchEnd(w, ripe, unripe, blocks, Top(View(before, fn)) + 1, n);
    fn' := fn;
    if fn.Some? && env.backupFails {
      JudgeUntouched(cfg, w, unripe, env, blocks, n, before, fn, outcome);
    } else {
      var acc, stop := ResultOfLoop(cfg, w, ripe, unripe, env, blocks, n, before, fn, after, outcome);
      if outcome == Success {
        fn' := JudgeDone(cfg, w, unripe, env, blocks, n, acc, before, fn, after, outcome);
      } else {
        HasStage(cfg, w, before, fn);
        Rollback(cfg, ripe, unripe, env, blocks, before, fn, after, outcome);
        if !OnlyNotificationFailed(cfg, ripe, unripe, env, blocks, before, fn) {
          JudgePutBack(cfg, w, unripe, env, blocks, n, acc, stop, before, fn, after, outcome);
        } else if fn.None? {
          fn' := JudgeDone(cfg, w, unripe, env, blocks, n, acc, before, fn, after, outcome);
        } else {
          JudgeBoth(cfg, w, unripe, env, blocks, n, acc, before, fn.value, after, outcome);
        }
      }
    }
  }

  // What decides before the call whether it will damage the index: how far the loop gets (`Process`),
  // whether the stage is written and its notification fails, and the names of the old and new stage.
  ghost predicate WillDamage(cfg: Settings, w: World, ripe: map<nat, seq<string>>, unripe: set<nat>, env: Env,
                             blocks: seq<nat>, n: nat, before: Disc, fn: Option<FileRange>)
    requires blocks != [] && (fn.Some? ==> fn.value in before.staging)
  {
    var (acc, stop) := Process(cfg, ripe, unripe, env, Start(before, fn, blocks[0]), blocks);
    var fails := stop != Success || StageOutcome(env, acc.recs) != Success;
    && !(fn.Some? && env.backupFails)
    && (|| Overreach(cfg, w, unripe, Top(View(before, fn)) + n, acc.chunks)
        || (fn.Some? && fails &&
            if OnlyNotificationFailed(cfg, ripe, unripe, env, blocks, before, fn) then fn.value != NewStage(acc)
            else acc.chunks != before.finalized))
  }

  lemma DamageIsForeseen(cfg: Settings, w: World, ripe: map<nat, seq<string>>, unripe: set<nat>, env: Env,
                         blocks: seq<nat>, n: nat, before: Disc, fn: Option<FileRange>, after: Disc, outcome: Outcome)
    requires cfg.perChunk >= 1 && Recordable(w)
    requires Sound(cfg, w, before, fn) && (fn.Some? ==> fn.value in before.staging)
    requires blocks != [] && Batch(w, ripe, unripe, blocks, Top(View(before, fn)) + 1, n)
    requires Top(View(before, fn)) + |blocks| < NOPOSN
    requires Result(cfg, ripe, unripe, env, blocks, before, fn, after, outcome)
    ensures Unsound(cfg, w, after) <==> WillDamage(cfg, w, ripe, unripe, env, blocks, n, before, fn)
  {
    hide Batch, Inv, Process, Height, MaxBlock, Top, Recordable, NothingLost, Start, NewStage, Sound, Unsound,
         Processing, StageChanged, StageStep, StageOutcome, Judged, Damaged, Overreach, Result;
    var last := Top(View(before, fn)) + n;
    var fn' := SoundUnlessDamaged(cfg, w, ripe, unripe, env, blocks, n, before, fn, after, outcome);
    var staged := OnlyNotificationFailed(cfg, ripe, unripe, env, blocks, before, fn);
    JudgedIsExact(cfg, w, unripe, env, blocks, n, before, fn, after, outcome, staged, fn');
    HasStage(cfg, w, before, fn);
    StagingDecides(cfg, w, unripe, last, before, fn, after);
    if fn.Some? && env.backupFails {
      Untouched(cfg, w, ripe, unripe, env, blocks, last, before, fn, after, outcome);
    } else {
      var acc, stop := ResultOfLoop(cfg, w, ripe, unripe, env, blocks, n, before, fn, after, outcome);
      StagedRests(env, acc.recs);
      if acc.recs != multiset{} {
        NoneFarWithRest(cfg, w, unripe, View(before, fn), blocks, n, acc, stop);
      }
      if outcome != Success {
        Rollback(cfg, ripe, unripe, env, blocks, before, fn, after, outcome);
      }
    }
  }

  lemma StagingDecides(cfg: Settings, w: World, unripe: set<nat>, last: nat,
                       before: Disc, fn: Option<FileRange>, after: Disc)
    requires AtMostOneStage(before, fn)
    ensures after.staging == before.staging ==>
      (Damaged(cfg, w, unripe, last, before, fn, after) <==>
        (fn.Some? && after.finalized != before.finalized) || Overreach(cfg, w, unripe, last, after.finalized))
    ensures |after.staging| <= 1 && (fn.Some? && fn.value in after.staging ==> after.finalized == before.finalized) ==>
      (Damaged(cfg, w, unripe, last, before, fn, after) <==> Overreach(cfg, w, unripe, last, after.finalized))
  {
    hide Overreach;
    assert |before.staging| == |before.staging.Keys|;
  }

  lemma Untouched(cfg: Settings, w: World, ripe: map<nat, seq<string>>, unripe: set<nat>, env: Env, blocks: seq<nat>,
                  last: nat, before: Disc, fn: Option<FileRange>, after: Disc, outcome: Outcome)
    requires blocks != [] && (fn.Some? ==> fn.value in before.staging) && fn.Some? && env.backupFails
    requires Result(cfg, ripe, unripe, env, blocks, before, fn, after, outcome)
    requires Sound(cfg, w, before, fn) && last >= Top(View(before, fn))
    ensures after == before && !Overreach(cfg, w, unripe, last, after.finalized)
  {
    hide Height, MaxBlock, Overreach, Inv;
    HeightBelowTop(View(before, fn));
    NoOverreach(cfg, w, unripe, last, before.finalized);
  }

  lemma NoneFarWithRest(cfg: Settings, w: World, unripe: set<nat>, ix: Index, blocks: seq<nat>, n: nat, acc: Acc,
                        stop: Outcome)
    requires Processing(cfg, w, unripe, ix, blocks, n, acc, stop) && acc.recs != multiset{}
    ensures !Overreach(cfg, w, unripe, Top(ix) + n, acc.chunks)
  {
    hide Height, Top, Overreach, Inv, Exact;
    NoOverreach(cfg, w, unripe, Top(ix) + n, acc.chunks);
  }

  lemma StagedRests(env: Env, recs: multiset<Record>)
    ensures StageStep(env, recs) == Written ==> recs != multiset{}
    ensures StageStep(env, recs) == Written && env.stageNotifyFails ==> StageOutcome(env, recs) != Success
  {
  }

  lemma JudgedIsExact(cfg: Settings, w: World, unripe: set<nat>, env: Env, blocks: seq<nat>, n: nat, before: Disc,
                      fn: Option<FileRange>, after: Disc, outcome: Outcome, staged: bool, fn': Option<FileRange>)
    requires Sound(cfg, w, before, fn)
    requires Judged(cfg, w, unripe, env, blocks, n, before, fn, after, outcome, staged, fn')
    ensures Unsound(cfg, w, after) <==> Damaged(cfg, w, unripe, Top(View(before, fn)) + n, before, fn, after)
    ensures |after.staging| > 1 ==> fn.Some? && staged && outcome != Success
    ensures after.finalized != before.finalized && fn.Some? && fn.value in after.staging ==> outcome != Success
  {
    hide Sound, Damaged, Top, Height, Round;
  }

  // A chunk that reaches beyond the ripe blocks is cut at a fileless snap point. The chunks alone stay
  // exact if and only if none of the blocks in between turns out to have appearances.
  lemma UnripeSnapSkipsBlocks(cfg: Settings, w: World, ripe: map<nat, seq<string>>, unripe: set<nat>, env: Env,
                              blocks: seq<nat>,
                              n: nat, before: Disc, fn: Option<FileRange>, after: Disc, outcome: Outcome)
    requires cfg.perChunk >= 1 && Recordable(w)
    requires Sound(cfg, w, before, fn) && (fn.Some? ==> fn.value in before.staging)
    requires blocks != [] && Batch(w, ripe, unripe, blocks, Top(View(before, fn)) + 1, n)
    requires Result(cfg, ripe, unripe, env, blocks, before, fn, after, outcome)
    requires Height(after.finalized) > Top(View(before, fn)) + n
    ensures exists s :: s in blocks && s > Top(View(before, fn)) + n && s !in unripe && cfg.snap(s)
    ensures Exact(w, Index(after.finalized, multiset{})) <==>
      forall b :: Top(View(before, fn)) + n < b <= Height(after.finalized) ==> w(b) == multiset{}
    ensures outcome == Success ==> after.staging == map[]
  {
    hide Batch, Inv, Process, Height, MaxBlock, Top, StageLines, Kept, Recordable, NothingLost, Exact, Round,
         Canonical, StageOk, Start;
    HeightBelowTop(View(before, fn));
    if !(fn.Some? && env.backupFails) {
      var acc, stop := ResultOfLoop(cfg, w, ripe, unripe, env, blocks, n, before, fn, after, outcome);
    }
  }

  // No snap point among the fileless blocks of the unripe end.
  ghost predicate NoFilelessSnap(cfg: Settings, unripe: set<nat>, blocks: seq<nat>, last: nat) {
    forall b :: b in blocks && b > last && b !in unripe ==> !cfg.snap(b)
  }

  // A completed call turns the index on disc into the next round's index.
  lemma CompletedRound(cfg: Settings, w: World, ripe: map<nat, seq<string>>, unripe: set<nat>, env: Env,
                       blocks: seq<nat>, n: nat,
                       before: Disc, fn: Option<FileRange>, after: Disc)
    returns (fn': Option<FileRange>)
    requires cfg.perChunk >= 1 && Recordable(w)
    requires Sound(cfg, w, before, fn) && (fn.Some? ==> fn.value in before.staging)
    requires blocks != [] && Batch(w, ripe, unripe, blocks, Top(View(before, fn)) + 1, n)
    requires Top(View(before, fn)) + |blocks| < NOPOSN
    requires NoFilelessSnap(cfg, unripe, blocks, Top(View(before, fn)) + n)
    requires Result(cfg, ripe, unripe, env, blocks, before, fn, after, Success)
    ensures Sound(cfg, w, after, fn') && View(after, fn') == Round(cfg, w, View(before, fn), n)
  {
    hide Batch, Inv, Process, Height, MaxBlock, Top, Kept, Recordable, NothingLost, Round, StageOk, Result, Start,
         OnlyNotificationFailed;
    NoOverreach(cfg, w, unripe, Top(View(before, fn)) + n, after.finalized);
    fn' := SoundUnlessDamaged(cfg, w, ripe, unripe, env, blocks, n, before, fn, after, Success);
  }

  // An interrupted call leaves the index as it was, or, once it has cut a chunk, exact if and only if
  // there was no stage to put back.
  lemma StoppedRound(cfg: Settings, w: World, ripe: map<nat, seq<string>>, unripe: set<nat>, env: Env,
                     blocks: seq<nat>, n: nat,
                     before: Disc, fn: Option<FileRange>, after: Disc, outcome: Outcome)
    requires cfg.perChunk >= 1 && Recordable(w)
    requires Sound(cfg, w, before, fn) && (fn.Some? ==> fn.value in before.staging)
    requires blocks != [] && Batch(w, ripe, unripe, blocks, Top(View(before, fn)) + 1, n)
    requires NoFilelessSnap(cfg, unripe, blocks, Top(View(before, fn)) + n)
    requires Result(cfg, ripe, unripe, env, blocks, before, fn, after, outcome) && outcome != Success
    requires !OnlyNotificationFailed(cfg, ripe, unripe, env, blocks, before, fn)
    ensures after.staging == before.staging
    ensures after.finalized == before.finalized ==> after == before
    ensures after.finalized != before.finalized ==> (Exact(w, View(after, fn)) <==> fn == None)
  {
    hide Batch, Inv, AccInv, Load, Process, Height, MaxBlock, StageOk, Top, AddBlocks, Kept, Recordable, Exact,
         StageChanged,
         StageOutcome, Start, NoFilelessSnap, Unripe;
    HasStage(cfg, w, before, fn);
    Rollback(cfg, ripe, unripe, env, blocks, before, fn, after, outcome);
    hide OnlyNotificationFailed;
    var ix := View(before, fn);
    if after.finalized != before.finalized {
      RecordableIsFaithful(w);
      BatchEnd(w, ripe, unripe, blocks, Top(ix) + 1, n);
      StartIsLoad(before, fn);
      var k := ChunksOfRound(cfg, w, ripe, unripe, env, ix, blocks, n);
      LoadChunks(ix);
      assert after.finalized == AddBlocks(cfg, w, Load(ix), Top(ix) + 1, k).chunks;
      assert View(after, fn) == Index(after.finalized, ix.stage);
      LongerChunks(cfg, w, ix, k);
      StoppedAfterChunk(cfg, w, ix, k);
    }
  }

  lemma LongerChunks(cfg: Settings, w: World, ix: Index, k: nat)
    requires cfg.perChunk >= 1 && Faithful(w) && Inv(cfg, w, ix)
    requires AddBlocks(cfg, w, Load(ix), Top(ix) + 1, k).chunks != ix.chunks
    ensures |AddBlocks(cfg, w, Load(ix), Top(ix) + 1, k).chunks| > |ix.chunks|
  {
    hide Inv, AccInv, AddBlocks, Top;
    LoadOk(cfg, w, ix);
    AddBlocksKeeps(cfg, w, Load(ix), Top(ix) + 1, k);
  }

  // Wherever the loop stops it has written the chunks of a shorter round.
  lemma ChunksOfRound(cfg: Settings, w: World, ripe: map<nat, seq<string>>, unripe: set<nat>, env: Env, ix: Index,
                      blocks: seq<nat>, n: nat)
    returns (k: nat)
    requires cfg.perChunk >= 1 && Faithful(w) && Inv(cfg, w, ix) && Batch(w, ripe, unripe, blocks, Top(ix) + 1, n)
    requires NoFilelessSnap(cfg, unripe, blocks, Top(ix) + n)
    ensures k <= n
    ensures Process(cfg, ripe, unripe, env, Load(ix), blocks).0.chunks ==
            AddBlocks(cfg, w, Load(ix), Top(ix) + 1, k).chunks
  {
    hide Batch, Inv, AccInv, Load, Process, Height, Top, AddBlocks;
    var next := Top(ix) + 1;
    LoadOk(cfg, w, ix);
    BatchEnd(w, ripe, unripe, blocks, next, n);
    var tail;
    k, tail := RipePart(cfg, w, ripe, unripe, env, Load(ix), blocks, next, n);
    if tail {
      AddBlocksKeeps(cfg, w, Load(ix), next, n);
      Leave(cfg, w, AddBlocks(cfg, w, Load(ix), next, n), next + n);
      UnripeTail(cfg, ripe, unripe, env, AddBlocks(cfg, w, Load(ix), next, n), blocks[n..], next + n);
    }
  }
}
