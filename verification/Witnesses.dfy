// Concrete inputs on which the index loses what one might expect it to keep.
module Witnesses {
  import opened Ranges
  import opened StageFile
  import opened Index
  import opened Consolidation
  import opened Rounds
  import opened Text
  import opened Wrappers

  // One appearance in each of the blocks one and two.
  function At(b: nat): Record {
    Record("a", b, 0)
  }

  function TwoBlocks(): World {
    (b: nat) => if b == 1 || b == 2 then multiset{At(b)} else multiset{}
  }

  function Genesis(): seq<Chunk> {
    [Chunk(FileRange(0, 0), multiset{})]
  }

  function NoFaults(): Env {
    Env({}, true, false, {}, {}, {}, 10, false, false)
  }

  lemma GenesisFacts()
    ensures Height(Genesis()) == 0 && Total(Genesis()) == multiset{}
  {
    Pushed([], Genesis()[0]);
    assert [] + [Genesis()[0]] == Genesis();
  }

  lemma MaxOfOne(r: Record)
    ensures MaxBlock(multiset{r}) == MinBlock(multiset{r}) == r.block
  {
    var x :| x in multiset{r} && x.block == MaxBlock(multiset{r});
  }

  // The index after block one has been staged.
  function Staged(): Index {
    Index(Genesis(), multiset{At(1)})
  }

  lemma StagedIsSound(cfg: Settings)
    requires cfg.perChunk >= 2 && !cfg.snap(1)
    ensures Inv(cfg, TwoBlocks(), Staged()) && Top(Staged()) == 1
  {
    var w := TwoBlocks();
    GenesisFacts();
    MaxOfOne(At(1));
    assert SumBelow(w, 1) == SumBelow(w, 0) + w(0) == multiset{};
    assert SumBelow(w, 2) == SumBelow(w, 1) + w(1) == multiset{At(1)};
  }

  // Two appearances a chunk. The round over block two cuts a chunk with both, is interrupted, and
  // leaves the old stage beside it.
  lemma StoppedRoundRepeats()
    ensures var cfg, w, ix := Settings(2, (b: nat) => false), TwoBlocks(), Staged();
      var chunks := AddBlocks(cfg, w, Load(ix), Top(ix) + 1, 1).chunks;
      && Inv(cfg, w, ix) && ix.stage != multiset{} && |chunks| > |ix.chunks|
      && !Exact(w, Index(chunks, ix.stage))
  {
    var cfg, w, ix := Settings(2, (b: nat) => false), TwoBlocks(), Staged();
    StagedIsSound(cfg);
    AddBlockShape(cfg, Load(ix), 2, w(2));
    assert AddBlocks(cfg, w, Load(ix), 2, 1) == AddBlocks(cfg, w, AddBlock(cfg, Load(ix), 2, w(2)), 3, 0);
    StoppedAfterChunk(cfg, w, ix, 1);
  }

  // Nothing has appearances and nothing is a snap point: a batch of five blocks is scraped in vain.
  lemma EmptyBatchStays()
    ensures var cfg, w, ix := Settings(2, (b: nat) => false), (b: nat) => multiset{}, Index(Genesis(), multiset{});
      Inv(cfg, w, ix) && Top(Round(cfg, w, ix, 5)) == Top(ix) == 0
  {
    var cfg, w: World, ix := Settings(2, (b: nat) => false), (b: nat) => multiset{}, Index(Genesis(), multiset{});
    GenesisFacts();
    GenesisInv(cfg, w);
    RoundProgress(cfg, w, ix, 5);
  }

  // ---- On disc ----

  lemma Rows(table: seq<Record>)
    requires forall r :: r in table ==> r == At(1) || r == At(2)
    ensures Kept(StageLines(table)) == multiset(table) && Canonical(StageLines(table))
  {
    AtIsWritable(1);
    AtIsWritable(2);
    StageRoundTrip(table);
    StageIsCanonical(table);
  }

  lemma AtIsWritable(b: nat)
    requires b <= 2
    ensures Writable(At(b))
  {
    assert ToLower("a") == "a";
  }

  function OneStaged(): Disc {
    Disc(Genesis(), map[FileRange(1, 1) := StageLines([At(1)])])
  }

  function BothStaged(): Disc {
    Disc(Genesis(), map[FileRange(1, 1) := StageLines([At(1)]), FileRange(1, 2) := StageLines([At(1), At(2)])])
  }

  lemma OneStagedIsSound(cfg: Settings)
    requires cfg.perChunk >= 2 && !cfg.snap(1)
    ensures Sound(cfg, TwoBlocks(), OneStaged(), Some(FileRange(1, 1)))
    ensures View(OneStaged(), Some(FileRange(1, 1))) == Staged()
  {
    Rows([At(1)]);
    assert multiset([At(1)]) == multiset{At(1)};
    GenesisFacts();
    MaxOfOne(At(1));
    StagedIsSound(cfg);
  }

  lemma MaxOfTwo()
    ensures MaxBlock(multiset{At(1), At(2)}) == 2
  {
    var recs := multiset{At(1), At(2)};
    assert At(2) in recs;
    var x :| x in recs && x.block == MaxBlock(recs);
  }

  // A result, from what the loop leaves and what becomes of the stage.
  lemma ResultOf(cfg: Settings, ripe: map<nat, seq<string>>, env: Env, blocks: seq<nat>, before: Disc,
                 fn: Option<FileRange>,
                 after: Disc, outcome: Outcome, acc: Acc, staging: map<FileRange, seq<string>>)
    requires blocks != [] && (fn.Some? ==> fn.value in before.staging) && !env.backupFails
    requires Process(cfg, ripe, {}, env, Start(before, fn, blocks[0]), blocks) == (acc, Success)
    requires after.finalized == acc.chunks && outcome == StageOutcome(env, acc.recs)
    requires StageChanged(env, acc, Success, Remaining(before, fn), staging)
    requires after.staging ==
      if outcome != Success && fn.Some? then staging[fn.value := before.staging[fn.value]] else staging
    ensures Result(cfg, ripe, {}, env, blocks, before, fn, after, outcome)
  {
    hide Process, Start, StageChanged, Remaining, StageOutcome;
  }

  // Reading a block that does not fill a chunk.
  lemma Reads(cfg: Settings, ripe: map<nat, seq<string>>, env: Env, start: Acc, blocks: seq<nat>, i: nat, acc: Acc,
              found: multiset<Record>)
    requires i < |blocks| && OnTrack(cfg, ripe, {}, env, start, blocks, i, acc)
    requires env.interruptBefore == {} && env.allowMissing && Found(ripe, blocks[i]) == found
    requires !cfg.snap(blocks[i]) && |acc.recs| + |found| < cfg.perChunk
    ensures OnTrack(cfg, ripe, {}, env, start, blocks, i + 1,
                    Acc(acc.chunks, acc.recs + found, acc.range.(last := blocks[i])))
  {
    hide OnTrack, AddBlock, Found, Process;
    TrackStep(cfg, ripe, {}, env, start, blocks, i, acc);
    AddBlockShape(cfg, acc, blocks[i], found);
  }

  lemma Holding(b: nat)
    requires b == 1 || b == 2
    ensures Found(map[b := StageLines([At(b)])], b) == multiset{At(b)}
    ensures forall c :: c != b ==> Found(map[b := StageLines([At(b)])], c) == multiset{}
  {
    Rows([At(b)]);
    assert multiset([At(b)]) == multiset{At(b)};
  }

  // What the round over block two gathers.
  lemma GathersBoth(cfg: Settings, env: Env, ripe: map<nat, seq<string>>)
    requires cfg.perChunk >= 3 && !cfg.snap(2) && env.interruptBefore == {} && env.allowMissing
    requires ripe == map[2 := StageLines([At(2)])]
    ensures Process(cfg, ripe, {}, env, Start(OneStaged(), Some(FileRange(1, 1)), 2), [2]) ==
      (Acc(Genesis(), multiset{At(1), At(2)}, Start(OneStaged(), Some(FileRange(1, 1)), 2).range.(last := 2)), Success)
  {
    hide Process, StageLines, Found, OnTrack, SpanOfFile, Kept;
    Rows([At(1)]);
    Holding(2);
    var start := Start(OneStaged(), Some(FileRange(1, 1)), 2);
    assert start.recs == multiset{At(1)};
    assert start.recs + multiset{At(2)} == multiset{At(1), At(2)};
    StartOnTrack(cfg, ripe, {}, env, start, [2]);
    Reads(cfg, ripe, env, start, [2], 0, start, multiset{At(2)});
    EndOfTrack(cfg, ripe, {}, env, start, [2], Acc(Genesis(), multiset{At(1), At(2)}, start.range.(last := 2)));
  }

  lemma NewStageBoth(range: FileRange)
    ensures NewStage(Acc(Genesis(), multiset{At(1), At(2)}, range)) == FileRange(1, 2)
  {
    MaxOfTwo();
    GenesisFacts();
  }

  lemma BothIsUnsound(cfg: Settings)
    ensures |BothStaged().staging| == 2 && Unsound(cfg, TwoBlocks(), BothStaged())
  {
    hide StageLines, Genesis, Sound;
    assert BothStaged().staging.Keys == {FileRange(1, 1), FileRange(1, 2)};
    assert |BothStaged().staging| == |BothStaged().staging.Keys|;
    forall f ensures !Sound(cfg, TwoBlocks(), BothStaged(), f) {
      TwoStages(cfg, TwoBlocks(), BothStaged(), f);
    }
  }

  // The notification about the new stage file fails, and the old file is put back beside it.
  lemma FailedNotificationLeavesTwo(cfg: Settings, ripe: map<nat, seq<string>>, env: Env)
    requires cfg == Settings(3, (b: nat) => false) && ripe == map[2 := StageLines([At(2)])]
    requires env == NoFaults().(stageNotifyFails := true)
    ensures Sound(cfg, TwoBlocks(), OneStaged(), Some(FileRange(1, 1)))
    ensures Result(cfg, ripe, {}, env, [2], OneStaged(), Some(FileRange(1, 1)), BothStaged(), Failed)
    ensures |BothStaged().staging| == 2 && Unsound(cfg, TwoBlocks(), BothStaged())
  {
    hide Process, Start, Sound, StageLines, Genesis, Height, MaxBlock, Result, Unsound, NewStage;
    OneStagedIsSound(cfg);
    GathersBoth(cfg, env, ripe);
    BothIsUnsound(cfg);
    var before, fn := OneStaged(), FileRange(1, 1);
    var acc := Acc(Genesis(), multiset{At(1), At(2)}, Start(before, Some(fn), 2).range.(last := 2));
    NewStageBoth(acc.range);
    var table := [At(1), At(2)];
    var staging := Remaining(before, Some(fn))[FileRange(1, 2) := StageLines(table)];
    assert multiset(table) == acc.recs;
    assert BothStaged().staging == staging[fn := before.staging[fn]];
    ResultOf(cfg, ripe, env, [2], before, Some(fn), BothStaged(), Failed, acc, staging);
  }

  // Block one is ripe. Block two has no appearances when it is scraped, nor has block three, a snap
  // point. Once ripe, block two has one after all, but the chunk has passed it.
  function Overrun(): Disc {
    Disc(Genesis() + [Chunk(FileRange(1, 3), multiset{At(1)})], map[])
  }

  function Fresh(): Disc {
    Disc(Genesis(), map[])
  }

  lemma FreshStart()
    ensures Start(Fresh(), None, 1) == Acc(Genesis(), multiset{}, FileRange(1, 1))
  {
    GenesisFacts();
    NoLines();
  }

  lemma SnapCutsBlockOne(cfg: Settings, ripe: map<nat, seq<string>>)
    requires cfg == Settings(3, (b: nat) => b == 3) && ripe == map[1 := StageLines([At(1)])]
    ensures Process(cfg, ripe, {}, NoFaults(), Start(Fresh(), None, 1), [1, 2, 3]) ==
      (Acc(Overrun().finalized, multiset{}, FileRange(4, 4)), Success)
  {
    hide Process, AddBlock, Start, Genesis, StageLines, Found, OnTrack;
    FreshStart();
    Holding(1);
    var env, blocks := NoFaults(), [1, 2, 3];
    var acc0 := Start(Fresh(), None, 1);
    StartOnTrack(cfg, ripe, {}, env, acc0, blocks);
    Reads(cfg, ripe, env, acc0, blocks, 0, acc0, multiset{At(1)});
    assert multiset{} + multiset{At(1)} == multiset{At(1)};
    var acc1 := Acc(Genesis(), multiset{At(1)}, FileRange(1, 1));
    Reads(cfg, ripe, env, acc0, blocks, 1, acc1, multiset{});
    assert multiset{At(1)} + multiset{} == multiset{At(1)};
    var acc2 := Acc(Genesis(), multiset{At(1)}, FileRange(1, 2));
    TrackStep(cfg, ripe, {}, env, acc0, blocks, 2, acc2);
    AddBlockShape(cfg, acc2, 3, multiset{});
    EndOfTrack(cfg, ripe, {}, env, acc0, blocks, Acc(Overrun().finalized, multiset{}, FileRange(4, 4)));
  }

  lemma FreshIsSound(cfg: Settings)
    requires cfg.perChunk >= 1
    ensures Sound(cfg, TwoBlocks(), Fresh(), None)
  {
    GenesisFacts();
    NoLines();
    GenesisInv(cfg, TwoBlocks());
  }

  lemma OverrunIsUnsound(cfg: Settings)
    ensures Unsound(cfg, TwoBlocks(), Overrun())
  {
    hide Sound, Genesis;
    forall f ensures !Sound(cfg, TwoBlocks(), Overrun(), f) {
      NoStage(cfg, TwoBlocks(), Overrun(), f);
      NotExact(TwoBlocks());
    }
  }

  lemma FilelessSnapLosesBlock(cfg: Settings, ripe: map<nat, seq<string>>)
    requires cfg == Settings(3, (b: nat) => b == 3) && ripe == map[1 := StageLines([At(1)])]
    ensures Sound(cfg, TwoBlocks(), Fresh(), None)
    ensures Result(cfg, ripe, {}, NoFaults(), [1, 2, 3], Fresh(), None, Overrun(), Success)
    ensures Unsound(cfg, TwoBlocks(), Overrun())
  {
    hide Process, Start, Genesis, Sound, Unsound, Result, StageLines;
    FreshIsSound(cfg);
    OverrunIsUnsound(cfg);
    SnapCutsBlockOne(cfg, ripe);
    var acc := Acc(Overrun().finalized, multiset{}, FileRange(4, 4));
    ResultOf(cfg, ripe, NoFaults(), [1, 2, 3], Fresh(), None, Overrun(), Success, acc, map[]);
  }

  lemma NotExact(w: World)
    requires w == TwoBlocks()
    ensures !Exact(w, Index(Overrun().finalized, multiset{}))
  {
    GenesisFacts();
    Pushed(Genesis(), Chunk(FileRange(1, 3), multiset{At(1)}));
    var ix := Index(Overrun().finalized, multiset{});
    hide Genesis, Total, Height, SumBelow;
    SumCount(w, Top(ix) + 1, At(2));
    assert (Total(ix.chunks) + ix.stage)[At(2)] == 0;
  }
}
