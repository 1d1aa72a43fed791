// The index as a value: finished chunks plus one stage. A round adds blocks one by one and cuts a
// chunk at a snap point or when enough appearances have gathered.
module Index {
  import opened Ranges
  import opened StageFile

  // `snap` tells the snap points. Nothing below depends on where they lie.
  datatype Settings = Settings(perChunk: nat, snap: nat -> bool)

  // BlazeManager.IsSnap
  function Grid(firstSnap: nat, snapTo: nat): nat -> bool
    requires snapTo >= 1
  {
    (block: nat) => block >= firstSnap && block % snapTo == 0
  }

  datatype Chunk = Chunk(range: FileRange, apps: multiset<Record>)

  datatype Index = Index(chunks: seq<Chunk>, stage: multiset<Record>)

  // The loop state of `Consolidate`: chunks written, appearances gathered, and the range they span.
  datatype Acc = Acc(chunks: seq<Chunk>, recs: multiset<Record>, range: FileRange)

  // The kept appearances of every ripe block.
  type World = nat -> multiset<Record>

  ghost predicate Faithful(w: World) {
    forall b, r :: r in w(b) ==> r.block == b
  }

  function Total(chunks: seq<Chunk>): multiset<Record> {
    if chunks == [] then multiset{} else Total(chunks[..|chunks| - 1]) + chunks[|chunks| - 1].apps
  }

  // The `Finalized` height of the meta data: the largest block any chunk's name ends in.
  function Height(chunks: seq<Chunk>): nat {
    if chunks == [] then 0
    else
      var before, last := Height(chunks[..|chunks| - 1]), chunks[|chunks| - 1].range.last;
      if last > before then last else before
  }

  function SumBelow(w: World, n: nat): multiset<Record> {
    if n == 0 then multiset{} else SumBelow(w, n - 1) + w(n - 1)
  }

  ghost function MaxBlock(recs: multiset<Record>): (m: nat)
    ensures forall r :: r in recs ==> r.block <= m
    ensures recs != multiset{} ==> exists r :: r in recs && r.block == m
    ensures recs == multiset{} ==> m == 0
    decreases |recs|
  {
    if recs == multiset{} then 0
    else
      var r :| r in recs;
      var rest := recs - multiset{r};
      var m := MaxBlock(rest);
      assert forall x :: x in recs ==> x == r || x in rest;
      if r.block > m then r.block else m
  }

  ghost function MinBlock(recs: multiset<Record>): (m: nat)
    requires recs != multiset{}
    ensures forall r :: r in recs ==> m <= r.block
    ensures exists r :: r in recs && r.block == m
    decreases |recs|
  {
    var r :| r in recs;
    var rest := recs - multiset{r};
    assert forall x :: x in recs ==> x == r || x in rest;
    if rest == multiset{} then r.block
    else
      var m := MinBlock(rest);
      if r.block < m then r.block else m
  }

  // The last block the index knows about; scraping resumes one past it.
  ghost function Top(ix: Index): nat {
    var h, m := Height(ix.chunks), MaxBlock(ix.stage);
    if m > h then m else h
  }

  // ---- One round ----

  function AddBlock(cfg: Settings, acc: Acc, block: nat, found: multiset<Record>): (next: Acc)
    ensures acc.chunks <= next.chunks
  {
    var recs := acc.recs + found;
    var range := acc.range.(last := block);
    if cfg.snap(block) || |recs| >= cfg.perChunk then
      Acc(acc.chunks + [Chunk(range, recs)], multiset{}, FileRange(block + 1, block + 1))
    else
      Acc(acc.chunks, recs, range)
  }

  // A stage file brings its own range along; a brand new stage starts one past the last chunk.
  ghost function Load(ix: Index): (acc: Acc)
    ensures acc.chunks == ix.chunks && acc.recs == ix.stage
  {
    Acc(ix.chunks, ix.stage,
        if ix.stage == multiset{} then FileRange(Height(ix.chunks) + 1, Top(ix) + 1)
        else FileRange(MinBlock(ix.stage), MaxBlock(ix.stage)))
  }

  function AddBlocks(cfg: Settings, w: World, acc: Acc, next: nat, n: nat): Acc
    decreases n
  {
    if n == 0 then acc else AddBlocks(cfg, w, AddBlock(cfg, acc, next, w(next)), next + 1, n - 1)
  }

  // A successful round over `n` ripe blocks.
  ghost function Round(cfg: Settings, w: World, ix: Index, n: nat): Index
  {
    var acc := AddBlocks(cfg, w, Load(ix), Top(ix) + 1, n);
    Index(acc.chunks, acc.recs)
  }

  ghost function AfterRounds(cfg: Settings, w: World, ix: Index, ns: seq<nat>): Index
    decreases |ns|
  {
    if |ns| == 0 then ix else AfterRounds(cfg, w, Round(cfg, w, ix, ns[0]), ns[1..])
  }

  // ---- What every round keeps ----

  // Fewer than `perChunk` appearances without the last block; at least that many unless snapped.
  ghost predicate SizeOk(cfg: Settings, w: World, c: Chunk)
  {
    && w(c.range.last) <= c.apps
    && |c.apps - w(c.range.last)| < cfg.perChunk
    && (!cfg.snap(c.range.last) ==> |c.apps| >= cfg.perChunk)
  }

  // The chunk for block zero holds the pre-funded accounts, however many there are.
  ghost predicate ChunkOk(cfg: Settings, w: World, c: Chunk)
  {
    && c.range.WellFormed()
    && (forall r :: r in c.apps ==> c.range.Contains(r.block))
    && (forall s :: c.range.first <= s < c.range.last ==> !cfg.snap(s))
    && (c.range.last > 0 ==> SizeOk(cfg, w, c))
  }

  ghost predicate ChunksOk(cfg: Settings, w: World, chunks: seq<Chunk>)
  {
    && (forall i :: 0 <= i < |chunks| ==> ChunkOk(cfg, w, chunks[i]))
    && (forall i, j :: 0 <= i < j < |chunks| ==> chunks[i].range.EarlierThan(chunks[j].range))
  }

  ghost predicate Exact(w: World, ix: Index) {
    Total(ix.chunks) + ix.stage == SumBelow(w, Top(ix) + 1)
  }

  ghost predicate Inv(cfg: Settings, w: World, ix: Index)
  {
    && Exact(w, ix)
    && ChunksOk(cfg, w, ix.chunks)
    && (forall r :: r in ix.stage ==> Height(ix.chunks) < r.block)
    && |ix.stage| < cfg.perChunk
    && (forall s :: Height(ix.chunks) < s <= Top(ix) ==> !cfg.snap(s))
  }

  // The same inside a round, when every block below `next` has been added.
  ghost predicate AccInv(cfg: Settings, w: World, acc: Acc, next: nat)
  {
    && Total(acc.chunks) + acc.recs == SumBelow(w, next)
    && ChunksOk(cfg, w, acc.chunks)
    && Height(acc.chunks) < acc.range.first <= next
    && (forall r :: r in acc.recs ==> acc.range.first <= r.block < next)
    && |acc.recs| < cfg.perChunk
    && (forall s :: Height(acc.chunks) < s < next ==> !cfg.snap(s))
  }

  lemma {:induction false} HeightIsMax(chunks: seq<Chunk>)
    ensures forall i :: 0 <= i < |chunks| ==> chunks[i].range.last <= Height(chunks)
    ensures chunks != [] ==> exists i :: 0 <= i < |chunks| && chunks[i].range.last == Height(chunks)
  {
    if chunks != [] {
      var before := chunks[..|chunks| - 1];
      HeightIsMax(before);
      if before != [] {
        var i :| 0 <= i < |before| && before[i].range.last == Height(before);
        assert chunks[i] == before[i];
      }
      assert chunks[|chunks| - 1].range.last <= Height(chunks);
    }
  }

  lemma Pushed(chunks: seq<Chunk>, c: Chunk)
    ensures Total(chunks + [c]) == Total(chunks) + c.apps
    ensures Height(chunks + [c]) == if c.range.last > Height(chunks) then c.range.last else Height(chunks)
  {
  }

  lemma CutKeeps(cfg: Settings, w: World, chunks: seq<Chunk>, c: Chunk)
    requires ChunksOk(cfg, w, chunks) && ChunkOk(cfg, w, c) && Height(chunks) < c.range.first
    ensures ChunksOk(cfg, w, chunks + [c])
  {
    hide ChunkOk;
    HeightIsMax(chunks);
  }

  lemma CutChunkOk(cfg: Settings, w: World, acc: Acc, next: nat)
    requires cfg.perChunk >= 1 && Faithful(w) && AccInv(cfg, w, acc, next)
    requires cfg.snap(next) || |acc.recs + w(next)| >= cfg.perChunk
    ensures ChunkOk(cfg, w, Chunk(acc.range.(last := next), acc.recs + w(next)))
  {
  }

  lemma CutTotals(w: World, chunks: seq<Chunk>, recs: multiset<Record>, c: Chunk, next: nat)
    requires Total(chunks) + recs == SumBelow(w, next) && c.apps == recs + w(next)
    ensures Total(chunks + [c]) + multiset{} == SumBelow(w, next + 1)
  {
  }

  lemma CutBlock(cfg: Settings, w: World, acc: Acc, next: nat)
    requires cfg.perChunk >= 1 && Faithful(w) && AccInv(cfg, w, acc, next)
    requires cfg.snap(next) || |acc.recs + w(next)| >= cfg.perChunk
    ensures AccInv(cfg, w, AddBlock(cfg, acc, next, w(next)), next + 1)
    ensures Height(AddBlock(cfg, acc, next, w(next)).chunks) == next
  {
    hide SumBelow, Total, Height, ChunksOk, ChunkOk, Faithful;
    var c := Chunk(acc.range.(last := next), acc.recs + w(next));
    CutChunkOk(cfg, w, acc, next);
    CutTotals(w, acc.chunks, acc.recs, c, next);
    Pushed(acc.chunks, c);
    CutKeeps(cfg, w, acc.chunks, c);
  }

  lemma AddBlockKeeps(cfg: Settings, w: World, acc: Acc, next: nat)
    requires cfg.perChunk >= 1 && Faithful(w) && AccInv(cfg, w, acc, next)
    ensures AccInv(cfg, w, AddBlock(cfg, acc, next, w(next)), next + 1)
    ensures |AddBlock(cfg, acc, next, w(next)).chunks| > |acc.chunks| ==>
      Height(AddBlock(cfg, acc, next, w(next)).chunks) == next
  {
    hide ChunksOk;
    if cfg.snap(next) || |acc.recs + w(next)| >= cfg.perChunk {
      CutBlock(cfg, w, acc, next);
    }
  }

  lemma {:induction false} AddBlocksKeeps(cfg: Settings, w: World, acc: Acc, next: nat, n: nat)
    requires cfg.perChunk >= 1 && Faithful(w) && AccInv(cfg, w, acc, next)
    ensures AccInv(cfg, w, AddBlocks(cfg, w, acc, next, n), next + n)
    ensures acc.chunks <= AddBlocks(cfg, w, acc, next, n).chunks
    decreases n
  {
    hide AccInv, AddBlock;
    if n > 0 {
      AddBlockKeeps(cfg, w, acc, next);
      AddBlocksKeeps(cfg, w, AddBlock(cfg, acc, next, w(next)), next + 1, n - 1);
    }
  }

  // Resuming: the round starts from a consistent loop state.
  lemma LoadOk(cfg: Settings, w: World, ix: Index)
    requires cfg.perChunk >= 1 && Inv(cfg, w, ix)
    ensures AccInv(cfg, w, Load(ix), Top(ix) + 1)
  {
  }

  lemma {:induction false} SumCount(w: World, n: nat, r: Record)
    requires Faithful(w)
    ensures SumBelow(w, n)[r] == if r.block < n then w(r.block)[r] else 0
  {
    if n > 0 {
      SumCount(w, n - 1, r);
      assert w(n - 1)[r] > 0 ==> r in w(n - 1);
    }
  }

  lemma {:induction false} SumIsStable(w: World, m: nat, n: nat)
    requires m <= n
    ensures SumBelow(w, n) == SumBelow(w, m) <==> forall b :: m <= b < n ==> w(b) == multiset{}
    ensures |SumBelow(w, m)| <= |SumBelow(w, n)|
  {
    hide SumBelow;
    if m < n {
      SumIsStable(w, m, n - 1);
      SumStep(w, n);
      OnTopOfExact(SumBelow(w, n - 1), w(n - 1));
    }
  }

  lemma SumStep(w: World, n: nat)
    requires n > 0
    ensures SumBelow(w, n) == SumBelow(w, n - 1) + w(n - 1)
  {
  }

  lemma {:induction false} TotalMember(chunks: seq<Chunk>, r: Record)
    requires r in Total(chunks)
    ensures exists i :: 0 <= i < |chunks| && r in chunks[i].apps
  {
    var k := |chunks| - 1;
    if r in Total(chunks[..k]) {
      TotalMember(chunks[..k], r);
    }
  }

  // Blocks above the highest appearance left behind by a round are empty, so they may be scraped again.
  lemma TrailingBlocksAreEmpty(cfg: Settings, w: World, acc: Acc, next: nat, b: nat)
    requires cfg.perChunk >= 1 && Faithful(w) && AccInv(cfg, w, acc, next)
    requires Top(Index(acc.chunks, acc.recs)) < b < next
    ensures w(b) == multiset{}
  {
    if w(b) != multiset{} {
      var r :| r in w(b);
      SumCount(w, next, r);
      if r !in acc.recs {
        TotalMember(acc.chunks, r);
        HeightIsMax(acc.chunks);
      }
      assert false;
    }
  }

  lemma Settle(cfg: Settings, w: World, acc: Acc, next: nat)
    requires cfg.perChunk >= 1 && Faithful(w) && AccInv(cfg, w, acc, next)
    ensures Inv(cfg, w, Index(acc.chunks, acc.recs))
    ensures Top(Index(acc.chunks, acc.recs)) < next
  {
    var ix := Index(acc.chunks, acc.recs);
    forall b | Top(ix) + 1 <= b < next ensures w(b) == multiset{} {
      TrailingBlocksAreEmpty(cfg, w, acc, next, b);
    }
    SumIsStable(w, Top(ix) + 1, next);
  }

  lemma RoundKeepsInv(cfg: Settings, w: World, ix: Index, n: nat)
    requires cfg.perChunk >= 1 && Faithful(w) && Inv(cfg, w, ix)
    ensures Inv(cfg, w, Round(cfg, w, ix, n))
    ensures ix.chunks <= Round(cfg, w, ix, n).chunks
    ensures Top(Round(cfg, w, ix, n)) <= Top(ix) + n
  {
    hide Inv, AccInv, AddBlocks, Load, Top;
    LoadOk(cfg, w, ix);
    AddBlocksKeeps(cfg, w, Load(ix), Top(ix) + 1, n);
    Settle(cfg, w, AddBlocks(cfg, w, Load(ix), Top(ix) + 1, n), Top(ix) + 1 + n);
  }

  // Any number of rounds of any sizes: nothing lost, nothing indexed twice, every chunk in shape.
  lemma {:induction false} RunKeepsInv(cfg: Settings, w: World, ix: Index, ns: seq<nat>)
    requires cfg.perChunk >= 1 && Faithful(w) && Inv(cfg, w, ix)
    ensures Inv(cfg, w, AfterRounds(cfg, w, ix, ns))
    ensures Top(ix) <= Top(AfterRounds(cfg, w, ix, ns))
    ensures ix.chunks <= AfterRounds(cfg, w, ix, ns).chunks
    decreases |ns|
  {
    hide Inv, Round, Top;
    if |ns| != 0 {
      RoundKeepsInv(cfg, w, ix, ns[0]);
      RoundProgress(cfg, w, ix, ns[0]);
      RunKeepsInv(cfg, w, Round(cfg, w, ix, ns[0]), ns[1..]);
    }
  }

  // The index a fresh chain starts from: one chunk for block zero.
  lemma GenesisInv(cfg: Settings, w: World)
    requires cfg.perChunk >= 1 && Faithful(w)
    ensures Inv(cfg, w, Index([Chunk(FileRange(0, 0), w(0))], multiset{}))
  {
    var c := Chunk(FileRange(0, 0), w(0));
    Pushed([], c);
    assert [] + [c] == [c];
    assert SumBelow(w, 1) == SumBelow(w, 0) + w(0);
  }

  // ---- What the invariant means ----

  lemma {:induction false} TotalFromOne(chunks: seq<Chunk>, i: nat, r: Record)
    requires i < |chunks|
    requires forall j :: 0 <= j < |chunks| && j != i ==> r !in chunks[j].apps
    ensures Total(chunks)[r] == chunks[i].apps[r]
  {
    var k := |chunks| - 1;
    if i < k {
      TotalFromOne(chunks[..k], i, r);
    } else if r in Total(chunks[..k]) {
      TotalMember(chunks[..k], r);
    }
  }

  lemma AppIsInRange(cfg: Settings, w: World, ix: Index, i: nat, r: Record)
    requires Inv(cfg, w, ix) && i < |ix.chunks| && r in ix.chunks[i].apps
    ensures ix.chunks[i].range.Contains(r.block)
    ensures r !in ix.stage
  {
    hide Exact, Height, SizeOk;
    HeightIsMax(ix.chunks);
    assert ChunkOk(cfg, w, ix.chunks[i]);
  }

  lemma RangesAreOrdered(cfg: Settings, w: World, ix: Index, i: nat, j: nat)
    requires Inv(cfg, w, ix) && i < j < |ix.chunks|
    ensures ix.chunks[i].range.EarlierThan(ix.chunks[j].range)
    ensures ix.chunks[j].range.WellFormed() && ix.chunks[j].range.last <= Height(ix.chunks)
  {
    assert ChunkOk(cfg, w, ix.chunks[j]);
    HeightIsMax(ix.chunks);
  }

  // Each chunk holds exactly the appearances of the blocks its name covers, each as often as it occurs.
  lemma ChunkIsExact(cfg: Settings, w: World, ix: Index, i: nat, r: Record)
    requires cfg.perChunk >= 1 && Faithful(w) && Inv(cfg, w, ix) && i < |ix.chunks|
    ensures ix.chunks[i].apps[r] == if ix.chunks[i].range.Contains(r.block) then w(r.block)[r] else 0
  {
    hide ChunksOk;
    var c := ix.chunks[i];
    if c.range.Contains(r.block) {
      forall j | 0 <= j < |ix.chunks| && j != i ensures r !in ix.chunks[j].apps {
        if r in ix.chunks[j].apps {
          AppIsInRange(cfg, w, ix, j, r);
          if j < i { RangesAreOrdered(cfg, w, ix, j, i); } else { RangesAreOrdered(cfg, w, ix, i, j); }
          assert false;
        }
      }
      TotalFromOne(ix.chunks, i, r);
      HeightIsMax(ix.chunks);
      SumCount(w, Top(ix) + 1, r);
      assert r !in ix.stage;
    } else if r in c.apps {
      AppIsInRange(cfg, w, ix, i, r);
    }
  }

  // The stage holds exactly the appearances after the last chunk.
  lemma StageIsExact(cfg: Settings, w: World, ix: Index, r: Record)
    requires cfg.perChunk >= 1 && Faithful(w) && Inv(cfg, w, ix)
    ensures ix.stage[r] == if Height(ix.chunks) < r.block <= Top(ix) then w(r.block)[r] else 0
  {
    SumCount(w, Top(ix) + 1, r);
    HeightIsMax(ix.chunks);
    if r in Total(ix.chunks) {
      TotalMember(ix.chunks, r);
    }
    assert r.block <= Height(ix.chunks) ==> r !in ix.stage;
  }

  // An appearance below the last chunk's end is in some chunk.
  lemma IsFinalized(cfg: Settings, w: World, ix: Index, r: Record)
    requires Faithful(w) && Inv(cfg, w, ix) && r in w(r.block) && r.block <= Height(ix.chunks)
    ensures exists j :: 0 <= j < |ix.chunks| && r in ix.chunks[j].apps
  {
    hide ChunksOk;
    SumCount(w, Top(ix) + 1, r);
    assert r !in ix.stage;
    TotalMember(ix.chunks, r);
  }

  // A block in the gap between two consecutive chunks has no appearances.
  lemma GapsAreEmpty(cfg: Settings, w: World, ix: Index, i: nat, b: nat)
    requires cfg.perChunk >= 1 && Faithful(w) && Inv(cfg, w, ix) && i + 1 < |ix.chunks|
    requires ix.chunks[i].range.last < b < ix.chunks[i + 1].range.first
    ensures w(b) == multiset{}
  {
    hide Inv;
    if w(b) != multiset{} {
      var r :| r in w(b);
      RangesAreOrdered(cfg, w, ix, i, i + 1);
      IsFinalized(cfg, w, ix, r);
      var j :| 0 <= j < |ix.chunks| && r in ix.chunks[j].apps;
      AppIsInRange(cfg, w, ix, j, r);
      if j < i {
        RangesAreOrdered(cfg, w, ix, j, i);
      } else if i + 1 < j {
        RangesAreOrdered(cfg, w, ix, i + 1, j);
      }
      assert false;
    }
  }

  // If every block has an appearance the chunks tile the chain.
  lemma BusyChainTiles(cfg: Settings, w: World, ix: Index, i: nat)
    requires cfg.perChunk >= 1 && Faithful(w) && Inv(cfg, w, ix) && i + 1 < |ix.chunks|
    requires forall b: nat :: b <= Top(ix) ==> w(b) != multiset{}
    ensures ix.chunks[i].range.Precedes(ix.chunks[i + 1].range, true)
  {
    var a, c := ix.chunks[i].range, ix.chunks[i + 1].range;
    RangesAreOrdered(cfg, w, ix, i, i + 1);
    if a.last + 1 < c.first {
      GapsAreEmpty(cfg, w, ix, i, a.last + 1);
    }
  }

  // ---- Progress ----

  lemma {:induction false} NothingToAdd(cfg: Settings, w: World, acc: Acc, next: nat, n: nat)
    requires cfg.perChunk >= 1 && |acc.recs| < cfg.perChunk
    requires forall b :: next <= b < next + n ==> w(b) == multiset{} && !cfg.snap(b)
    ensures AddBlocks(cfg, w, acc, next, n).chunks == acc.chunks
    ensures AddBlocks(cfg, w, acc, next, n).recs == acc.recs
    decreases n
  {
    if n > 0 {
      assert acc.recs + w(next) == acc.recs;
      NothingToAdd(cfg, w, AddBlock(cfg, acc, next, w(next)), next + 1, n - 1);
    }
  }

  // A round never goes back, and moves on exactly when one of its ripe blocks has a kept appearance
  // or is a snap point. A batch of empty blocks without a snap point is scraped again for ever.
  lemma RoundProgress(cfg: Settings, w: World, ix: Index, n: nat)
    requires cfg.perChunk >= 1 && Faithful(w) && Inv(cfg, w, ix)
    ensures Top(ix) <= Top(Round(cfg, w, ix, n))
    ensures Top(ix) < Top(Round(cfg, w, ix, n)) <==>
      exists b :: Top(ix) < b <= Top(ix) + n && (w(b) != multiset{} || cfg.snap(b))
  {
    hide AddBlocks, Inv, AccInv, Load, Top;
    var next := Top(ix) + 1;
    var acc := AddBlocks(cfg, w, Load(ix), next, n);
    LoadOk(cfg, w, ix);
    AddBlocksKeeps(cfg, w, Load(ix), next, n);
    var ix' := Index(acc.chunks, acc.recs);
    if b :| Top(ix) < b <= Top(ix) + n && (w(b) != multiset{} || cfg.snap(b)) {
      ReachesBlock(cfg, w, acc, next + n, b);
    } else {
      StageIsSmall(cfg, w, ix);
      NothingToAdd(cfg, w, Load(ix), next, n);
      assert ix' == ix;
    }
  }

  // A block at which an index can stand.
  ghost predicate Busy(cfg: Settings, w: World, b: nat) {
    w(b) != multiset{} || cfg.snap(b)
  }

  lemma ChunkEndIsBusy(cfg: Settings, w: World, c: Chunk)
    requires ChunkOk(cfg, w, c) && c.range.last > 0
    ensures Busy(cfg, w, c.range.last)
  {
    assert w(c.range.last) == multiset{} ==> c.apps - w(c.range.last) == c.apps;
  }

  lemma TopIsBusy(cfg: Settings, w: World, ix: Index)
    requires cfg.perChunk >= 1 && Faithful(w) && Inv(cfg, w, ix) && Top(ix) > 0
    ensures Busy(cfg, w, Top(ix))
  {
    hide Total, SumBelow, ChunkOk;
    HeightIsMax(ix.chunks);
    if Height(ix.chunks) == Top(ix) {
      var i :| 0 <= i < |ix.chunks| && ix.chunks[i].range.last == Height(ix.chunks);
      ChunkEndIsBusy(cfg, w, ix.chunks[i]);
    } else {
      var r :| r in ix.stage && r.block == MaxBlock(ix.stage);
      StageIsExact(cfg, w, ix, r);
      assert r in w(r.block);
    }
  }

  // A round stops at the last busy block among its own, if there is one.
  lemma RoundStops(cfg: Settings, w: World, ix: Index, n: nat)
    requires cfg.perChunk >= 1 && Faithful(w) && Inv(cfg, w, ix)
    ensures var top := Top(Round(cfg, w, ix, n));
      && Top(ix) <= top <= Top(ix) + n
      && (top != Top(ix) ==> Busy(cfg, w, top))
      && (forall b :: Top(ix) < b <= Top(ix) + n && Busy(cfg, w, b) ==> b <= top)
  {
    hide AddBlocks, Inv, AccInv, Load, Top;
    var next := Top(ix) + 1;
    RoundKeepsInv(cfg, w, ix, n);
    RoundProgress(cfg, w, ix, n);
    if Top(Round(cfg, w, ix, n)) > 0 {
      TopIsBusy(cfg, w, Round(cfg, w, ix, n));
    }
    LoadOk(cfg, w, ix);
    AddBlocksKeeps(cfg, w, Load(ix), next, n);
    forall b | Top(ix) < b <= Top(ix) + n && Busy(cfg, w, b) ensures b <= Top(Round(cfg, w, ix, n)) {
      ReachesBlock(cfg, w, AddBlocks(cfg, w, Load(ix), next, n), next + n, b);
    }
  }

  // If the last block of a round has an appearance the index reaches it.
  lemma BusyRound(cfg: Settings, w: World, ix: Index, n: nat)
    requires cfg.perChunk >= 1 && Faithful(w) && Inv(cfg, w, ix)
    requires n > 0 && w(Top(ix) + n) != multiset{}
    ensures Top(Round(cfg, w, ix, n)) == Top(ix) + n
  {
    hide AddBlocks, Inv, AccInv, Load, Top;
    var next := Top(ix) + 1;
    LoadOk(cfg, w, ix);
    AddBlocksKeeps(cfg, w, Load(ix), next, n);
    ReachesBlock(cfg, w, AddBlocks(cfg, w, Load(ix), next, n), next + n, Top(ix) + n);
    RoundKeepsInv(cfg, w, ix, n);
  }

  lemma StageIsSmall(cfg: Settings, w: World, ix: Index)
    requires Inv(cfg, w, ix)
    ensures |ix.stage| < cfg.perChunk
  {
  }

  lemma ReachesBlock(cfg: Settings, w: World, acc: Acc, next: nat, b: nat)
    requires cfg.perChunk >= 1 && Faithful(w) && AccInv(cfg, w, acc, next)
    requires b < next && (w(b) != multiset{} || cfg.snap(b))
    ensures b <= Top(Index(acc.chunks, acc.recs))
  {
    hide ChunksOk;
    if Top(Index(acc.chunks, acc.recs)) < b && w(b) != multiset{} {
      TrailingBlocksAreEmpty(cfg, w, acc, next, b);
    }
  }

  lemma {:induction false} HeightIsMonotone(a: seq<Chunk>, b: seq<Chunk>)
    requires a <= b
    ensures Height(a) <= Height(b)
  {
    if |a| < |b| {
      HeightIsMonotone(a, b[..|b| - 1]);
    } else {
      assert a == b;
    }
  }

  // ---- Interrupted rounds ----

  // What is finished is exact by itself.
  lemma ChunksAreExact(cfg: Settings, w: World, acc: Acc, next: nat)
    requires cfg.perChunk >= 1 && Faithful(w) && AccInv(cfg, w, acc, next)
    ensures Total(acc.chunks) == SumBelow(w, Height(acc.chunks) + 1)
  {
    hide AccInv, Total, SumBelow, Height;
    forall r: Record ensures Total(acc.chunks)[r] == SumBelow(w, Height(acc.chunks) + 1)[r] {
      CountInChunks(cfg, w, acc, next, r);
    }
  }

  lemma CountInChunks(cfg: Settings, w: World, acc: Acc, next: nat, r: Record)
    requires cfg.perChunk >= 1 && Faithful(w) && AccInv(cfg, w, acc, next)
    ensures Total(acc.chunks)[r] == SumBelow(w, Height(acc.chunks) + 1)[r]
  {
    hide AccInv, Total, SumBelow, Height, Faithful;
    WhereIsIt(cfg, w, acc, next, r);
    SumCount(w, next, r);
    SumCount(w, Height(acc.chunks) + 1, r);
    assert (Total(acc.chunks) + acc.recs)[r] == SumBelow(w, next)[r];
  }

  // A record is finished if and only if its block is not above the last chunk.
  lemma WhereIsIt(cfg: Settings, w: World, acc: Acc, next: nat, r: Record)
    requires AccInv(cfg, w, acc, next)
    ensures Height(acc.chunks) < next && Total(acc.chunks) + acc.recs == SumBelow(w, next)
    ensures r in acc.recs ==> Height(acc.chunks) < r.block
    ensures r in Total(acc.chunks) ==> r.block <= Height(acc.chunks)
  {
    hide ChunksOk, Total, SumBelow, Height;
    if r in Total(acc.chunks) {
      BelowHeight(cfg, w, acc.chunks, r);
    }
  }

  lemma BelowHeight(cfg: Settings, w: World, chunks: seq<Chunk>, r: Record)
    requires ChunksOk(cfg, w, chunks) && r in Total(chunks)
    ensures r.block <= Height(chunks)
  {
    hide Total, Height, SizeOk;
    TotalMember(chunks, r);
    HeightIsMax(chunks);
    var i :| 0 <= i < |chunks| && r in chunks[i].apps;
    assert ChunkOk(cfg, w, chunks[i]);
  }

  lemma {:induction false} CutRaisesHeight(cfg: Settings, w: World, acc: Acc, next: nat, n: nat)
    requires cfg.perChunk >= 1 && Faithful(w) && AccInv(cfg, w, acc, next)
    requires |AddBlocks(cfg, w, acc, next, n).chunks| > |acc.chunks|
    ensures Height(AddBlocks(cfg, w, acc, next, n).chunks) >= next
    decreases n
  {
    hide AccInv, AddBlock;
    if n > 0 {
      var acc' := AddBlock(cfg, acc, next, w(next));
      AddBlockKeeps(cfg, w, acc, next);
      AddBlocksKeeps(cfg, w, acc', next + 1, n - 1);
      if |acc'.chunks| == |acc.chunks| {
        CutRaisesHeight(cfg, w, acc', next + 1, n - 1);
      } else {
        HeightIsMonotone(acc'.chunks, AddBlocks(cfg, w, acc', next + 1, n - 1).chunks);
      }
    }
  }

  // A round stopped after it wrote a chunk puts the old stage back although that chunk already
  // contains it. The index stays exact only when there was no stage.
  lemma StoppedAfterChunk(cfg: Settings, w: World, ix: Index, n: nat)
    requires cfg.perChunk >= 1 && Faithful(w) && Inv(cfg, w, ix)
    requires |AddBlocks(cfg, w, Load(ix), Top(ix) + 1, n).chunks| > |ix.chunks|
    ensures var stopped := Index(AddBlocks(cfg, w, Load(ix), Top(ix) + 1, n).chunks, ix.stage);
            Exact(w, stopped) <==> ix.stage == multiset{}
  {
    hide AddBlocks, Inv, AccInv, Load, Height, Total, SumBelow;
    var next := Top(ix) + 1;
    var acc := AddBlocks(cfg, w, Load(ix), next, n);
    LoadOk(cfg, w, ix);
    AddBlocksKeeps(cfg, w, Load(ix), next, n);
    CutRaisesHeight(cfg, w, Load(ix), next, n);
    ChunksAreExact(cfg, w, acc, next + n);
    assert Top(Index(acc.chunks, ix.stage)) == Height(acc.chunks);
    OnTopOfExact(Total(acc.chunks), ix.stage);
  }

  lemma OnTopOfExact(total: multiset<Record>, stage: multiset<Record>)
    ensures total + stage == total <==> stage == multiset{}
    ensures |total + stage| == |total| + |stage|
  {
    assert |total + stage| == |total| + |stage|;
  }
}
