// The end of a batch: blocks that are not ripe. One that left an unripe file is skipped; one without
// appearances left none and is taken for a ripe block, so that a chunk is cut if it is a snap point.
module UnripeEnd {
  import opened Ranges
  import opened StageFile
  import opened Index
  import opened Consolidation

  // Consecutive blocks from `t` on without ripe files.
  ghost predicate Unripe(ripe: map<nat, seq<string>>, blocks: seq<nat>, t: nat) {
    forall i :: 0 <= i < |blocks| ==> blocks[i] == t + i && blocks[i] !in ripe
  }

  lemma FirstUnripe(cfg: Settings, ripe: map<nat, seq<string>>, acc: Acc, blocks: seq<nat>, t: nat)
    requires cfg.perChunk >= 1 && |acc.recs| < cfg.perChunk && Height(acc.chunks) < t
    requires Unripe(ripe, blocks, t) && |blocks| > 0
    ensures blocks[0] == t && t in blocks && t !in ripe && Unripe(ripe, blocks[1..], t + 1)
    ensures forall b :: b in blocks[1..] ==> b in blocks
    ensures var c, next := Chunk(acc.range.(last := t), acc.recs), AddBlock(cfg, acc, t, Found(ripe, t));
      if cfg.snap(t)
      then next == Acc(acc.chunks + [c], multiset{}, FileRange(t + 1, t + 1))
        && Height(next.chunks) == t && Total(next.chunks) == Total(acc.chunks) + acc.recs
      else next == acc.(range := acc.range.(last := t))
  {
    AddBlockShape(cfg, acc, t, multiset{});
    assert acc.recs + multiset{} == acc.recs;
    Pushed(acc.chunks, Chunk(acc.range.(last := t), acc.recs));
  }

  // Either nothing is cut and nothing changes, or all that has gathered is in chunks, the last of which
  // ends with a snap point that has no unripe file.
  lemma {:induction false} Shape(cfg: Settings, ripe: map<nat, seq<string>>, unripe: set<nat>, env: Env,
                                 acc: Acc, blocks: seq<nat>, t: nat)
    requires cfg.perChunk >= 1 && |acc.recs| < cfg.perChunk && Height(acc.chunks) < t && Unripe(ripe, blocks, t)
    ensures var r := Process(cfg, ripe, unripe, env, acc, blocks).0;
      if r.chunks == acc.chunks then r.recs == acc.recs
      else
        var s := Height(r.chunks);
        && r.recs == multiset{} && Total(r.chunks) == Total(acc.chunks) + acc.recs
        && t <= s && s in blocks && s !in unripe && cfg.snap(s)
    decreases |blocks|
  {
    hide Process, AddBlock, Found, Height, Total, Unripe;
    if |blocks| == 0 {
      NothingToProcess(cfg, ripe, unripe, env, acc);
    } else {
      ProcessStep(cfg, ripe, unripe, env, acc, blocks);
      FirstUnripe(cfg, ripe, acc, blocks, t);
      if t in env.interruptBefore {
      } else if t in unripe {
        Shape(cfg, ripe, unripe, env, acc, blocks[1..], t + 1);
      } else if t in env.noAddresses || env.allowMissing {
        Shape(cfg, ripe, unripe, env, AddBlock(cfg, acc, t, Found(ripe, t)), blocks[1..], t + 1);
      }
    }
  }

  // No block from `t` to `last` turns out to have appearances, and no snap point among them was skipped.
  ghost predicate NothingLost(cfg: Settings, w: World, unripe: set<nat>, t: nat, last: nat) {
    forall b :: t <= b <= last ==> w(b) == multiset{} && (cfg.snap(b) ==> b !in unripe)
  }

  lemma StepAhead(cfg: Settings, w: World, unripe: set<nat>, acc: Acc, t: nat, last: nat)
    requires cfg.perChunk >= 1 && Faithful(w) && AccInv(cfg, w, acc, t)
    requires NothingLost(cfg, w, unripe, t, last) && t <= last
    ensures NothingLost(cfg, w, unripe, t + 1, last)
    ensures t in unripe ==> AccInv(cfg, w, acc, t + 1)
    ensures AccInv(cfg, w, AddBlock(cfg, acc, t, multiset{}), t + 1)
  {
    hide AddBlock, ChunksOk, Total;
    AddBlockKeeps(cfg, w, acc, t);
    assert SumBelow(w, t + 1) == SumBelow(w, t) + multiset{};
  }

  lemma Leave(cfg: Settings, w: World, acc: Acc, t: nat)
    requires cfg.perChunk >= 1 && Faithful(w) && AccInv(cfg, w, acc, t)
    ensures Inv(cfg, w, Index(acc.chunks, multiset{})) && Height(acc.chunks) < t && |acc.recs| < cfg.perChunk
  {
    hide ChunksOk, Total, Height, SumBelow;
    ChunksAreExact(cfg, w, acc, t);
    assert Total(acc.chunks) + multiset{} == Total(acc.chunks);
  }

  // If nothing is lost the chunks are sound.
  lemma {:induction false} SoundIf(cfg: Settings, w: World, ripe: map<nat, seq<string>>, unripe: set<nat>, env: Env,
                                   acc: Acc, blocks: seq<nat>, t: nat)
    requires cfg.perChunk >= 1 && Faithful(w) && AccInv(cfg, w, acc, t) && Unripe(ripe, blocks, t)
    requires NothingLost(cfg, w, unripe, t, Height(Process(cfg, ripe, unripe, env, acc, blocks).0.chunks))
    ensures Inv(cfg, w, Index(Process(cfg, ripe, unripe, env, acc, blocks).0.chunks, multiset{}))
    decreases |blocks|
  {
    hide Process, AddBlock, Found, Height, Total, Unripe, AccInv, Inv, NothingLost;
    var r := Process(cfg, ripe, unripe, env, acc, blocks).0;
    Leave(cfg, w, acc, t);
    if Height(r.chunks) < t {
      Shape(cfg, ripe, unripe, env, acc, blocks, t);
    } else if |blocks| == 0 {
      NothingToProcess(cfg, ripe, unripe, env, acc);
    } else {
      ProcessStep(cfg, ripe, unripe, env, acc, blocks);
      FirstUnripe(cfg, ripe, acc, blocks, t);
      StepAhead(cfg, w, unripe, acc, t, Height(r.chunks));
      assert Found(ripe, t) == multiset{} by { NoneFound(ripe, t); }
      var next := AddBlock(cfg, acc, t, multiset{});
      Leave(cfg, w, next, t + 1);
      if t in unripe {
        SoundIf(cfg, w, ripe, unripe, env, acc, blocks[1..], t + 1);
      } else if r.chunks != acc.chunks && r != next {
        SoundIf(cfg, w, ripe, unripe, env, next, blocks[1..], t + 1);
      }
    }
  }

  lemma NoneFound(ripe: map<nat, seq<string>>, t: nat)
    requires t !in ripe
    ensures Found(ripe, t) == multiset{}
  {
  }

  ghost predicate Inside(chunks: seq<Chunk>, b: nat) {
    exists i :: 0 <= i < |chunks| && chunks[i].range.first <= b < chunks[i].range.last
  }

  // A block before `t` that belongs to the range being gathered ends up inside the next chunk.
  lemma {:induction false} Pending(cfg: Settings, ripe: map<nat, seq<string>>, unripe: set<nat>, env: Env,
                                   acc: Acc, blocks: seq<nat>, t: nat, b: nat)
    requires cfg.perChunk >= 1 && |acc.recs| < cfg.perChunk && Height(acc.chunks) < t && Unripe(ripe, blocks, t)
    requires acc.range.first <= b < t
    requires Process(cfg, ripe, unripe, env, acc, blocks).0.chunks != acc.chunks
    ensures Inside(Process(cfg, ripe, unripe, env, acc, blocks).0.chunks, b)
    decreases |blocks|
  {
    hide Process, AddBlock, Found, Height, Total, Unripe, Inside;
    if |blocks| == 0 {
      NothingToProcess(cfg, ripe, unripe, env, acc);
    } else {
      ProcessStep(cfg, ripe, unripe, env, acc, blocks);
      FirstUnripe(cfg, ripe, acc, blocks, t);
      var r, next := Process(cfg, ripe, unripe, env, acc, blocks).0, AddBlock(cfg, acc, t, Found(ripe, t));
      if t in unripe {
        Pending(cfg, ripe, unripe, env, acc, blocks[1..], t + 1, b);
      } else if cfg.snap(t) {
        InsideNew(acc.chunks, Chunk(acc.range.(last := t), acc.recs), r.chunks, b);
      } else {
        Pending(cfg, ripe, unripe, env, next, blocks[1..], t + 1, b);
      }
    }
  }

  lemma InsideNew(chunks: seq<Chunk>, c: Chunk, all: seq<Chunk>, b: nat)
    requires chunks + [c] <= all && c.range.first <= b < c.range.last
    ensures Inside(all, b)
  {
    assert all[|chunks|] == c;
  }

  // A skipped block below the end of the last chunk lies inside a chunk.
  lemma {:induction false} Skipped(cfg: Settings, ripe: map<nat, seq<string>>, unripe: set<nat>, env: Env,
                                   acc: Acc, blocks: seq<nat>, t: nat, b: nat)
    requires cfg.perChunk >= 1 && |acc.recs| < cfg.perChunk && Height(acc.chunks) < t && Unripe(ripe, blocks, t)
    requires acc.range.first <= t <= b < Height(Process(cfg, ripe, unripe, env, acc, blocks).0.chunks) && b in unripe
    ensures Inside(Process(cfg, ripe, unripe, env, acc, blocks).0.chunks, b)
    decreases |blocks|
  {
    hide Process, AddBlock, Found, Height, Total, Unripe, Inside;
    if |blocks| == 0 {
      NothingToProcess(cfg, ripe, unripe, env, acc);
    } else {
      ProcessStep(cfg, ripe, unripe, env, acc, blocks);
      FirstUnripe(cfg, ripe, acc, blocks, t);
      if t == b {
        Pending(cfg, ripe, unripe, env, acc, blocks[1..], t + 1, b);
      } else if t in unripe {
        Skipped(cfg, ripe, unripe, env, acc, blocks[1..], t + 1, b);
      } else {
        Skipped(cfg, ripe, unripe, env, AddBlock(cfg, acc, t, Found(ripe, t)), blocks[1..], t + 1, b);
      }
    }
  }

  lemma NoSnapInside(cfg: Settings, w: World, chunks: seq<Chunk>, b: nat)
    requires ChunksOk(cfg, w, chunks) && Inside(chunks, b)
    ensures !cfg.snap(b)
  {
    var i :| 0 <= i < |chunks| && chunks[i].range.first <= b < chunks[i].range.last;
    assert ChunkOk(cfg, w, chunks[i]);
  }

  // If a chunk was cut here the index is exact if and only if no block up to its end has appearances.
  lemma ExactIf(cfg: Settings, w: World, ripe: map<nat, seq<string>>, unripe: set<nat>, env: Env,
                acc: Acc, blocks: seq<nat>, t: nat)
    requires cfg.perChunk >= 1 && Faithful(w) && AccInv(cfg, w, acc, t) && Unripe(ripe, blocks, t)
    requires Process(cfg, ripe, unripe, env, acc, blocks).0.chunks != acc.chunks
    ensures var chunks := Process(cfg, ripe, unripe, env, acc, blocks).0.chunks;
      Exact(w, Index(chunks, multiset{})) <==> forall b :: t <= b <= Height(chunks) ==> w(b) == multiset{}
  {
    hide Process, Unripe, Height, AccInv, Exact, Total, SumBelow, Faithful;
    var chunks := Process(cfg, ripe, unripe, env, acc, blocks).0.chunks;
    Leave(cfg, w, acc, t);
    Gathered(cfg, w, acc, t);
    Shape(cfg, ripe, unripe, env, acc, blocks, t);
    ExactAlone(w, chunks);
    SumIsStable(w, t, Height(chunks) + 1);
  }

  lemma Gathered(cfg: Settings, w: World, acc: Acc, t: nat)
    requires AccInv(cfg, w, acc, t)
    ensures Total(acc.chunks) + acc.recs == SumBelow(w, t)
  {
  }

  lemma ExactAlone(w: World, chunks: seq<Chunk>)
    ensures Exact(w, Index(chunks, multiset{})) <==> Total(chunks) == SumBelow(w, Height(chunks) + 1)
  {
    hide Total, SumBelow, Height;
    assert Total(chunks) + multiset{} == Total(chunks);
  }

  // If the chunks are sound nothing is lost.
  lemma OnlyIf(cfg: Settings, w: World, ripe: map<nat, seq<string>>, unripe: set<nat>, env: Env,
               acc: Acc, blocks: seq<nat>, t: nat)
    requires cfg.perChunk >= 1 && Faithful(w) && AccInv(cfg, w, acc, t) && Unripe(ripe, blocks, t)
    requires Process(cfg, ripe, unripe, env, acc, blocks).0.chunks != acc.chunks
    requires Inv(cfg, w, Index(Process(cfg, ripe, unripe, env, acc, blocks).0.chunks, multiset{}))
    ensures NothingLost(cfg, w, unripe, t, Height(Process(cfg, ripe, unripe, env, acc, blocks).0.chunks))
  {
    hide Process, Unripe, Height, ChunksOk, Exact, Inside;
    var chunks := Process(cfg, ripe, unripe, env, acc, blocks).0.chunks;
    ExactIf(cfg, w, ripe, unripe, env, acc, blocks, t);
    Shape(cfg, ripe, unripe, env, acc, blocks, t);
    forall b | t <= b <= Height(chunks) && cfg.snap(b) ensures b !in unripe {
      if b in unripe {
        Skipped(cfg, ripe, unripe, env, acc, blocks, t, b);
        NoSnapInside(cfg, w, chunks, b);
      }
    }
  }

  // Without a snap point among the fileless blocks the unripe end changes nothing.
  lemma UnripeTail(cfg: Settings, ripe: map<nat, seq<string>>, unripe: set<nat>, env: Env, acc: Acc, blocks: seq<nat>,
                   t: nat)
    requires cfg.perChunk >= 1 && |acc.recs| < cfg.perChunk && Height(acc.chunks) < t && Unripe(ripe, blocks, t)
    requires forall b :: b in blocks && b !in unripe ==> !cfg.snap(b)
    ensures Process(cfg, ripe, unripe, env, acc, blocks).0.chunks == acc.chunks
    ensures Process(cfg, ripe, unripe, env, acc, blocks).0.recs == acc.recs
  {
    hide Process, Total;
    Shape(cfg, ripe, unripe, env, acc, blocks, t);
  }
}
