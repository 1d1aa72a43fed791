// HandleTruncate: remove the chunks at or after a block, one by one, each from the disc and the manifest.
module Truncate {
  import opened Ranges
  import opened Common

  // What of a manifest is kept when a chunk is removed.
  function Earlier(man: seq<FileRange>, removed: FileRange): (kept: seq<FileRange>)
    ensures forall r :: r in kept <==> r in man && r.EarlierThan(removed)
  {
    if man == [] then []
    else (if man[0].EarlierThan(removed) then [man[0]] else []) + Earlier(man[1..], removed)
  }

  class LocalIndex {
    var blooms: set<FileRange>
    var indexes: set<FileRange>
    var man: seq<FileRange>     // the ranges of the manifest; empty if there is none

    constructor (blooms: set<FileRange>, indexes: set<FileRange>, man: seq<FileRange>)
      ensures this.blooms == blooms && this.indexes == indexes && this.man == man
    {
      this.blooms, this.indexes, this.man := blooms, indexes, man;
    }

    // manifest.RemoveChunk: needs both parts to back them up; after an error everything is put back.
    method RemoveChunk(rng: FileRange, fails: bool) returns (failed: bool)
      modifies this
      ensures failed <==> rng !in old(indexes) || rng !in old(blooms) || fails
      ensures if failed then blooms == old(blooms) && indexes == old(indexes) && man == old(man)
              else blooms == old(blooms) - {rng} && indexes == old(indexes) - {rng} && man == Earlier(old(man), rng)
    {
      var manBackup := man;
      if rng !in indexes {
        return true;
      }
      if rng !in blooms {
        return true;
      }
      indexes, blooms := indexes - {rng}, blooms - {rng};
      man := Earlier(man, rng);
      if fails {
        indexes, blooms, man := indexes + {rng}, blooms + {rng}, manBackup;
        return true;
      }
      return false;
    }

    // The walk visits the bloom filters in any order. `stuck` are chunks whose removal fails.
    method TruncateIndex(truncate: nat, dryRun: bool, stuck: set<FileRange>)
      returns (latestChunk: nat, nChunksRemoved: nat, failed: bool)
      requires forall r :: r in blooms ==> r.first <= NOPOSN
      modifies this
      ensures failed <==> !dryRun && Blocked(Removed(old(blooms), truncate), old(indexes), stuck)
      ensures dryRun ==> blooms == old(blooms) && indexes == old(indexes) && man == old(man)
      ensures !failed ==>
        && nChunksRemoved == |Removed(old(blooms), truncate)|
        && IsLatest(Surviving(old(blooms), truncate), latestChunk)
      ensures !failed && !dryRun ==>
        && blooms == Surviving(old(blooms), truncate)
        && indexes == old(indexes) - Removed(old(blooms), truncate)
        && ManifestKept(old(man), Removed(old(blooms), truncate), man)
      // whether or not the walk ends early
      ensures Surviving(old(blooms), truncate) <= blooms <= old(blooms)
      ensures OnDisc(old(man), old(blooms)) ==> OnDisc(man, blooms)
    {
      hide Walked, Earlier, Removed, Surviving, IsLatest, ManifestKept, OnDisc, Blocked, FileRange.Intersects;
      ghost var was := Local(blooms, indexes, man);
      WalkStarts(was, truncate, dryRun, stuck);
      latestChunk, nChunksRemoved, failed := 0, 0, false;
      var todo := blooms;
      ghost var seen: set<FileRange> := {};
      while todo != {}
        invariant todo <= was.blooms && seen == was.blooms - todo
        invariant Walked(was, seen, truncate, dryRun, stuck, Local(blooms, indexes, man), latestChunk, nChunksRemoved)
        decreases |todo|
      {
        var rng :| rng in todo;
        todo := todo - {rng};
        WalkedOn(was, seen, truncate, dryRun, stuck, Local(blooms, indexes, man), latestChunk, nChunksRemoved, rng);
        if rng.Intersects(FileRange(truncate, NOPOSN)) {
          if !dryRun {
            failed := RemoveChunk(rng, rng in stuck);
            if failed {
              return;
            }
          }
          nChunksRemoved := nChunksRemoved + 1;
        } else {
          latestChunk := Max(latestChunk, rng.last);
        }
        seen := seen + {rng};
      }
      WalkEnds(was, seen, truncate, dryRun, stuck, Local(blooms, indexes, man), latestChunk, nChunksRemoved);
    }
  }

  datatype Local = Local(blooms: set<FileRange>, indexes: set<FileRange>, man: seq<FileRange>)

  // The state of the walk after some of the bloom filters have been visited.
  ghost predicate Walked(was: Local, seen: set<FileRange>, truncate: nat, dryRun: bool, stuck: set<FileRange>,
                         now: Local, latest: nat, n: nat) {
    var removed := if dryRun then {} else Removed(seen, truncate);
    && seen <= was.blooms && n == |Removed(seen, truncate)| && IsLatest(Surviving(seen, truncate), latest)
    && now.blooms == was.blooms - removed && now.indexes == was.indexes - removed
    && ManifestKept(was.man, removed, now.man) && (dryRun ==> now.man == was.man)
    && (OnDisc(was.man, was.blooms) ==> OnDisc(now.man, now.blooms))
    && !Blocked(removed, was.indexes, stuck)
  }

  lemma WalkStarts(was: Local, truncate: nat, dryRun: bool, stuck: set<FileRange>)
    ensures Walked(was, {}, truncate, dryRun, stuck, was, 0, 0)
  {
    hide Blocked;
    NoneBlocked(was.indexes, stuck);
    assert Removed({}, truncate) == {} == Surviving({}, truncate);
    assert was.blooms - {} == was.blooms && was.indexes - {} == was.indexes;
  }

  // The next bloom filter: what the walk does to it, or why its chunk cannot be removed.
  lemma WalkedOn(was: Local, seen: set<FileRange>, truncate: nat, dryRun: bool, stuck: set<FileRange>, now: Local,
                 latest: nat, n: nat, rng: FileRange)
    requires Walked(was, seen, truncate, dryRun, stuck, now, latest, n)
    requires rng in was.blooms && rng !in seen && rng.first <= NOPOSN
    ensures Surviving(was.blooms, truncate) <= now.blooms <= was.blooms
    ensures OnDisc(was.man, was.blooms) ==> OnDisc(now.man, now.blooms)
    ensures var seen' := seen + {rng};
      if !rng.Intersects(FileRange(truncate, NOPOSN))
      then Walked(was, seen', truncate, dryRun, stuck, now, Max(latest, rng.last), n)
      else if dryRun then Walked(was, seen', truncate, dryRun, stuck, now, latest, n + 1)
      else if rng !in now.indexes || rng in stuck then Blocked(Removed(was.blooms, truncate), was.indexes, stuck)
      else
        var next := Local(now.blooms - {rng}, now.indexes - {rng}, Earlier(now.man, rng));
        rng in now.blooms && Walked(was, seen', truncate, dryRun, stuck, next, latest, n + 1)
  {
    hide Earlier, Removed, Surviving, IsLatest, ManifestKept, OnDisc, Blocked, FileRange.Intersects;
    Visited(was.blooms, seen, rng, truncate, latest);
    Split(was.blooms, seen, truncate);
    if !dryRun && rng.Intersects(FileRange(truncate, NOPOSN)) {
      KeepsEarlier(was.man, Removed(seen, truncate), now.man, now.blooms, rng);
      BlockedBy(Removed(was.blooms, truncate), Removed(seen, truncate), rng, was.indexes, stuck);
    }
  }

  lemma WalkEnds(was: Local, seen: set<FileRange>, truncate: nat, dryRun: bool, stuck: set<FileRange>, now: Local,
                 latest: nat, n: nat)
    requires Walked(was, seen, truncate, dryRun, stuck, now, latest, n) && seen == was.blooms
    ensures dryRun ==> now == was
    ensures n == |Removed(was.blooms, truncate)| && IsLatest(Surviving(was.blooms, truncate), latest)
    ensures !dryRun ==>
      && !Blocked(Removed(was.blooms, truncate), was.indexes, stuck)
      && now.blooms == Surviving(was.blooms, truncate)
      && now.indexes == was.indexes - Removed(was.blooms, truncate)
      && ManifestKept(was.man, Removed(was.blooms, truncate), now.man)
    ensures Surviving(was.blooms, truncate) <= now.blooms <= was.blooms
    ensures OnDisc(was.man, was.blooms) ==> OnDisc(now.man, now.blooms)
  {
    hide Removed, Surviving, IsLatest, ManifestKept, OnDisc, Blocked;
    Split(was.blooms, seen, truncate);
  }

  function Removed(rs: set<FileRange>, truncate: nat): set<FileRange> {
    set r | r in rs && r.last >= truncate
  }

  function Surviving(rs: set<FileRange>, truncate: nat): set<FileRange> {
    set r | r in rs && r.last < truncate
  }

  // Some chunk cannot be removed: it has no index part, or its removal fails.
  ghost predicate Blocked(rs: set<FileRange>, indexes: set<FileRange>, stuck: set<FileRange>) {
    exists r :: r in rs && (r !in indexes || r in stuck)
  }

  lemma NoneBlocked(indexes: set<FileRange>, stuck: set<FileRange>)
    ensures !Blocked({}, indexes, stuck)
  {
  }

  lemma BlockedBy(all: set<FileRange>, removed: set<FileRange>, rng: FileRange, indexes: set<FileRange>,
                  stuck: set<FileRange>)
    requires rng in all && !Blocked(removed, indexes, stuck)
    ensures rng !in indexes || rng in stuck ==> Blocked(all, indexes, stuck)
    ensures rng in indexes && rng !in stuck ==> !Blocked(removed + {rng}, indexes, stuck)
  {
  }

  ghost predicate IsLatest(rs: set<FileRange>, latest: nat) {
    && (forall r :: r in rs ==> r.last <= latest)
    && (if rs == {} then latest == 0 else exists r :: r in rs && r.last == latest)
  }

  // Of a manifest exactly the ranges before every removed chunk are kept.
  ghost predicate ManifestKept(before: seq<FileRange>, removed: set<FileRange>, after: seq<FileRange>) {
    forall r :: r in after <==> r in before && forall x :: x in removed ==> r.EarlierThan(x)
  }

  // Every chunk of the manifest is on disc.
  ghost predicate OnDisc(man: seq<FileRange>, blooms: set<FileRange>) {
    forall r :: r in man ==> r in blooms && r.WellFormed()
  }

  lemma KeepsEarlier(man0: seq<FileRange>, gone: set<FileRange>, man: seq<FileRange>, blooms: set<FileRange>,
                     rng: FileRange)
    requires ManifestKept(man0, gone, man)
    ensures ManifestKept(man0, gone + {rng}, Earlier(man, rng))
    ensures OnDisc(man, blooms) ==> OnDisc(Earlier(man, rng), blooms - {rng})
  {
  }

  lemma Split(all: set<FileRange>, seen: set<FileRange>, truncate: nat)
    requires seen <= all
    ensures Surviving(all, truncate) == all - Removed(all, truncate)
    ensures Removed(seen, truncate) <= Removed(all, truncate)
  {
  }

  lemma Visited(all: set<FileRange>, seen: set<FileRange>, rng: FileRange, truncate: nat, latest: nat)
    requires rng in all && rng !in seen && seen <= all && rng.first <= NOPOSN
    requires IsLatest(Surviving(seen, truncate), latest)
    ensures var removed := Removed(seen, truncate);
      && rng !in removed && (rng.last >= truncate ==> rng in Removed(all, truncate))
      && Removed(seen + {rng}, truncate) == if rng.last >= truncate then removed + {rng} else removed
    ensures rng.last >= truncate <==> rng.Intersects(FileRange(truncate, NOPOSN))
    ensures IsLatest(Surviving(seen + {rng}, truncate), if rng.last >= truncate then latest else Max(latest, rng.last))
  {
  }

  // ---- A tiled index is cut to a prefix ----

  ghost predicate Tiled(rs: seq<FileRange>) {
    && (forall i :: 0 <= i < |rs| ==> rs[i].WellFormed())
    && (forall i :: 0 <= i < |rs| - 1 ==> rs[i].Precedes(rs[i + 1], true))
  }

  lemma {:induction false} Ordered(rs: seq<FileRange>, i: nat, j: nat)
    requires Tiled(rs) && i < j < |rs|
    ensures rs[i].last < rs[j].first
  {
    assert rs[j - 1].Precedes(rs[j], true);
    if i < j - 1 {
      Ordered(rs, i, j - 1);
    }
  }

  // How many chunks end before the block.
  function Cut(rs: seq<FileRange>, truncate: nat): (k: nat)
    ensures k <= |rs|
    ensures forall i :: 0 <= i < k ==> rs[i].last < truncate
    ensures k < |rs| ==> rs[k].last >= truncate
  {
    if rs == [] || rs[0].last >= truncate then 0 else 1 + Cut(rs[1..], truncate)
  }

  // The chunks that stay are the ones in front and still tile; the manifest names the same ones. One
  // past the latest of them is the first block of the earliest chunk removed. If none stays, latest is
  // block zero, and that holds only for an index that begins with block one.
  lemma LeavesPrefix(rs: seq<FileRange>, truncate: nat, latest: nat, man: seq<FileRange>, man': seq<FileRange>)
    requires Tiled(rs) && IsLatest(Surviving(ToSet(rs), truncate), latest)
    requires ToSet(man) == ToSet(rs) && ManifestKept(man, Removed(ToSet(rs), truncate), man')
    ensures var k := Cut(rs, truncate);
      && Surviving(ToSet(rs), truncate) == ToSet(rs[..k]) == ToSet(man') && Tiled(rs[..k])
      && Removed(ToSet(rs), truncate) == ToSet(rs[k..])
      && (k < |rs| ==> (latest + 1 == rs[k].first <==> k > 0 || rs[0].first == 1))
  {
    var k := Cut(rs, truncate);
    CutPoint(rs, truncate);
    Partition(rs, truncate, k);
    LatestOfPrefix(rs, k, latest);
    hide Tiled, IsLatest, ManifestKept, Removed, Surviving;
    forall r ensures r in man' <==> r in rs[..k] {
      KeptInManifest(rs, k, ToSet(rs[k..]), man, man', r);
    }
  }

  lemma CutPoint(rs: seq<FileRange>, truncate: nat)
    requires Tiled(rs)
    ensures var k := Cut(rs, truncate); forall i :: 0 <= i < |rs| ==> (rs[i].last < truncate <==> i < k)
  {
  }

  lemma LatestOfPrefix(rs: seq<FileRange>, k: nat, latest: nat)
    requires Tiled(rs) && k <= |rs| && IsLatest(ToSet(rs[..k]), latest)
    ensures Tiled(rs[..k])
    ensures k < |rs| ==> (latest + 1 == rs[k].first <==> k > 0 || rs[0].first == 1)
  {
    if k > 0 {
      assert rs[k - 1] in ToSet(rs[..k]);
      forall r | r in ToSet(rs[..k]) ensures r.last <= rs[k - 1].last {
        var i :| 0 <= i < k && rs[i] == r;
        if i < k - 1 {
          Ordered(rs, i, k - 1);
        }
      }
      if k < |rs| {
        assert rs[k - 1].Precedes(rs[k], true);
      }
    }
  }

  lemma Partition(rs: seq<FileRange>, truncate: nat, k: nat)
    requires k <= |rs|
    requires forall i :: 0 <= i < |rs| ==> (rs[i].last < truncate <==> i < k)
    ensures Surviving(ToSet(rs), truncate) == ToSet(rs[..k])
    ensures Removed(ToSet(rs), truncate) == ToSet(rs[k..])
  {
  }

  // The removed chunks are the ones from `k` on, so what is before all of them is in front of `k`.
  lemma KeptInManifest(rs: seq<FileRange>, k: nat, removed: set<FileRange>, man: seq<FileRange>, man': seq<FileRange>,
                       r: FileRange)
    requires Tiled(rs) && k <= |rs| && removed == ToSet(rs[k..])
    requires ToSet(man) == ToSet(rs) && ManifestKept(man, removed, man')
    ensures r in man' <==> r in rs[..k]
  {
    assert r in man' <==> r in man && forall x :: x in removed ==> r.EarlierThan(x);
    hide Tiled, ManifestKept;
    assert r in man <==> r in ToSet(man);
    if r in rs[..k] {
      forall x | x in removed ensures r.EarlierThan(x) {
        InFront(rs, k, r, x);
      }
    } else if r in rs {
      assert r in rs[k..] && !r.EarlierThan(r);
    }
  }

  lemma InFront(rs: seq<FileRange>, k: nat, r: FileRange, x: FileRange)
    requires Tiled(rs) && k <= |rs| && r in rs[..k] && x in rs[k..]
    ensures r.EarlierThan(x)
  {
    var i :| 0 <= i < k && rs[i] == r;
    var j :| k <= j < |rs| && rs[j] == x;
    Ordered(rs, i, j);
  }
}
