// BlazeManager.WriteTimestamps: an append-only file of (block, timestamp) records, with a bounded backfill.
module Timestamps {
  import opened StageFile
  import opened Common

  const DEFAULT_BACKFILL: nat := 2000

  datatype Record32 = Record32(bn: Uint32, ts: Uint32)

  datatype Outcome = Done | Cancelled | Missing(block: nat) | IoError

  // `cancelAt` and `failAt` count the polls and the writes of one call that succeed.
  datatype Env = Env(openFails: bool, cancelAt: nat, failAt: nat, backfill: nat, chain: nat -> nat) {
    // The environment variable can only raise the limit.
    function MaxBlocks(): (n: nat)
      ensures n >= 2000 && n >= backfill && (n == 2000 || n == backfill)
    {
      if backfill > DEFAULT_BACKFILL then backfill else DEFAULT_BACKFILL
    }
  }

  ghost predicate Consecutive(blocks: seq<nat>) {
    forall i :: 0 <= i < |blocks| ==> blocks[i] == blocks[0] + i
  }

  // Record i is the record of block i, as far as 32 bits can tell.
  ghost predicate Complete(records: seq<Record32>) {
    forall i :: 0 <= i < |records| ==> records[i].bn == i % UINT32
  }

  // A Go map gives the zero record for a missing key.
  function Lookup(m: map<nat, Record32>, block: nat): (r: Record32)
    ensures block !in m ==> r.bn == 0 && r.ts == 0
  {
    if block in m then m[block] else Record32(0, 0)
  }

  // Nothing stops the call, and the batch has all its timestamps.
  ghost predicate Undisturbed(env: Env, timestamps: map<nat, Record32>, blocks: seq<nat>) {
    && !env.openFails && env.cancelAt > env.MaxBlocks() && env.failAt > env.MaxBlocks() && env.failAt > |blocks|
    && forall b :: b in blocks ==> b in timestamps && timestamps[b].bn == b
  }

  // The record says when the chain's block `i` was made.
  ghost predicate Tells(r: Record32, i: nat, chain: nat -> nat) {
    r.bn == i % 0x1_0000_0000 && r.ts == chain(i) % 0x1_0000_0000
  }

  // A cancellation reaches a call that has something to write before the call is done.
  ghost predicate Cancels(env: Env, n: nat, first: nat, last: nat) {
    && !env.openFails && n <= last
    && if n < first then env.cancelAt < Min(first - n, env.MaxBlocks()) && env.cancelAt <= env.failAt
       else env.cancelAt == 0
  }

  // The length of the file after an undisturbed call.
  function Grown(n: nat, first: nat, last: nat, maxBlocks: nat): nat {
    if last < n then n
    else if n < first then Min(first, n + maxBlocks)
    else last + 1
  }

  lemma OneMoreRecord(records: seq<Record32>, r: Record32)
    requires Complete(records) && (r.bn == |records| || r.bn == |records| % UINT32)
    ensures Complete(records + [r])
  {
  }

  class TimestampFile {
    var records: seq<Record32>

    constructor ()
      ensures records == []
    {
      records := [];
    }

    method WriteTimestamps(blocks: seq<nat>, timestamps: map<nat, Record32>, env: Env) returns (outcome: Outcome)
      requires blocks != [] && Consecutive(blocks) && Complete(records)
      modifies this
      // on every path
      ensures Complete(records)
      ensures old(records) <= records
      ensures |records| <= Grown(|old(records)|, blocks[0], blocks[|blocks| - 1], env.MaxBlocks())
      ensures outcome.Missing? ==>
        outcome.block in blocks && outcome.block == |records| && Lookup(timestamps, outcome.block).bn != outcome.block
      // the new records
      ensures forall i :: |old(records)| <= i < |records| ==>
        records[i] == if i < blocks[0] then Record32(i % UINT32, env.chain(i) % UINT32) else Lookup(timestamps, i)
      // progress
      ensures outcome.Done? ==> |records| == Grown(|old(records)|, blocks[0], blocks[|blocks| - 1], env.MaxBlocks())
      ensures outcome.Cancelled? <==> Cancels(env, |old(records)|, blocks[0], blocks[|blocks| - 1])
      ensures outcome.IoError? ==> env.openFails || env.failAt < env.MaxBlocks() || env.failAt < |blocks|
      ensures Undisturbed(env, timestamps, blocks) ==>
        outcome == Done && |records| == Grown(|old(records)|, blocks[0], blocks[|blocks| - 1], env.MaxBlocks())
    {
      hide Complete;
      if env.openFails {
        return IoError;
      }
      var nTimestamps := |records|;
      if blocks[|blocks| - 1] < nTimestamps {
        return Done;
      } else if blocks[0] > nTimestamps {
        var cnt, block := 0, nTimestamps;
        while block < blocks[0] && cnt < env.MaxBlocks()
          invariant block == |records| == nTimestamps + cnt <= blocks[0]
          invariant cnt <= env.cancelAt && cnt <= env.failAt && cnt <= env.MaxBlocks()
          invariant old(records) <= records && Complete(records)
          invariant forall i :: nTimestamps <= i < |records| ==>
            records[i] == Record32(i % UINT32, env.chain(i) % UINT32)
        {
          if cnt == env.cancelAt {
            return Cancelled;
          }
          if cnt == env.failAt {
            return IoError;
          }
          OneMoreRecord(records, Record32(block % UINT32, env.chain(block) % UINT32));
          records := records + [Record32(block % UINT32, env.chain(block) % UINT32)];
          cnt, block := cnt + 1, block + 1;
        }
        return Done;
      }
      if env.cancelAt == 0 {
        return Cancelled;
      }
      var written := 0;
      for k := 0 to |blocks|
        invariant old(records) <= records && Complete(records)
        invariant |records| == if blocks[0] + k <= nTimestamps then nTimestamps else blocks[0] + k
        invariant written == |records| - nTimestamps <= k && written <= env.failAt
        invariant forall i :: nTimestamps <= i < |records| ==> records[i] == Lookup(timestamps, i)
      {
        var block := blocks[k];
        if block < nTimestamps {
          continue;
        }
        if Lookup(timestamps, block).bn != block {
          return Missing(block);
        }
        if written == env.failAt {
          return IoError;
        }
        OneMoreRecord(records, Lookup(timestamps, block));
        records := records + [Lookup(timestamps, block)];
        written := written + 1;
      }
      return Done;
    }
  }

  // ---- Catching up ----

  function AfterCalls(n: nat, first: nat, last: nat, maxBlocks: nat, calls: nat): nat
    decreases calls
  {
    if calls == 0 then n else AfterCalls(Grown(n, first, last, maxBlocks), first, last, maxBlocks, calls - 1)
  }

  function CeilDiv(a: nat, b: nat): nat
    requires b > 0
    decreases a
  {
    if a == 0 then 0 else if a <= b then 1 else 1 + CeilDiv(a - b, b)
  }

  lemma {:induction false} CeilDivIsCeiling(a: nat, b: nat)
    requires b > 0
    ensures var k := CeilDiv(a, b); (k - 1) * b < a <= k * b || a == k == 0
    decreases a
  {
    if a > b {
      CeilDivIsCeiling(a - b, b);
      var k := CeilDiv(a - b, b);
      assert (k + 1) * b == k * b + b && (k - 1) * b == k * b - b;
    }
  }

  // For one fixed batch, undisturbed calls reach its last block after one backfill per `maxBlocks`
  // missing records and one more call, and not before.
  lemma {:induction false} CatchesUp(n: nat, first: nat, last: nat, maxBlocks: nat, calls: nat)
    requires maxBlocks > 0 && first <= last && n <= last
    ensures AfterCalls(n, first, last, maxBlocks, calls) == last + 1 <==>
      calls > CeilDiv(if n < first then first - n else 0, maxBlocks)
    decreases calls
  {
    if calls > 0 {
      var n' := Grown(n, first, last, maxBlocks);
      if n < first {
        CatchesUp(n', first, last, maxBlocks, calls - 1);
      } else {
        StaysCaughtUp(first, last, maxBlocks, calls - 1);
      }
    }
  }

  lemma {:induction false} StaysCaughtUp(first: nat, last: nat, maxBlocks: nat, calls: nat)
    requires first <= last
    ensures AfterCalls(last + 1, first, last, maxBlocks, calls) == last + 1
    decreases calls
  {
    if calls > 0 {
      StaysCaughtUp(first, last, maxBlocks, calls - 1);
    }
  }
}
