// BlazeManager: the state one round works on, the steps of its workers, and the acceptance of a batch.
module Batches {
  import opened StageFile
  import opened Consolidation
  import opened Timestamps
  import opened Pipeline
  import opened Wrappers
  import opened Common

  datatype BatchOutcome = Accepted | Rejected | Interrupted | TimestampsFailed

  // No step goes wrong, nothing is cancelled, and the timestamps can be written.
  ghost predicate Smooth(scheduler: nat -> Action, cancelAt: Option<nat>, cancelledLate: bool, env: Timestamps.Env,
                         n: nat) {
    && (forall k :: !Faulty(scheduler(k)))
    && cancelAt.None? && !cancelledLate
    && !env.openFails && env.cancelAt > env.MaxBlocks() && env.failAt > env.MaxBlocks() && env.failAt > n
  }

  // The user cancels while blocks are still on their way.
  ghost predicate CutShort(batch: Batch, cancelAt: Option<nat>, acts: seq<Action>)
    requires ValidRun(batch, Initial(batch), acts)
  {
    cancelAt == Some(|acts|) && !Quiescent(Run(batch, Initial(batch), acts).hands)
  }

  ghost predicate CancelledLater(batch: Batch, late: bool, env: Timestamps.Env, n: nat)
    requires batch.blocks != []
  {
    late || Cancels(env, n, batch.blocks[0], batch.blocks[|batch.blocks| - 1])
  }

  // The length of the timestamp file once the batch has been written.
  function GrownBy(batch: Batch, env: Timestamps.Env, n: nat): nat
    requires batch.blocks != []
  {
    Grown(n, batch.blocks[0], batch.blocks[|batch.blocks| - 1], env.MaxBlocks())
  }

  // Writing the timestamps fails, or a block number does not fit its record.
  ghost predicate TimestampsFault(env: Timestamps.Env, batch: Batch) {
    || env.openFails || env.failAt < env.MaxBlocks() || env.failAt < |batch.blocks|
    || exists b :: b in batch.blocks && b >= 0x1_0000_0000
  }

  class BlazeManager {
    const folder: IndexFolder
    const file: TimestampFile
    var hands: Hands
    var timestamps: map<nat, Record32>
    var nTimestamps: nat
    var processedMap: set<nat>
    var nRipe: nat
    var nUnripe: nat
    var errors: seq<ScrapeError>

    constructor (folder: IndexFolder, file: TimestampFile)
      ensures this.folder == folder && this.file == file
      ensures Fresh()
    {
      this.folder, this.file := folder, file;
      hands := Hands([], {}, {}, {}, {}, {});
      timestamps, nTimestamps, processedMap, nRipe, nUnripe, errors := map[], 0, {}, 0, 0, [];
    }

    // As a round makes it.
    ghost predicate Fresh()
      reads this
    {
      timestamps == map[] && nTimestamps == 0 && processedMap == {} && nRipe == 0 && nUnripe == 0
    }

    ghost function State(): Pipe
      reads this, folder
    {
      Pipe(hands, Log(timestamps, nTimestamps, processedMap, nRipe, nUnripe, errors, folder.ripe, folder.unripe))
    }

    method SaveFile(batch: Batch, b: nat, lines: seq<string>)
      modifies folder`ripe, folder`unripe
      ensures folder.unripe == if b > batch.ripeBlock then old(folder.unripe)[b := lines] else old(folder.unripe)
      ensures folder.ripe == if b > batch.ripeBlock then old(folder.ripe) else old(folder.ripe)[b := lines]
    {
      if b > batch.ripeBlock {
        folder.unripe := folder.unripe[b := lines];
      } else {
        folder.ripe := folder.ripe[b := lines];
      }
    }

    // WriteAppearances for one block: `e` says what fails. Errors it does not record itself are returned.
    method WriteAppearances(batch: Batch, b: nat, e: Extraction) returns (failed: bool)
      requires Possible(batch, b, e) && !e.ExtractFails?
      modifies this`errors, this`processedMap, this`nRipe, this`nUnripe, folder`ripe, folder`unripe
      ensures failed <==> !e.Written?
      ensures State().log == Note(batch, old(State()).log, Extracted(b, e)).(errors := errors)
      ensures errors == old(errors) + if e.WriteFails? then [ScrapeError(b, Extract)] else []
    {
      if batch.lines(b) != [] {
        if e.BadRecord? {
          return true;
        }
        if e.WriteFails? {
          if e.left.Some? {
            SaveFile(batch, b, e.left.value);
          }
          errors := errors + [ScrapeError(b, Extract)];
          return true;
        }
        SaveFile(batch, b, batch.lines(b));
      }
      if batch.notify && b <= batch.ripeBlock && e.NotifyFails? {
        return true;
      }
      processedMap := processedMap + {b};
      if b > batch.ripeBlock {
        nUnripe := nUnripe + 1;
      } else {
        nRipe := nRipe + 1;
      }
      return false;
    }

    // One step of one goroutine: the feeder, or a worker of ProcessBlocks, ProcessAppearances or ProcessTimestamps.
    method Step(batch: Batch, a: Action)
      requires Enabled(batch, hands, a)
      modifies this, folder`ripe, folder`unripe
      ensures State() == Apply(batch, old(State()), a)
      ensures hands == Move(old(hands), a)
    {
      hide Move, Note, Enabled, Possible, Stamped, Reports;
      StepMeans(batch, hands, State().log, a);
      match a {
        case FetchFailed(b) =>
          errors := errors + [ScrapeError(b, Fetch)];
        case Extracted(b, e) =>
          if e.ExtractFails? {
            errors := errors + [ScrapeError(b, Extract)];
          } else {
            var failed := WriteAppearances(batch, b, e);
            if failed {
              errors := errors + [ScrapeError(b, Extract)];
            }
          }
        case Stamp(b) =>
          timestamps := timestamps[b := Stamped(batch, b)];
          nTimestamps := nTimestamps + 1;
        case _ =>
      }
      hands := Move(hands, a);
    }

    // A step that can be taken now (Pipeline.NoDeadlock).
    method SomeStep(batch: Batch) returns (a: Action)
      requires batch.nChannels >= 1 && !Quiescent(hands)
      ensures Enabled(batch, hands, a) && !Faulty(a)
    {
      if hands.stamping != {} {
        var b :| b in hands.stamping;
        a := Stamp(b);
      } else if hands.extracted != {} {
        var b :| b in hands.extracted;
        a := SendTs(b);
      } else if hands.extracting != {} {
        var b :| b in hands.extracting;
        a := Extracted(b, Extraction.Written);
      } else if hands.fetched != {} {
        var b :| b in hands.fetched;
        a := HandOver(b);
      } else if hands.fetching != {} {
        var b :| b in hands.fetching;
        a := FetchOk(b);
      } else {
        a := Send;
      }
    }

    // The scheduler is arbitrary: it proposes the k-th step. A cancellation leaves the workers where they are.
    // `acts` are the steps that were taken.
    method HandleBlaze(batch: Batch, scheduler: nat -> Action, cancelAt: Option<nat>)
      returns (cancelled: bool, ghost acts: seq<Action>)
      requires batch.Valid() && folder.ripe == map[] && folder.unripe == map[] && Fresh()
      modifies this, folder`ripe, folder`unripe
      ensures Inv(batch, State())
      ensures ValidRun(batch, Initial(batch), acts) && AsProposed(batch, Initial(batch), acts, scheduler, 0)
      ensures State() == Run(batch, Initial(batch), acts)
      ensures cancelAt.Some? ==> |acts| <= cancelAt.value
      ensures cancelled <==> cancelAt == Some(|acts|) && !Quiescent(hands)
      ensures !cancelled ==> Quiescent(hands)
    {
      hide Inv, Enabled, Work, Move, Note, Quiescent, ValidRun, AsProposed, Run, Apply, Initial;
      InitialInv(batch);
      InitialIs(batch);
      hands := Hands(batch.blocks, {}, {}, {}, {}, {});
      errors := [];
      acts := [];
      NoSteps(batch, scheduler);
      var k := 0;
      while !Quiescent(hands)
        invariant Inv(batch, State()) && k == |acts| && (cancelAt.Some? ==> k <= cancelAt.value)
        invariant ValidRun(batch, Initial(batch), acts) && AsProposed(batch, Initial(batch), acts, scheduler, 0)
        invariant State() == Run(batch, Initial(batch), acts)
        decreases Work(hands)
      {
        if cancelAt == Some(k) {
          return true, acts;
        }
        var a := scheduler(k);
        if !Enabled(batch, hands, a) {
          a := SomeStep(batch);
        }
        OneMoreStep(batch, Initial(batch), acts, scheduler, 0, a);
        StepWorks(batch, hands, a);
        StepKeepsInv(batch, State(), a);
        Step(batch, a);
        k, acts := k + 1, acts + [a];
      }
      return false, acts;
    }

    // The timestamps of a batch without errors.
    method WriteTimestamps(batch: Batch, env: Timestamps.Env) returns (written: Timestamps.Outcome)
      requires batch.Valid() && batch.blocks != [] && Timestamps.Consecutive(batch.blocks) && Complete(file.records)
      requires Inv(batch, State()) && Quiescent(hands) && errors == []
      modifies file
      ensures Complete(file.records) && old(file.records) <= file.records
      ensures written.Cancelled? <==>
        Cancels(env, |old(file.records)|, batch.blocks[0], batch.blocks[|batch.blocks| - 1])
      ensures written.Missing? || written.IoError? ==> TimestampsFault(env, batch)
      ensures written.Done? ==> |file.records| == GrownBy(batch, env, |old(file.records)|)
      ensures !TimestampsFault(env, batch) && env.cancelAt > env.MaxBlocks() ==> written == Timestamps.Outcome.Done
      ensures forall i :: |old(file.records)| <= i < |file.records| ==>
        Tells(file.records[i], i, if i < batch.blocks[0] then env.chain else batch.chain)
    {
      hide Inv, Quiescent, Complete;
      written := file.WriteTimestamps(batch.blocks, timestamps, env);
      if written.Missing? {
        TimeOf(batch, State(), written.block);
      }
      forall i | |old(file.records)| <= i < |file.records|
        ensures Tells(file.records[i], i, if i < batch.blocks[0] then env.chain else batch.chain)
      {
        if i >= batch.blocks[0] {
          InBatch(batch.blocks, i);
          TimeOf(batch, State(), i);
        }
      }
    }

    // Runs the pipeline and accepts the batch only if the counters and the maps all agree.
    method ScrapeBatch(batch: Batch, scheduler: nat -> Action, cancelAt: Option<nat>, cancelledLate: bool,
                       env: Timestamps.Env)
      returns (outcome: BatchOutcome, cancelled: bool, ghost acts: seq<Action>)
      requires batch.Valid() && batch.blocks != [] && Timestamps.Consecutive(batch.blocks) && Complete(file.records)
      requires folder.ripe == map[] && folder.unripe == map[] && Fresh()
      modifies this, folder`ripe, folder`unripe, file
      ensures ValidRun(batch, Initial(batch), acts) && AsProposed(batch, Initial(batch), acts, scheduler, 0)
      ensures cancelAt.Some? ==> |acts| <= cancelAt.value
      ensures outcome == Rejected <==> errors != []
      ensures outcome == Rejected ==> folder.ripe == map[] && folder.unripe == map[]
      ensures outcome == Rejected <==> exists k :: 0 <= k < |acts| && Faulty(acts[k])
      ensures cancelled <==>
        CutShort(batch, cancelAt, acts) ||
        (outcome != Rejected && CancelledLater(batch, cancelledLate, env, |old(file.records)|))
      ensures outcome == Interrupted <==> outcome != Rejected && cancelled
      ensures outcome == Accepted || outcome == TimestampsFailed ==>
        && Inv(batch, State()) && Quiescent(hands) && errors == []
        && State() == Run(batch, Initial(batch), acts)
      ensures outcome == TimestampsFailed ==> TimestampsFault(env, batch)
      ensures outcome == Accepted ==> |file.records| == GrownBy(batch, env, |old(file.records)|)
      ensures Smooth(scheduler, cancelAt, cancelledLate, env, |batch.blocks|) &&
              (forall b :: b in batch.blocks ==> b < UINT32) ==>
        outcome == Accepted && !cancelled
      ensures Complete(file.records) && old(file.records) <= file.records
      // the times that are written
      ensures forall i :: |old(file.records)| <= i < |file.records| ==>
        Tells(file.records[i], i, if i < batch.blocks[0] then env.chain else batch.chain)
    {
      hide Inv, Quiescent, Complete, ValidRun, AsProposed, Run, Cancels, Faulty, Initial, GrownBy;
      InitialIs(batch);
      cancelled, acts := HandleBlaze(batch, scheduler, cancelAt);
      label blazed:
      if !cancelled {
        ChecksMeanNoError(batch, State());
      }
      ErrorsOfRun(batch, Initial(batch), acts);
      if Smooth(scheduler, cancelAt, cancelledLate, env, |batch.blocks|)
         && (forall b :: b in batch.blocks ==> b < UINT32) {
        NothingGoesWrong(batch, Initial(batch), acts, scheduler, 0);
      }
      var rejected := |errors| > 0;
      if !rejected && cancelled {
        return Interrupted, true, acts;
      }
      if !rejected {
        // check to see if we missed any blocks
        for i := 0 to |batch.blocks|
          invariant Inv(batch, State()) && Quiescent(hands) && PassesChecks(batch, State().log)
          invariant !rejected && errors == old@blazed(errors) == []
          invariant file.records == old(file.records)
        {
          if batch.blocks[i] !in processedMap {
            rejected := true;
            break;
          }
        }
        if |batch.blocks| != |processedMap| || |batch.blocks| != nRipe + nUnripe || nTimestamps != nRipe + nUnripe {
          rejected := true;
        }
      }
      if rejected {
        folder.CleanEphemeral();
        return Rejected, cancelled, acts;
      }
      if cancelledLate {
        return Interrupted, true, acts;
      }
      var written := WriteTimestamps(batch, env);
      outcome := match written
        case Done => Accepted
        case Cancelled => Interrupted
        case _ => TimestampsFailed;
      cancelled := outcome == Interrupted;
    }
  }

  // What a step records.
  lemma StepMeans(batch: Batch, h: Hands, l: Log, a: Action)
    requires Enabled(batch, h, a)
    ensures match a
      case FetchFailed(b) => Note(batch, l, a) == l.(errors := l.errors + [ScrapeError(b, Fetch)])
      case Extracted(b, e) =>
        && Possible(batch, b, e)
        && (e.ExtractFails? ==> Note(batch, l, a) == l.(errors := l.errors + [ScrapeError(b, Extract)]))
        && Note(batch, l, a).errors ==
           (if e.Written? then l.errors
            else if e.WriteFails? then l.errors + [ScrapeError(b, Extract)] + [ScrapeError(b, Extract)]
            else l.errors + [ScrapeError(b, Extract)])
      case Stamp(b) =>
        Note(batch, l, a) == l.(timestamps := l.timestamps[b := Stamped(batch, b)], nTimestamps := l.nTimestamps + 1)
      case _ => Note(batch, l, a) == l
  {
    hide Stamped;
    assert l.errors + [] == l.errors;
  }

  lemma InitialIs(batch: Batch)
    ensures Initial(batch) == Pipe(Hands(batch.blocks, {}, {}, {}, {}, {}), Log(map[], 0, {}, 0, 0, [], map[], map[]))
  {
  }

  lemma {:induction false} NothingGoesWrong(batch: Batch, s: Pipe, acts: seq<Action>, scheduler: nat -> Action, k: nat)
    requires ValidRun(batch, s, acts) && AsProposed(batch, s, acts, scheduler, k)
    requires forall j :: !Faulty(scheduler(j))
    ensures forall j :: 0 <= j < |acts| ==> !Faulty(acts[j])
    decreases |acts|
  {
    hide Enabled, Faulty, Apply;
    if |acts| > 0 {
      NothingGoesWrong(batch, Apply(batch, s, acts[0]), acts[1..], scheduler, k + 1);
      assert forall j :: 1 <= j < |acts| ==> acts[j] == acts[1..][j - 1];
    }
  }

  lemma NoSteps(batch: Batch, scheduler: nat -> Action)
    ensures ValidRun(batch, Initial(batch), []) && AsProposed(batch, Initial(batch), [], scheduler, 0)
    ensures Run(batch, Initial(batch), []) == Initial(batch)
  {
  }

  lemma InBatch(blocks: seq<nat>, i: nat)
    requires blocks != [] && Timestamps.Consecutive(blocks) && blocks[0] <= i <= blocks[|blocks| - 1]
    ensures i in blocks
  {
    assert blocks[i - blocks[0]] == i;
  }

  lemma TimeOf(batch: Batch, s: Pipe, b: nat)
    requires batch.Valid() && Inv(batch, s) && Quiescent(s.hands) && s.log.errors == [] && b in batch.blocks
    ensures Tells(Lookup(s.log.timestamps, b), b, batch.chain)
  {
    hide Inv, Quiescent;
    CleanRun(batch, s);
  }
}
