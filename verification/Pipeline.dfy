// The three-stage worker pipeline of HandleBlaze as a state machine. Blocks travel from the feeder
// through the block, appearance and timestamp workers over unbuffered channels; a step is one atomic
// action of one goroutine, and a run is any interleaving of such steps.
module Pipeline {
  import opened StageFile
  import opened Timestamps
  import opened Wrappers
  import opened Common

  datatype Batch = Batch(
    blocks: seq<nat>,
    ripeBlock: nat,
    lines: nat -> seq<string>,   // the sorted appearance records of a block; none for an empty block
    chain: nat -> nat,           // block timestamps
    nChannels: nat,
    notify: bool)
  {
    ghost predicate Valid() {
      nChannels >= 1 && forall i, j :: 0 <= i < j < |blocks| ==> blocks[i] != blocks[j]
    }
  }

  datatype Stage = Fetch | Extract

  datatype ScrapeError = ScrapeError(block: nat, stage: Stage)

  // What becomes of a block in ProcessAppearances and WriteAppearances.
  // A failed write may leave a truncated file behind.
  datatype Extraction = ExtractFails | BadRecord | WriteFails(left: Option<seq<string>>) | NotifyFails | Written

  datatype Action =
    | Send
    | FetchFailed(b: nat)
    | FetchOk(b: nat)
    | HandOver(b: nat)
    | Extracted(b: nat, e: Extraction)
    | SendTs(b: nat)
    | Stamp(b: nat)

  // Who holds which blocks.
  datatype Hands = Hands(
    pending: seq<nat>,           // not sent yet
    fetching: set<nat>,          // a block worker queries the node
    fetched: set<nat>,           // a block worker offers the data
    extracting: set<nat>,        // an appearance worker has the data
    extracted: set<nat>,         // an appearance worker offers the timestamp
    stamping: set<nat>)          // a timestamp worker has the timestamp

  // What the workers have recorded in the manager and in the ripe and unripe folders.
  datatype Log = Log(
    timestamps: map<nat, Record32>,
    nTimestamps: nat,
    processedMap: set<nat>,
    nRipe: nat,
    nUnripe: nat,
    errors: seq<ScrapeError>,
    ripe: map<nat, seq<string>>,
    unripe: map<nat, seq<string>>)

  datatype Pipe = Pipe(hands: Hands, log: Log)

  function Failures(errors: seq<ScrapeError>, stage: Stage): set<nat> {
    set e | e in errors && e.stage == stage :: e.block
  }

  function EmptyLog(): Log {
    Log(map[], 0, {}, 0, 0, [], map[], map[])
  }

  function Initial(batch: Batch): Pipe {
    Pipe(Hands(batch.blocks, {}, {}, {}, {}, {}), EmptyLog())
  }

  predicate Possible(batch: Batch, b: nat, e: Extraction) {
    match e
    case ExtractFails => true
    case BadRecord => b <= batch.ripeBlock && batch.lines(b) != []
    case WriteFails(_) => batch.lines(b) != []
    case NotifyFails => batch.notify && b <= batch.ripeBlock
    case Written => true
  }

  predicate Enabled(batch: Batch, h: Hands, a: Action) {
    match a
    case Send => h.pending != [] && |h.fetching| + |h.fetched| < batch.nChannels
    case FetchFailed(b) => b in h.fetching
    case FetchOk(b) => b in h.fetching
    case HandOver(b) => b in h.fetched && |h.extracting| + |h.extracted| < batch.nChannels
    case Extracted(b, e) => b in h.extracting && Possible(batch, b, e)
    case SendTs(b) => b in h.extracted && |h.stamping| < batch.nChannels
    case Stamp(b) => b in h.stamping
  }

  function Move(h: Hands, a: Action): Hands {
    match a
    case Send => if h.pending == [] then h else h.(pending := h.pending[1..], fetching := h.fetching + {h.pending[0]})
    case FetchFailed(b) => h.(fetching := h.fetching - {b})
    case FetchOk(b) => h.(fetching := h.fetching - {b}, fetched := h.fetched + {b})
    case HandOver(b) => h.(fetched := h.fetched - {b}, extracting := h.extracting + {b})
    case Extracted(b, _) => h.(extracting := h.extracting - {b}, extracted := h.extracted + {b})
    case SendTs(b) => h.(extracted := h.extracted - {b}, stamping := h.stamping + {b})
    case Stamp(b) => h.(stamping := h.stamping - {b})
  }

  // The file that an extraction leaves in the ripe or the unripe folder.
  function FileLeft(batch: Batch, b: nat, e: Extraction): Option<seq<string>> {
    match e
    case WriteFails(left) => left
    case Written => if batch.lines(b) == [] then None else Some(batch.lines(b))
    case NotifyFails => if batch.lines(b) == [] then None else Some(batch.lines(b))
    case _ => None
  }

  function WithFile(batch: Batch, l: Log, b: nat, file: Option<seq<string>>): Log {
    if file.None? then l
    else if b > batch.ripeBlock then l.(unripe := l.unripe[b := file.value])
    else l.(ripe := l.ripe[b := file.value])
  }

  function Processed(batch: Batch, l: Log, b: nat): Log {
    if b > batch.ripeBlock then l.(processedMap := l.processedMap + {b}, nUnripe := l.nUnripe + 1)
    else l.(processedMap := l.processedMap + {b}, nRipe := l.nRipe + 1)
  }

  // A failed write is recorded by WriteAppearances and again by its caller.
  function Reports(a: Action): seq<ScrapeError> {
    match a
    case FetchFailed(b) => [ScrapeError(b, Fetch)]
    case Extracted(b, e) =>
      if e.Written? then []
      else if e.WriteFails? then [ScrapeError(b, Extract), ScrapeError(b, Extract)]
      else [ScrapeError(b, Extract)]
    case _ => []
  }

  // A step in which something goes wrong.
  predicate Faulty(a: Action) {
    a.FetchFailed? || (a.Extracted? && !a.e.Written?)
  }

  function Stamped(batch: Batch, b: nat): Record32 {
    Record32(b % UINT32, batch.chain(b) % UINT32)
  }

  function Note(batch: Batch, l: Log, a: Action): Log {
    match a
    case Extracted(b, e) =>
      var filed := WithFile(batch, l, b, FileLeft(batch, b, e));
      if e.Written? then Processed(batch, filed, b) else filed.(errors := l.errors + Reports(a))
    case Stamp(b) =>
      l.(timestamps := l.timestamps[b := Stamped(batch, b)], nTimestamps := l.nTimestamps + 1)
    case _ => l.(errors := l.errors + Reports(a))
  }

  function Apply(batch: Batch, s: Pipe, a: Action): Pipe {
    Pipe(Move(s.hands, a), Note(batch, s.log, a))
  }

  predicate ValidRun(batch: Batch, s: Pipe, acts: seq<Action>)
    decreases |acts|
  {
    |acts| == 0 || (Enabled(batch, s.hands, acts[0]) && ValidRun(batch, Apply(batch, s, acts[0]), acts[1..]))
  }

  function Run(batch: Batch, s: Pipe, acts: seq<Action>): Pipe
    requires ValidRun(batch, s, acts)
    decreases |acts|
  {
    if |acts| == 0 then s else Run(batch, Apply(batch, s, acts[0]), acts[1..])
  }

  // All channels are closed and all workers have left.
  predicate Quiescent(h: Hands) {
    h.pending == [] && h.fetching == h.fetched == h.extracting == h.extracted == h.stamping == {}
  }

  // ---- Invariants of every interleaving ----

  function Held(h: Hands, b: nat): nat {
    One(b in h.pending) + One(b in h.fetching) + One(b in h.fetched) + One(b in h.extracting) + One(b in h.extracted)
      + One(b in h.stamping)
  }

  // In how many places a block is: on its way, recorded, or lost to a failed query.
  function Places(s: Pipe, b: nat): nat {
    Held(s.hands, b) + One(b in s.log.timestamps) + One(b in Failures(s.log.errors, Fetch))
  }

  // Each block of the batch is in exactly one place, and no other block anywhere.
  ghost predicate OnePlace(batch: Batch, s: Pipe) {
    && (forall i, j :: 0 <= i < j < |s.hands.pending| ==> s.hands.pending[i] != s.hands.pending[j])
    && (forall b :: Places(s, b) == One(b in batch.blocks))
  }

  // Every block that has left the appearance workers was either processed or reported, not both.
  ghost predicate Accounted(s: Pipe) {
    forall b ::
      One(b in s.log.processedMap) + One(b in Failures(s.log.errors, Extract)) ==
      One(b in s.hands.extracted) + One(b in s.hands.stamping) + One(b in s.log.timestamps)
  }

  // The counters agree with the maps, which hold what they should.
  ghost predicate Counted(batch: Batch, l: Log) {
    RipeCounted(batch, l) && StampsCounted(batch, l)
  }

  ghost predicate RipeCounted(batch: Batch, l: Log) {
    && l.nRipe == |Ripe(batch, l.processedMap)|
    && l.nRipe + l.nUnripe == |l.processedMap|
  }

  ghost predicate StampsCounted(batch: Batch, l: Log) {
    && l.nTimestamps == |l.timestamps|
    && forall b :: b in l.timestamps ==> l.timestamps[b] == Stamped(batch, b)
  }

  function Ripe(batch: Batch, bs: set<nat>): set<nat> {
    set b | b in bs && b <= batch.ripeBlock
  }

  // The files are those of processed non-empty blocks, and whatever failed blocks have left.
  ghost predicate Filed(batch: Batch, l: Log) {
    && (forall b :: b in l.ripe ==> b <= batch.ripeBlock)
    && (forall b :: b in l.unripe ==> b > batch.ripeBlock)
    && (forall b :: b in l.processedMap && b in l.ripe ==> l.ripe[b] == batch.lines(b) != [])
    && (forall b :: b in l.processedMap && b in l.unripe ==> l.unripe[b] == batch.lines(b) != [])
    && (forall b :: b in l.ripe || b in l.unripe ==> b in l.processedMap || b in Failures(l.errors, Extract))
    && (forall b :: b in l.processedMap && batch.lines(b) != [] ==> b in l.ripe || b in l.unripe)
  }

  ghost predicate Inv(batch: Batch, s: Pipe) {
    OnePlace(batch, s) && Accounted(s) && Counted(batch, s.log) && Filed(batch, s.log)
  }

  lemma FailuresGrow(errors: seq<ScrapeError>, es: seq<ScrapeError>, of: Stage)
    ensures Failures(errors + es, of) == Failures(errors, of) + Failures(es, of)
  {
  }

  lemma ErrorsAfter(batch: Batch, l: Log, a: Action)
    ensures Failures(Note(batch, l, a).errors, Fetch) ==
            Failures(l.errors, Fetch) + if a.FetchFailed? then {a.b} else {}
    ensures Failures(Note(batch, l, a).errors, Extract) ==
      Failures(l.errors, Extract) + if a.Extracted? && !a.e.Written? then {a.b} else {}
  {
    assert Note(batch, l, a).errors == l.errors + Reports(a);
    FailuresGrow(l.errors, Reports(a), Fetch);
    FailuresGrow(l.errors, Reports(a), Extract);
    if Reports(a) != [] {
      assert Reports(a)[0] in Reports(a);
    }
  }

  lemma Popped(s: seq<nat>)
    requires s != [] && forall i, j :: 0 <= i < j < |s| ==> s[i] != s[j]
    ensures s[0] !in s[1..] && forall b :: b in s <==> b == s[0] || b in s[1..]
  {
  }

  // A block a goroutine is done with moves on; no other block does.
  lemma HeldAfter(batch: Batch, h: Hands, a: Action, b: nat)
    requires Enabled(batch, h, a) && Held(h, b) <= 1
    requires forall i, j :: 0 <= i < j < |h.pending| ==> h.pending[i] != h.pending[j]
    ensures Held(Move(h, a), b) == Held(h, b) - One((a.Stamp? || a.FetchFailed?) && a.b == b)
  {
  }

  lemma TimestampsAfter(batch: Batch, l: Log, a: Action, b: nat)
    ensures b in Note(batch, l, a).timestamps <==> b in l.timestamps || (a.Stamp? && a.b == b)
  {
  }

  lemma StepKeepsOnePlace(batch: Batch, s: Pipe, a: Action)
    requires OnePlace(batch, s) && Enabled(batch, s.hands, a)
    ensures OnePlace(batch, Apply(batch, s, a))
  {
    hide Held, Note, Failures;
    forall b ensures Places(Apply(batch, s, a), b) == One(b in batch.blocks) {
      assert Places(s, b) == One(b in batch.blocks);
      HeldAfter(batch, s.hands, a, b);
      TimestampsAfter(batch, s.log, a, b);
      ErrorsAfter(batch, s.log, a);
      if a.Stamp? || a.FetchFailed? {
        HeldNow(batch, s.hands, a);
      }
    }
  }

  lemma HeldNow(batch: Batch, h: Hands, a: Action)
    requires Enabled(batch, h, a) && !a.Send?
    ensures Held(h, a.b) >= 1
  {
  }

  lemma ProcessedAfter(batch: Batch, l: Log, a: Action)
    ensures Note(batch, l, a).processedMap == l.processedMap + if a.Extracted? && a.e.Written? then {a.b} else {}
  {
  }

  lemma StepKeepsAccounts(batch: Batch, s: Pipe, a: Action)
    requires OnePlace(batch, s) && Accounted(s) && Enabled(batch, s.hands, a)
    ensures Accounted(Apply(batch, s, a))
  {
    hide Note, Failures;
    ErrorsAfter(batch, s.log, a);
    ProcessedAfter(batch, s.log, a);
    forall b
      ensures var t := Apply(batch, s, a);
        One(b in t.log.processedMap) + One(b in Failures(t.log.errors, Extract)) ==
        One(b in t.hands.extracted) + One(b in t.hands.stamping) + One(b in t.log.timestamps)
    {
      TimestampsAfter(batch, s.log, a, b);
      assert Places(s, b) == One(b in batch.blocks);
    }
  }

  // A block is processed once and stamped once.
  lemma NotYet(batch: Batch, s: Pipe, a: Action)
    requires OnePlace(batch, s) && Accounted(s) && Enabled(batch, s.hands, a)
    ensures a.Extracted? ==> a.b !in s.log.processedMap && a.b !in Failures(s.log.errors, Extract)
    ensures a.Stamp? ==> a.b !in s.log.timestamps
  {
    if !a.Send? {
      assert Places(s, a.b) == One(a.b in batch.blocks);
    }
  }

  lemma CountersAfter(batch: Batch, l: Log, a: Action)
    ensures var l' := Note(batch, l, a);
      && l'.nRipe == l.nRipe + One(a.Extracted? && a.e.Written? && a.b <= batch.ripeBlock)
      && l'.nUnripe == l.nUnripe + One(a.Extracted? && a.e.Written? && a.b > batch.ripeBlock)
      && l'.nTimestamps == l.nTimestamps + One(a.Stamp?)
      && l'.timestamps == (if a.Stamp? then l.timestamps[a.b := Stamped(batch, a.b)] else l.timestamps)
  {
  }

  lemma RipeAfter(batch: Batch, bs: set<nat>, b: nat)
    requires b !in bs
    ensures |Ripe(batch, bs + {b})| == |Ripe(batch, bs)| + One(b <= batch.ripeBlock)
    ensures |bs + {b}| == |bs| + 1
  {
    assert Ripe(batch, bs + {b}) == Ripe(batch, bs) + if b <= batch.ripeBlock then {b} else {};
  }

  lemma StampsAfter(timestamps: map<nat, Record32>, b: nat, r: Record32)
    requires b !in timestamps
    ensures |timestamps[b := r]| == |timestamps| + 1
  {
  }

  lemma StepKeepsRipeCount(batch: Batch, l: Log, a: Action)
    requires RipeCounted(batch, l)
    requires a.Extracted? ==> a.b !in l.processedMap
    ensures RipeCounted(batch, Note(batch, l, a))
  {
    hide Note, Ripe;
    ProcessedAfter(batch, l, a);
    CountersAfter(batch, l, a);
    if a.Extracted? && a.e.Written? {
      RipeAfter(batch, l.processedMap, a.b);
    } else {
      assert Note(batch, l, a).processedMap == l.processedMap;
    }
  }

  lemma StepKeepsStampCount(batch: Batch, l: Log, a: Action)
    requires StampsCounted(batch, l)
    requires a.Stamp? ==> a.b !in l.timestamps
    ensures StampsCounted(batch, Note(batch, l, a))
  {
    hide Note, Stamped;
    CountersAfter(batch, l, a);
    if a.Stamp? {
      StampsAfter(l.timestamps, a.b, Stamped(batch, a.b));
    }
  }

  lemma StepKeepsCounts(batch: Batch, l: Log, a: Action)
    requires Counted(batch, l)
    requires a.Extracted? ==> a.b !in l.processedMap
    requires a.Stamp? ==> a.b !in l.timestamps
    ensures Counted(batch, Note(batch, l, a))
  {
    hide Note, RipeCounted, StampsCounted;
    StepKeepsRipeCount(batch, l, a);
    StepKeepsStampCount(batch, l, a);
  }

  lemma FilesAfter(batch: Batch, l: Log, a: Action)
    ensures var l', file := Note(batch, l, a), if a.Extracted? then FileLeft(batch, a.b, a.e) else None;
      && l'.ripe == (if file.Some? && a.b <= batch.ripeBlock then l.ripe[a.b := file.value] else l.ripe)
      && l'.unripe == (if file.Some? && a.b > batch.ripeBlock then l.unripe[a.b := file.value] else l.unripe)
  {
  }

  lemma StepKeepsFiles(batch: Batch, l: Log, a: Action)
    requires Filed(batch, l)
    requires a.Extracted? ==>
      a.b !in l.processedMap && a.b !in Failures(l.errors, Extract) && Possible(batch, a.b, a.e)
    ensures Filed(batch, Note(batch, l, a))
  {
    hide Failures, Note;
    ErrorsAfter(batch, l, a);
    ProcessedAfter(batch, l, a);
    FilesAfter(batch, l, a);
  }

  lemma StepKeepsInv(batch: Batch, s: Pipe, a: Action)
    requires Inv(batch, s) && Enabled(batch, s.hands, a)
    ensures Inv(batch, Apply(batch, s, a))
  {
    hide OnePlace, Accounted, Counted, Filed, Note;
    StepKeepsOnePlace(batch, s, a);
    NotYet(batch, s, a);
    StepKeepsCounts(batch, s.log, a);
    StepKeepsAccounts(batch, s, a);
    StepKeepsFiles(batch, s.log, a);
  }

  lemma InitialInv(batch: Batch)
    requires batch.Valid()
    ensures Inv(batch, Initial(batch)) && WithinCapacity(batch, Initial(batch).hands)
  {
  }

  lemma {:induction false} EveryInterleavingKeepsInv(batch: Batch, s: Pipe, acts: seq<Action>)
    requires Inv(batch, s) && ValidRun(batch, s, acts)
    ensures Inv(batch, Run(batch, s, acts))
    decreases |acts|
  {
    hide Inv, Apply, Enabled;
    if |acts| > 0 {
      StepKeepsInv(batch, s, acts[0]);
      EveryInterleavingKeepsInv(batch, Apply(batch, s, acts[0]), acts[1..]);
    }
  }

  // At each step the proposed action is taken if it can be; otherwise one that goes well.
  ghost predicate AsProposed(batch: Batch, s: Pipe, acts: seq<Action>, scheduler: nat -> Action, k: nat)
    requires ValidRun(batch, s, acts)
    decreases |acts|
  {
    |acts| == 0 ||
    ((if Enabled(batch, s.hands, scheduler(k)) then acts[0] == scheduler(k) else !Faulty(acts[0]))
     && AsProposed(batch, Apply(batch, s, acts[0]), acts[1..], scheduler, k + 1))
  }

  lemma {:induction false} OneMoreStep(batch: Batch, s: Pipe, acts: seq<Action>, scheduler: nat -> Action, k: nat,
                                       a: Action)
    requires ValidRun(batch, s, acts) && AsProposed(batch, s, acts, scheduler, k)
    requires var h := Run(batch, s, acts).hands;
      && Enabled(batch, h, a)
      && if Enabled(batch, h, scheduler(k + |acts|)) then a == scheduler(k + |acts|) else !Faulty(a)
    ensures ValidRun(batch, s, acts + [a]) && AsProposed(batch, s, acts + [a], scheduler, k)
    ensures Run(batch, s, acts + [a]) == Apply(batch, Run(batch, s, acts), a)
    decreases |acts|
  {
    hide Apply, Enabled;
    if |acts| == 0 {
      assert acts + [a] == [a] && [a][1..] == [];
    } else {
      OneMoreStep(batch, Apply(batch, s, acts[0]), acts[1..], scheduler, k + 1, a);
      assert (acts + [a])[1..] == acts[1..] + [a];
    }
  }

  // Errors are recorded exactly if some step goes wrong.
  lemma {:induction false} ErrorsOfRun(batch: Batch, s: Pipe, acts: seq<Action>)
    requires ValidRun(batch, s, acts)
    ensures Run(batch, s, acts).log.errors == [] <==>
      s.log.errors == [] && forall k :: 0 <= k < |acts| ==> !Faulty(acts[k])
    decreases |acts|
  {
    hide Move, Enabled, Note;
    if |acts| > 0 {
      NoteErrors(batch, s.log, acts[0]);
      ErrorsOfRun(batch, Apply(batch, s, acts[0]), acts[1..]);
      assert forall k :: 1 <= k < |acts| ==> acts[k] == acts[1..][k - 1];
    }
  }

  lemma NoteErrors(batch: Batch, l: Log, a: Action)
    ensures Note(batch, l, a).errors == [] <==> l.errors == [] && !Faulty(a)
  {
    assert Note(batch, l, a).errors == l.errors + Reports(a);
  }

  // No more blocks are with the workers of a stage than there are workers.
  ghost predicate WithinCapacity(batch: Batch, h: Hands) {
    && |h.fetching + h.fetched| <= batch.nChannels
    && |h.extracting + h.extracted| <= batch.nChannels
    && |h.stamping| <= batch.nChannels
  }

  lemma StepKeepsCapacity(batch: Batch, h: Hands, a: Action)
    requires WithinCapacity(batch, h) && Enabled(batch, h, a)
    ensures WithinCapacity(batch, Move(h, a))
  {
    var g := Move(h, a);
    match a
    case Send => Added(h.fetching, h.fetched, h.pending[0]);
    case FetchFailed(b) => Fewer(g.fetching + g.fetched, h.fetching + h.fetched);
    case FetchOk(b) => Fewer(g.fetching + g.fetched, h.fetching + h.fetched);
    case HandOver(b) =>
      Added(h.extracting, h.extracted, b);
      Fewer(g.fetching + g.fetched, h.fetching + h.fetched);
    case Extracted(b, _) => Fewer(g.extracting + g.extracted, h.extracting + h.extracted);
    case SendTs(b) =>
      Added(h.stamping, {}, b);
      Fewer(g.extracting + g.extracted, h.extracting + h.extracted);
    case Stamp(b) => Fewer(g.stamping, h.stamping);
  }

  lemma Fewer(part: set<nat>, all: set<nat>)
    requires part <= all
    ensures |part| <= |all|
  {
    assert all == part + (all - part);
  }

  lemma Added(s: set<nat>, t: set<nat>, b: nat)
    ensures |(s + {b}) + t| <= |s| + |t| + 1
  {
    Fewer((s + {b}) + t, (s + t) + {b});
    assert |(s + t) + {b}| <= |s + t| + 1;
    assert |s + t| <= |s| + |t|;
  }

  lemma {:induction false} EveryInterleavingKeepsCapacity(batch: Batch, s: Pipe, acts: seq<Action>)
    requires WithinCapacity(batch, s.hands) && ValidRun(batch, s, acts)
    ensures WithinCapacity(batch, Run(batch, s, acts).hands)
    decreases |acts|
  {
    hide WithinCapacity, Enabled, Move, Note;
    if |acts| > 0 {
      StepKeepsCapacity(batch, s.hands, acts[0]);
      EveryInterleavingKeepsCapacity(batch, Apply(batch, s, acts[0]), acts[1..]);
    }
  }

  // Every fault can happen wherever the program can meet it: a query of a block that is being fetched; an
  // extraction; a record, a file or a notification of a block that has any.
  lemma AnyFault(batch: Batch, h: Hands, b: nat)
    ensures b in h.fetching ==> Enabled(batch, h, FetchFailed(b))
    ensures b in h.extracting ==>
      && Enabled(batch, h, Extracted(b, ExtractFails))
      && (batch.lines(b) != [] ==> forall left :: Enabled(batch, h, Extracted(b, WriteFails(left))))
      && (b <= batch.ripeBlock && batch.lines(b) != [] ==> Enabled(batch, h, Extracted(b, BadRecord)))
      && (b <= batch.ripeBlock && batch.notify ==> Enabled(batch, h, Extracted(b, NotifyFails)))
  {
  }

  // ---- Termination ----

  // How many steps the blocks still have before them.
  function Work(h: Hands): nat {
    6 * |h.pending| + 5 * |h.fetching| + 4 * |h.fetched| + 3 * |h.extracting| + 2 * |h.extracted| + |h.stamping|
  }

  // Every step shortens the way, whoever takes it.
  lemma StepWorks(batch: Batch, h: Hands, a: Action)
    requires Enabled(batch, h, a)
    ensures Work(Move(h, a)) < Work(h)
  {
    match a
    case Send => Moved({}, h.fetching, h.pending[0]);
    case FetchFailed(b) => Moved(h.fetching, {}, b);
    case FetchOk(b) => Moved(h.fetching, h.fetched, b);
    case HandOver(b) => Moved(h.fetched, h.extracting, b);
    case Extracted(b, _) => Moved(h.extracting, h.extracted, b);
    case SendTs(b) => Moved(h.extracted, h.stamping, b);
    case Stamp(b) => Moved(h.stamping, {}, b);
  }

  lemma Moved(from: set<nat>, to: set<nat>, b: nat)
    ensures |to + {b}| <= |to| + 1
    ensures b in from ==> |from - {b}| == |from| - 1
  {
  }

  lemma {:induction false} EveryRunEnds(batch: Batch, s: Pipe, acts: seq<Action>)
    requires ValidRun(batch, s, acts)
    ensures |acts| + Work(Run(batch, s, acts).hands) <= Work(s.hands)
    decreases |acts|
  {
    hide Work, Note, Enabled, Move;
    if |acts| > 0 {
      StepWorks(batch, s.hands, acts[0]);
      EveryRunEnds(batch, Apply(batch, s, acts[0]), acts[1..]);
    }
  }

  // However the workers interleave, they are done after at most six steps a block.
  lemma RunsAreShort(batch: Batch, acts: seq<Action>)
    requires ValidRun(batch, Initial(batch), acts)
    ensures |acts| <= 6 * |batch.blocks|
  {
    EveryRunEnds(batch, Initial(batch), acts);
  }

  // No deadlock: while a block is on its way some goroutine can take a step.
  lemma NoDeadlock(batch: Batch, h: Hands) returns (a: Action)
    requires batch.nChannels >= 1 && !Quiescent(h)
    ensures Enabled(batch, h, a)
  {
    if b :| b in h.stamping {
      a := Stamp(b);
    } else if b :| b in h.extracted {
      a := SendTs(b);
    } else if b :| b in h.extracting {
      a := Extracted(b, Written);
    } else if b :| b in h.fetched {
      a := HandOver(b);
    } else if b :| b in h.fetching {
      a := FetchOk(b);
    } else {
      a := Send;
    }
  }

  // ---- What is left when all workers have left ----

  lemma Settled(batch: Batch, s: Pipe, b: nat)
    requires Inv(batch, s) && Quiescent(s.hands)
    ensures b in s.log.timestamps || b in Failures(s.log.errors, Fetch) <==> b in batch.blocks
    ensures !(b in s.log.timestamps && b in Failures(s.log.errors, Fetch))
    ensures b in s.log.processedMap || b in Failures(s.log.errors, Extract) <==> b in s.log.timestamps
    ensures !(b in s.log.processedMap && b in Failures(s.log.errors, Extract))
  {
  }

  lemma {:induction false} BlockSetSize(blocks: seq<nat>)
    requires forall i, j :: 0 <= i < j < |blocks| ==> blocks[i] != blocks[j]
    ensures |ToSet(blocks)| == |blocks|
  {
    if blocks != [] {
      BlockSetSize(blocks[1..]);
      Popped(blocks);
      assert ToSet(blocks) == ToSet(blocks[1..]) + {blocks[0]};
      assert blocks[0] !in ToSet(blocks[1..]);
    }
  }

  lemma SplitSize(all: set<nat>, part: set<nat>, rest: set<nat>)
    requires forall b :: b in part || b in rest <==> b in all
    requires forall b :: !(b in part && b in rest)
    ensures |all| == |part| + |rest|
  {
    assert all == part + rest && part !! rest;
  }

  // Whatever the interleaving: timestamps are the blocks less the failed queries, processed blocks the
  // timestamps less the failed writes.
  lemma QuiescentCounts(batch: Batch, s: Pipe)
    requires batch.Valid() && Inv(batch, s) && Quiescent(s.hands)
    ensures s.log.nTimestamps == |batch.blocks| - |Failures(s.log.errors, Fetch)|
    ensures s.log.nRipe + s.log.nUnripe == |s.log.processedMap| == s.log.nTimestamps - |Failures(s.log.errors, Extract)|
  {
    BlockSetSize(batch.blocks);
    hide Failures, OnePlace, Accounted, Filed, Quiescent, Ripe, Stamped;
    var lost, unwritten := Failures(s.log.errors, Fetch), Failures(s.log.errors, Extract);
    forall b
      ensures b in s.log.timestamps.Keys || b in lost <==> b in ToSet(batch.blocks)
      ensures !(b in s.log.timestamps.Keys && b in lost)
      ensures b in s.log.processedMap || b in unwritten <==> b in s.log.timestamps.Keys
      ensures !(b in s.log.processedMap && b in unwritten)
    {
      Settled(batch, s, b);
    }
    SplitSize(ToSet(batch.blocks), s.log.timestamps.Keys, lost);
    SplitSize(s.log.timestamps.Keys, s.log.processedMap, unwritten);
  }

  // The checks of ScrapeBatch.
  predicate PassesChecks(batch: Batch, l: Log) {
    && (forall b :: b in batch.blocks ==> b in l.processedMap)
    && |batch.blocks| == |l.processedMap| == l.nRipe + l.nUnripe == l.nTimestamps
  }

  // They can be passed exactly when no error was recorded at all.
  lemma ChecksMeanNoError(batch: Batch, s: Pipe)
    requires batch.Valid() && Inv(batch, s) && Quiescent(s.hands)
    ensures PassesChecks(batch, s.log) <==> s.log.errors == []
  {
    QuiescentCounts(batch, s);
    hide Inv, Quiescent;
    var lost, unwritten := Failures(s.log.errors, Fetch), Failures(s.log.errors, Extract);
    if s.log.errors == [] {
      assert lost == {} && unwritten == {};
      forall b | b in batch.blocks ensures b in s.log.processedMap {
        Settled(batch, s, b);
      }
    } else {
      var e := s.log.errors[0];
      assert e in s.log.errors;
      assert e.block in if e.stage.Fetch? then lost else unwritten;
    }
  }

  // Without errors the folders hold exactly the non-empty blocks, split at the ripe block, and the
  // counters say how many blocks lie on each side.
  lemma CleanRun(batch: Batch, s: Pipe)
    requires batch.Valid() && Inv(batch, s) && Quiescent(s.hands) && s.log.errors == []
    ensures forall b :: b in s.log.ripe <==> b in batch.blocks && b <= batch.ripeBlock && batch.lines(b) != []
    ensures forall b :: b in s.log.unripe <==> b in batch.blocks && b > batch.ripeBlock && batch.lines(b) != []
    ensures forall b :: b in s.log.ripe ==> s.log.ripe[b] == batch.lines(b)
    ensures forall b :: b in s.log.unripe ==> s.log.unripe[b] == batch.lines(b)
    ensures forall b :: b in batch.blocks ==> b in s.log.timestamps
    ensures forall b :: b in batch.blocks ==>
      s.log.timestamps[b] == Record32(b % 0x1_0000_0000, batch.chain(b) % 0x1_0000_0000)
    ensures s.log.nRipe == |set b | b in batch.blocks && b <= batch.ripeBlock|
  {
    hide OnePlace, Accounted;
    assert Failures(s.log.errors, Fetch) == Failures(s.log.errors, Extract) == {};
    hide Failures, Quiescent;
    forall b
      ensures b in s.log.timestamps <==> b in batch.blocks
      ensures b in s.log.processedMap <==> b in batch.blocks
    {
      Settled(batch, s, b);
    }
    assert Ripe(batch, s.log.processedMap) == set b | b in batch.blocks && b <= batch.ripeBlock;
  }
}
