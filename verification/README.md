# TrueBlocks scraper, init and index checks: a Dafny model

The model covers the part of `chifra` that builds, reconciles, audits and cuts the Unchained Index, and the
approvals report.

* **The scraper** (`internal/scrape`) runs in rounds. A round plans a batch of blocks, runs a three-stage worker
  pipeline that writes one file per block into the ripe and unripe folders, accepts or rejects the batch, appends
  timestamps, and consolidates: it merges the stage file and the ripe files, cuts chunks at snap points or when enough
  appearances have gathered, and writes a new stage file.
* **Init** (`internal/init`) compares the chunks on disc with a manifest, removes what does not agree and lists the
  parts to fetch.
* **Checks and truncation** (`internal/chunks`) audit chunk ranges, chunk sizes and manifests, and cut an index at a
  block.
* **Approvals** (`internal/tokens`) keeps the latest `Approval` event of every owner, spender and token.

| File | Contents |
|---|---|
| `Common`, `Ranges`, `Text`, `Sorting`, `Wrappers` | 32-bit numbers, block ranges, padded numbers and string order, sorting, `Option` |
| `StageFile` | stage and ripe files: parser, writer, round trip |
| `Index` | the index as a value: a round, runs, the invariant and what it means |
| `Consolidate` | the imperative `Consolidate` and the relation on values that it refines |
| `UnripeEnd`, `Rounds` | what a call does to the index: the blocks that are not ripe yet, a completed round, rollback, and exactly which calls damage the index |
| `Witnesses` | concrete inputs for what the code does not keep |
| `Pipeline`, `ScrapeBatch` | the worker pipeline as a state machine; batch acceptance |
| `Timestamps` | the append-only timestamp file |
| `HandleScrape` | the round loop |
| `InitPrepare` | reconciling disc and manifest |
| `Report`, `CheckManifest`, `CheckSequential`, `CheckInternal` | the audits, and that they accept what the scraper writes |
| `Truncate` | cutting an index |
| `Approvals` | latest approvals |

Code that updates state step by step is modelled by classes and loops (`IndexFolder`, `TimestampFile`, `BlazeManager`,
`Scraper`, `ChunkFolders`, `Manifest`, `CompareState`, `LocalIndex`, `ApprovalMap`). Each such method is specified by
a function or relation on values, and the lemmas are about those. Go map iteration and folder walks take any order.
Everything outside the code - the node, the file system, cancellation - is an argument that says what fails and when.

## Hypotheses

* Settings: `perChunk >= 1`, `snapTo >= 1`, `nChannels >= 1`. Where snap points lie does not matter to the scraper's
  invariant, so `snap` is any predicate there; `Index.Grid` is the program's.
* A ripe block has the same appearance lines whenever it is scraped (`RipeLines`), and they carry its own number
  (`Faithful`, `Recordable`). Unripe blocks may change from round to round.
* `Scraper.Calm` and `Scraper.Smooth` say that no fault occurs while the index is rewritten, and before that. They are
  needed only where a round is to complete. Under faults a round is `Torn` if and only if no stage file makes the index
  on disc sound, and each of the three kinds of damage is named (`Scraper.DamagedBy`) with the fault it takes
  (`Scraper.Faults`); any other fault leaves a sound index that is not behind. How a round ends, and whether the loop
  goes on, is exact for every index and every fault (`Scraper.Ends`, `Scraper.Final`).
* Block heights and ranges fit `uint64`; the wrap-around of the batch arithmetic is explicit (`Scraper.Wrap`).

## Where the code does less than its comments or one might expect

A call of `Consolidate` on a sound index leaves an unsound one if and only if `Rounds.WillDamage` holds, which can be
told before the call (`Rounds.DamageIsForeseen`). There are three ways:

* A call stopped after it cut a chunk puts the old stage file back although the chunk already contains it. The index
  stays exact if and only if there was no stage file (`Rounds.StoppedRound`, `Index.StoppedAfterChunk`; a concrete index
  in `Witnesses.StoppedRoundRepeats`).
* The deferred restore (`scrape_consolidate.go:36-38`) brings the stage back in every case but one: when the
  notification about a stage that was already written fails, the old file is put back beside the new one
  (`Rounds.Rollback`). That is harmless if and only if there was no stage file or both have the same name
  (`Rounds.SoundUnlessDamaged`, `Witnesses.FailedNotificationLeavesTwo`).
* A block without addresses leaves no unripe file, so it passes for a ripe one. If it is a snap point, a chunk is cut
  beyond the last ripe block. Its appearances then stay exact if and only if all the blocks passed over turn out to have
  none (`Rounds.UnripeSnapSkipsBlocks`, `Witnesses.FilelessSnapLosesBlock`), and the index stays sound if and only if
  moreover no snap point among them was passed over for its unripe file (`UnripeEnd.SoundIf`, `UnripeEnd.OnlyIf`).
  Elsewhere the unripe end of a batch does no harm (`UnripeEnd.UnripeTail`).

Other places:

* A round moves on if and only if one of its ripe blocks has a kept appearance or is a snap point; a batch without
  either is scraped again in every later round (`Index.RoundProgress`, `Witnesses.EmptyBatchStays`). Undisturbed rounds
  reach the last busy ripe block if and only if no full batch on the way is idle (`Scraper.ReachesLastBusy`).
* `isValidChunk` overwrites an error from the bloom filter's header with the result of the index's
  (`InitPrepare.SwallowedError`).
* The comment on `prepareDownloadList` says that a chunk with one bad part is deleted and downloaded as a whole. Both
  parts are deleted, but the index is named for download only with `--all` or for block zero
  (`InitPrepare.RecordsNameParts`). It also says that a dry run adds nothing to the list; the list has the same chunks
  as that of the real run (`InitPrepare.DryRunNamesTheSame`).
* `CheckManifest` compares only as many items as the shorter array has, and a difference in length is a message but no
  failure. The message of its first pass names the two arrays the wrong way round
  (`CheckManifest.CompareState.CheckArrays`).
* The sequential audit accepts ranges that run backwards, with or without gaps; a block is then in one range more for
  every such range over it (`CheckSequential.StrictAuditCounts`, `CheckSequential.BackwardRangePasses`,
  `CheckSequential.LenientAuditCounts`, `CheckSequential.BackwardRangePassesLenient`).
* A gap between a range from block zero and one that ends with the largest uint64 is reported as two ranges in the wrong
  order, because `Follows` wraps around (`CheckSequential.ComplaintsTellApart`).
* The message "snap too early" cannot be produced (`CheckInternal.SnapIsNeverTooEarly`), and a chunk cut at a snap point
  by a block that also fills it fails the audit although the scraper wrote it so
  (`CheckInternal.WriterAndAuditorAgree`, `CheckInternal.ScrapedIndexAudit`).
* Truncation stops with an error at a chunk whose index file was never downloaded
  (`Truncate.LocalIndex.TruncateIndex`). If no chunk survives, the reported latest block is zero
  (`Truncate.LeavesPrefix`).

## Model

| member | source | states |
|---|---|---|
| Text.ParsePad | internal/scrape/scrape_consolidate.go:191-192 | trimming the zeros of a padded number and parsing the rest gives the number back, zero included although trimming leaves nothing |
| Text.PadMeans | internal/scrape/scrape_consolidate.go:137 | a padded number has at least the width, each character is the decimal digit of its place, and only padding leads with zeros |
| Text.NumberMeans | internal/scrape/scrape_consolidate.go:191-192 | a number field of decimal digits parses to its value, at most 2^64 - 1; any other text parses to zero |
| Text.RangeOrder | pkg/ranges/ranges.go:74-76 | up to nine digits, range names sort as (first, last) pairs and are equal only for equal ranges |
| Text.StringOrderIsTotal | internal/scrape/scrape_consolidate.go:144 | the order of `sort.Strings` is total, so what it sorts has one sorted arrangement |
| Sorting.OneArrangement | internal/scrape/scrape_consolidate.go:143-144 | two sorted arrangements of the same elements under a total order are the same sequence |
| StageFile.ParseFormat | internal/scrape/scrape_consolidate.go:137 | the parser reads a written row back as the same address, block and index |
| StageFile.RowMeans | internal/scrape/scrape_consolidate.go:186-204 | a line of three fields is kept as (address with A to Z in small letters, block and index cut to 32 bits), whatever the fields are, unless it is the record of address 0xdeaddead... with index 99997 |
| StageFile.PaddedRow | internal/scrape/scrape_consolidate.go:137-204 | the same for a row with a padded block and a padded index |
| StageFile.OtherLine | internal/scrape/scrape_consolidate.go:188-189 | a line without exactly two tabs is ignored |
| StageFile.KeptAppends | internal/scrape/scrape_consolidate.go:187-206 | a file holds what its lines hold, each line by itself |
| StageFile.NoMarkerKept | internal/scrape/scrape_consolidate.go:193-196 | no record of address 0xdeaddead... with index 99997 is ever kept, so none gets into a count, a range or a chunk |
| StageFile.StageRoundTrip | internal/scrape/scrape_consolidate.go:129-149 | writing a table of appearances as a sorted file and parsing the file gives the same multiset |
| StageFile.FormatOrder | internal/scrape/scrape_consolidate.go:137-144 | for 42-character addresses, blocks below 10^9 and indexes below 10^5 rows are 58 characters long and compare as strings as (address, block, index) do |
| StageFile.StageOrder | internal/scrape/scrape_consolidate.go:143-144 | sorting the rows as strings puts the records in (address, block, index) order |
| StageFile.StageSize | internal/scrape/scrape_consolidate.go:154 | file size divided by 59 is the number of records |
| StageFile.ReadAppearances | internal/scrape/scrape_consolidate.go:175-208 | the map holds each kept appearance as often as the file does; the count and the range agree with it; which appearances are kept is said line by line by RowMeans, OtherLine and KeptAppends |
| StageFile.HoldsEmpty | internal/scrape/scrape_consolidate.go:126 | the map is empty exactly if no appearance has gathered |
| StageFile.SpanIsTight | internal/scrape/scrape_consolidate.go:180-198 | the range of a file is the least one that contains all its kept appearances; without any it is NOPOSN to 0 |
| StageFile.Merge | internal/scrape/scrape_consolidate.go:88-90 | appending the ripe file's map adds the two multisets, whatever the key order |
| StageFile.Flatten | internal/scrape/scrape_consolidate.go:130-141 | the rows hold each appearance of the map exactly as often as it occurs, whatever the key order |
| StageFile.StageIsCanonical | internal/scrape/scrape_consolidate.go:137-147 | every number of a stage file that was written fits the fields it will be read into |
| Index.AddBlockKeeps | internal/scrape/scrape_consolidate.go:84-122 | adding one block keeps the loop invariant: exactness, chunk shape, size bound, no snap point passed; a cut chunk ends with that block |
| Index.AddBlocksKeeps | internal/scrape/scrape_consolidate.go:57-123 | so does adding any number of blocks, and chunks are only appended |
| Index.LoadOk | internal/scrape/scrape_consolidate.go:48-54 | a round resumes from a consistent loop state whether or not there is a stage file |
| Index.Settle | internal/scrape/scrape_consolidate.go:125-151 | what a round leaves is a sound index, although trailing empty blocks will be scraped again |
| Index.TrailingBlocksAreEmpty | internal/scrape/scrape_consolidate.go:125-139 | blocks that were added but lie above the new height have no appearances |
| Index.RoundKeepsInv | internal/scrape/scrape_consolidate.go:44-151 | a round keeps the index exact and in shape and does not pass its last block |
| Index.RunKeepsInv | internal/scrape/handle_show.go:104-271 | after any number of rounds of any sizes the chunks and the stage hold exactly the appearances of all blocks below the next start, each once; chunks and height only grow |
| Index.GenesisInv | internal/scrape/scrape_prepare.go:36-74 | the index with one chunk for block zero is sound |
| Index.ChunkIsExact | internal/scrape/scrape_consolidate.go:98-121 | a chunk holds exactly the appearances of the blocks its name covers |
| Index.StageIsExact | internal/scrape/scrape_consolidate.go:125-151 | the stage holds exactly the appearances after the last chunk |
| Index.RangesAreOrdered | internal/scrape/scrape_consolidate.go:115-121 | chunk ranges are well-formed, increasing and disjoint |
| Index.GapsAreEmpty | internal/scrape/scrape_consolidate.go:49-54 | a block between two consecutive chunks has no appearances |
| Index.BusyChainTiles | internal/scrape/scrape_consolidate.go:115-121 | if every block has an appearance the chunks tile the chain |
| Index.RoundProgress | internal/scrape/handle_show.go:155-157 | the next start never goes back, and goes up if and only if a ripe block of the round has a kept appearance or is a snap point |
| Index.RoundStops | internal/scrape/scrape_consolidate.go:125-151 | a round stops at the last of its ripe blocks that has a kept appearance or is a snap point, and stays if there is none |
| Index.TopIsBusy | internal/scrape/scrape_consolidate.go:125-151 | the height of a sound index is block zero or a block with an appearance or a snap point |
| Index.BusyRound | internal/scrape/scrape_consolidate.go:125-151 | a round whose last block has an appearance takes the index exactly to that block |
| Index.ChunksAreExact | internal/scrape/scrape_consolidate.go:98-121 | the chunks alone hold exactly the appearances up to the last chunk's end |
| Index.StoppedAfterChunk | internal/scrape/scrape_consolidate.go:29-39 | chunks of a stopped round beside the restored stage are exact if and only if there was no stage |
| Consolidation.IndexFolder.LatestStage | pkg/file/bounds.go:9-19 | the file found is the last of the folder in name order |
| Consolidation.IndexFolder.CutIfDue | internal/scrape/scrape_consolidate.go:93-113 | a chunk with exactly the gathered appearances is appended at a snap point or once there are enough; which failure is critical |
| Consolidation.TrackStep | internal/scrape/scrape_consolidate.go:57-123 | where the whole loop ends, or how far it is on its way, after one more block: each of the six ways through the loop body |
| Consolidation.IndexFolder.CutChunks | internal/scrape/scrape_consolidate.go:56-123 | the loop writes the chunks of the functional round up to where it stops, stops for the same reason, and if it completes holds the rest; on every outcome exactly the ripe files read so far are gone, or both folders are empty after a missing address file |
| Consolidation.IndexFolder.WriteStage | internal/scrape/scrape_consolidate.go:125-166 | the new stage file holds the gathered appearances under the name after the last chunk; what an interruption or a failed write leaves |
| Consolidation.LastOf | internal/scrape/scrape_consolidate.go:131-141 | the end of the new stage's name is the highest block of its rows |
| Consolidation.IndexFolder.Consolidate | internal/scrape/scrape_consolidate.go:25-172 | the whole effect on chunks, stage, ripe and unripe files, on every outcome, for every combination of failures and interruptions |
| UnripeEnd.UnripeTail | internal/scrape/scrape_consolidate.go:58-91 | without a fileless snap point the unripe end of a batch adds no appearances and cuts no chunk |
| UnripeEnd.Shape | internal/scrape/scrape_consolidate.go:58-122 | the unripe end either changes nothing or puts all that has gathered into chunks, the last of which ends with a snap point that has no unripe file |
| UnripeEnd.SoundIf | internal/scrape/scrape_consolidate.go:58-122 | if no block passed over turns out to have appearances or is a snap point with an unripe file, the chunks alone are a sound index |
| UnripeEnd.OnlyIf | internal/scrape/scrape_consolidate.go:58-122 | and only then: otherwise the chunks are no sound index |
| UnripeEnd.ExactIf | internal/scrape/scrape_consolidate.go:58-122 | the chunks alone are exact if and only if no block passed over turns out to have appearances |
| Rounds.StartIsLoad | internal/scrape/scrape_consolidate.go:48-54 | parsing the stage file gives the appearances and the range that a round of the abstract index starts from |
| Rounds.RipePart | internal/scrape/scrape_consolidate.go:57-123 | over the ripe blocks the loop stops with the chunks of a shorter round, or goes on to the unripe blocks in the state of the whole round |
| Rounds.Processed | internal/scrape/scrape_consolidate.go:57-123 | wherever and why ever the loop stops: its chunks alone are a sound index exactly if they do not reach over an unripe block that turns out to have appearances or is a snap point with an unripe file; if it completes without reaching beyond the ripe blocks it is the round |
| Rounds.WrittenStage | internal/scrape/scrape_consolidate.go:125-151 | the written stage file, read back, is the stage of the abstract index |
| Rounds.CompletedRound | internal/scrape/scrape_consolidate.go:25-172 | a successful call takes the index on disc to the abstract round's index and leaves at most one stage file, named as the next call expects |
| Rounds.CalmProcess | internal/scrape/scrape_consolidate.go:57-123 | without a fault at one of its blocks the loop completes |
| Rounds.StopCause | internal/scrape/scrape_consolidate.go:57-113 | the loop is cancelled only before one of its blocks and fails critically only at a block whose chunk cannot be written |
| Rounds.CallCause | internal/scrape/scrape_consolidate.go:57-141 | so a whole call is cancelled only there or while it formats the stage |
| Rounds.Rollback | internal/scrape/scrape_consolidate.go:29-39 | a call that errs or is cancelled restores the stage files exactly and drops no chunk; the one exception is a failed notification, which leaves the old and the new stage file, the same if and only if they have one name |
| Rounds.SoundUnlessDamaged | internal/scrape/scrape_consolidate.go:25-172 | after any call, whatever fails, the index is sound and not behind if it is not damaged in one of three ways, and no stage file makes it sound if it is; what each kind of damage takes; an undamaged index is that of the round or what it was; a failed notification damages it if and only if there was a stage file of another name |
| Rounds.DamageIsForeseen | internal/scrape/scrape_consolidate.go:25-172 | a call makes a sound index unsound if and only if `WillDamage`, a condition on the folders, the old stage and the faults, holds before it |
| Rounds.UnripeSnapSkipsBlocks | internal/scrape/scrape_consolidate.go:63-122 | when the chunks of a call reach beyond its ripe blocks, a fileless snap point was met, and they are exact if and only if no block in between turns out to have appearances |
| Rounds.StoppedRound | internal/scrape/scrape_consolidate.go:29-39 | an interrupted call leaves the disc as it was, or, once it cut a chunk, exact if and only if there was no stage file |
| Rounds.ChunksStay | internal/scrape/scrape_consolidate.go:98-121 | no outcome ever drops a finished chunk |
| Pipeline.StepKeepsInv | internal/scrape/scrape_blaze.go:26-228 | every step of any goroutine keeps each block in exactly one place, every outcome accounted for once, and counters, maps and files in agreement |
| Pipeline.InitialInv | internal/scrape/scrape_blaze.go:28-34 | it holds when the workers start |
| Pipeline.EveryInterleavingKeepsInv | internal/scrape/scrape_blaze.go:26-228 | it holds after every interleaving |
| Pipeline.EveryInterleavingKeepsCapacity | internal/scrape/scrape_blaze.go:38-60 | after every interleaving no more blocks are with a kind of worker than there are such workers |
| Pipeline.OneMoreStep | internal/scrape/scrape_blaze.go:26-83 | a run of the proposed steps, extended by one step that can be taken, is such a run again |
| Pipeline.ErrorsOfRun | internal/scrape/scrape_blaze.go:98-128 | after any run errors are recorded if and only if some step of it went wrong |
| Pipeline.EveryRunEnds | internal/scrape/scrape_blaze.go:62-82 | every interleaving is finite, with a bound on its steps |
| Pipeline.RunsAreShort | internal/scrape/scrape_blaze.go:62-82 | any interleaving is done after at most six steps a block |
| Pipeline.NoDeadlock | internal/scrape/scrape_blaze.go:38-80 | while a block is on its way some goroutine can take a step, with any number of channels from one |
| Pipeline.AnyFault | internal/scrape/scrape_blaze.go:98-228 | every query, extraction, record, file and notification that a block has may fail |
| Pipeline.Settled | internal/scrape/scrape_blaze.go:87-152 | at the end a block is stamped or lost to a failed query, and a stamped block is processed or reported, never both |
| Pipeline.QuiescentCounts | internal/scrape/scrape_blaze.go:87-228 | at the end timestamps are blocks less failed queries, and processed blocks are timestamps less failed writes |
| Pipeline.ChecksMeanNoError | internal/scrape/scrape_batch.go:33-63 | the checks of a batch can be passed if and only if no error was recorded |
| Pipeline.CleanRun | internal/scrape/scrape_blaze.go:87-228 | without errors the folders hold exactly the non-empty blocks with their lines, split at the ripe block, the ripe counter is their number, and each block has the record (its number, the time the chain gives it), both cut to 32 bits |
| Batches.BlazeManager.WriteAppearances | internal/scrape/scrape_blaze.go:165-228 | its effect on files, counters and errors is the pipeline's; a failed write, which may leave any file behind or none, is recorded once |
| Batches.BlazeManager.Step | internal/scrape/scrape_blaze.go:87-152 | each worker action changes the manager's state as the pipeline's step does |
| Batches.BlazeManager.HandleBlaze | internal/scrape/scrape_blaze.go:26-83 | its state is that of a run of the steps that the scheduler proposes, wherever they can be taken; it ends with all workers done, or cancelled exactly when the user cancels before that |
| Batches.BlazeManager.WriteTimestamps | internal/scrape/save_timestamps.go:17-106 | every record that is appended holds its position and the time the chain gives that block; when it is cancelled, and what it takes to fail |
| Batches.BlazeManager.ScrapeBatch | internal/scrape/scrape_batch.go:18-71 | a batch is rejected if and only if a step of its workers went wrong, and then both folders are empty; it is cancelled exactly if the user cancels before the workers are done or, after a run without errors, before or while timestamps are written; an accepted one has run to the end without errors; a batch in which nothing goes wrong is accepted under every scheduler; every timestamp that is appended is the chain's |
| Timestamps.TimestampFile.WriteTimestamps | internal/scrape/save_timestamps.go:17-106 | on every path record i is that of block i, the old file is a prefix of the new one and each new record is the batch's or the chain's; how far a call gets, exactly when it is cancelled, and what else stops it; a backfill is as long as the environment asks for, but at least 2000 |
| Timestamps.CatchesUp | internal/scrape/save_timestamps.go:37-97 | for one fixed batch the last block is reached after ceil((first - n) / maxBlocks) + 1 undisturbed calls, and not before |
| Timestamps.CeilDivIsCeiling | internal/scrape/save_timestamps.go:41-69 | the number of backfills is the least that covers the missing records |
| Scraper.PlanBatch | internal/scrape/handle_show.go:122-176 | with wrapping arithmetic a round gets exactly the blocks from the start up to the count or the chain height, and none at the chain's end |
| Scraper.Scraper.NextIndexHeight | pkg/rpc/get_meta.go:49-75 | the next start is one past the highest block that a chunk, a stage file or a ripe file is named after; with one stage file and no ripe files it is one past the top of the index |
| Scraper.AcceptedBatch | internal/scrape/scrape_batch.go:33-70 | an accepted batch gives Consolidate each ripe block's own appearances and nothing of an unripe block, and an unripe block has a file exactly if it had appearances when it was scraped |
| Scraper.AfterConsolidate | internal/scrape/handle_show.go:203-220 | after a call the round is complete, or was stopped with a sound index, or overran the ripe blocks without harm, or is torn: then and only then the index is damaged and no stage file makes it sound, and the fault behind it is named |
| Scraper.CalmSucceeds | internal/scrape/scrape_consolidate.go:29-172 | without faults a call is completed unless it cannot back up the stage, and then it changes nothing |
| Scraper.Scraper.ConsolidateBatch | internal/scrape/handle_show.go:203-235 | without ripe blocks nothing happens; otherwise the call's effect is a round over all ripe blocks of the batch, a sound stop, a sound overrun, or a torn index, which is unsound and damaged in a named way by a named fault; the loop is to stop if and only if the call was cancelled or could not write a chunk |
| Scraper.Scraper.RunBatch | internal/scrape/handle_show.go:185-235 | how a planned round ends is said exactly: lost to a faulty step, a cancellation or the timestamps; nothing to consolidate; or a call of Consolidate on what its workers left |
| Scraper.Scraper.Round | internal/scrape/handle_show.go:104-235 | one time around the loop leaves the index alone, advances it by a round over exactly the ripe blocks ahead, stops or overruns with a sound index, or tears it, which means that it is unsound, and how; how it ends (`Ends`), and that the loop is to stop if and only if that is a cancellation or a chunk that could not be written; if all goes well it is the round over the ripe blocks ahead; every timestamp it appends is the chain's, and no chunk is dropped |
| Scraper.QuitsOnCause | internal/scrape/handle_show.go:104-235 | a round from a sound index that ends the loop was cancelled at one of seven points or met a chunk write that fails |
| Scraper.RoundsAppend | internal/scrape/handle_show.go:104-271 | a run extended by one round is that round applied to the run's result |
| Scraper.EffectKeeps | internal/scrape/handle_show.go:104-235 | an untorn round leaves a sound index that is not behind; an idle one changes nothing and a completed one is a round; a torn one takes a fault |
| Scraper.SoundWhileUntorn | internal/scrape/handle_show.go:104-271 | as long as no round of a run is torn every state of it is sound and not behind the start |
| Scraper.FirstTorn | internal/scrape/handle_show.go:104-271 | the first unsound state of a run comes exactly after its first torn round, exactly when that round damaged the index in one of three ways, and the fault behind each is named |
| Scraper.OneMoreRound | internal/scrape/handle_show.go:104-271 | what holds of a run holds of the run with one more time around |
| Scraper.OneMorePlanned | internal/scrape/handle_show.go:104-271 | if all goes well one more time around advances the index by the ripe blocks ahead |
| Scraper.LongerHistory | internal/scrape/handle_show.go:104-271 | a run extended by one time around is told by the longer lists of effects, endings and states |
| Scraper.ReachesTip | internal/scrape/handle_show.go:155-171 | on a chain whose tip stands still and whose blocks all have appearances, k rounds in which all goes well take the index to min(last ripe block, start + k batches) |
| Scraper.ReachesLastBusy | internal/scrape/handle_show.go:155-171 | on any chain whose tip stands still, enough undisturbed rounds take the index to the last ripe block that is busy if and only if no full batch on the way there is idle |
| Scraper.Scraper.HandleScrape | internal/scrape/handle_show.go:43-275 | every run is a history in which each round from a sound index has the effect above and each round ends as said above; the loop goes on after every round that is neither cancelled nor critical, unless the pause is cancelled, the unripe folder stays or the run count is reached, and after no other; without interruptions it equals the run of its completed rounds; if all goes well each round takes the ripe blocks ahead; every timestamp appended in a round is the chain's, and chunks stay |
| Witnesses.StoppedRoundRepeats | internal/scrape/scrape_consolidate.go:29-39 | a concrete sound index with a stage whose interrupted round cuts a chunk and leaves an inexact index |
| Witnesses.FailedNotificationLeavesTwo | internal/scrape/scrape_consolidate.go:29-39 | a concrete sound index on which a failed notification leaves two stage files and no sound index |
| Witnesses.FilelessSnapLosesBlock | internal/scrape/scrape_consolidate.go:63-122 | a concrete successful call that cuts a chunk over an unripe block whose later appearance is lost |
| Witnesses.EmptyBatchStays | internal/scrape/handle_show.go:155-157 | a concrete sound index that a round does not move |
| InitPrepare.ValidMeansAgrees | internal/init/handle_init_prepare.go:224-257 | a part is okay exactly if it has the right size and header (or an index is not asked for), and when an error is raised |
| InitPrepare.StatusesMean | internal/init/handle_init_prepare.go:224-257 | what each status means: missing, wrong size, wrong magic number, wrong version or unreadable, the first that applies; a missing index counts only with all indexes asked for or for block zero |
| InitPrepare.SwallowedError | internal/init/handle_init_prepare.go:233-254 | an unreadable bloom filter goes unreported if and only if the index has the right size and is readable |
| InitPrepare.Manifest.constructor | pkg/manifest/manifest_read.go:20-30 | the chunk map points to a record of each range, of equal ranges to the last |
| InitPrepare.ChunkFolders.Walk | internal/init/handle_init_prepare.go:55-130 | in any walk order exactly the chunks that disagree with the manifest are marked, each with its reason, a manifest chunk is okay exactly if both parts are, and a walk fails exactly if a header cannot be read |
| InitPrepare.ChunkFolders.RemoveChunk | internal/init/handle_init_prepare.go:134-153 | both parts of the chunk go; a failure leaves every other file alone; the count is that of the files that are gone, failed or not |
| InitPrepare.ChunkFolders.Remove | internal/init/handle_init_prepare.go:132-157 | exactly the marked chunks go; a dry run removes nothing; a failure touches no other chunk; the count is that of the files that are gone, on every outcome |
| InitPrepare.Manifest.Blank | internal/init/handle_init_prepare.go:167-184 | the record keeps exactly the parts that are not okay, which are counted |
| InitPrepare.Manifest.DownloadList | internal/init/handle_init_prepare.go:159-187 | each pending chunk is listed once with the parts that are not okay after the deletions; the manifest's own record is blanked alike; the count is the number of parts named |
| InitPrepare.LateErrors | internal/init/handle_init_prepare.go:161-170 | the second look at a chunk raises an error only for chunks the walk did not see, so the run fails exactly if a chunk in scope cannot be read |
| InitPrepare.PrepareDownloadList | internal/init/handle_init_prepare.go:44-198 | which chunks are removed, which are listed and with which parts, in which order; it fails if and only if a chunk in scope cannot be read or, outside a dry run, a doomed file cannot be removed; what it leaves then; the number of removed files on every outcome |
| InitPrepare.UnlistedChunk | internal/init/handle_init_prepare.go:92-112 | a chunk on disc that the manifest does not list stays, with both parts, if and only if it begins after the last record of the manifest ends |
| InitPrepare.StaleOrNewer | internal/init/handle_init_prepare.go:92-112 | for well-formed increasing records that is: if and only if it begins after the end of every record |
| InitPrepare.StrictlyDescending | internal/init/handle_init_prepare.go:193-195 | up to nine digits the list is strictly descending by range |
| InitPrepare.RecordsNameParts | internal/init/handle_init_prepare.go:41-43 | a record names at least one part, outside a dry run always the bloom filter; a removed index is named if and only if all indexes are asked for or it is block zero's |
| InitPrepare.AgreeingChunksStay | internal/init/handle_init_prepare.go:28-29 | whatever the outcome no part of a chunk that agrees with the manifest or is later than it is touched |
| InitPrepare.DryRunNamesTheSame | internal/init/handle_init_prepare.go:38-39 | a dry run changes nothing; the real run succeeds if and only if the dry run does and every file to remove can be removed; then both list the same ranges |
| InitPrepare.FetchedParts | internal/init/handle_init_prepare.go:41-43 | once the named parts have arrived every wanted chunk agrees and every other is as it was |
| InitPrepare.Converges | internal/init/handle_init_prepare.go:44-198 | after a run and a correct fetch a second run on a fresh copy of the manifest removes nothing and lists nothing, for every disc, `All` and `FirstBlock` |
| CheckManifest.CompareState.CheckArrays | internal/chunks/handle_check_manifest.go:52-100 | counters; the messages are exactly the old ones, one about a difference in length unless there is one already, and those about failing items in order, all of them with details and up to four in the report without |
| CheckManifest.ComplaintsMean | internal/chunks/handle_check_manifest.go:78-97 | a message is about an item of the second array that is missing from the first, or the one that test mode picks, and every such item has one |
| CheckManifest.CheckManifest | internal/chunks/handle_check_manifest.go:31-50 | counters, failures and messages of the two passes, the second with the arrays exchanged |
| CheckManifest.NoFailures | internal/chunks/handle_check_manifest.go:78-97 | a pass is clean if and only if every item it looks at is known and it does not reach test mode's item |
| CheckManifest.Pigeonhole | internal/chunks/handle_check_manifest.go:72-97 | among equally many distinct items all are known if and only if they are the same items |
| CheckManifest.CleanMeansPermutation | internal/chunks/handle_check_manifest.go:31-100 | without duplicates both passes are clean if and only if the shorter array is a permutation of the first items of the longer |
| CheckManifest.CleanMeansSameItems | internal/chunks/handle_check_manifest.go:28-30 | arrays of the same length, duplicates or not, are clean if and only if they hold the same items |
| CheckManifest.TestModeFails | internal/chunks/handle_check_manifest.go:82-87 | test mode is clean if and only if normal mode is and the shorter array has fewer than four items |
| CheckSequential.CheckArray | internal/chunks/handle_check_sequential.go:37-72 | counters and messages are those of the pairs up to the first name that does not parse; it fails exactly if there is one |
| CheckSequential.CheckSequential | internal/chunks/handle_check_sequential.go:20-34 | counters and messages are those of disc, cache and contract one after the other, up to the first with a name that does not parse, which makes the check fail; one message for every failure |
| CheckSequential.PairOkMeans | pkg/ranges/ranges.go:97-105 | a pair passes the strict audit if and only if it is no duplicate and the second range begins right after the first ends; the lenient one if it begins later |
| CheckSequential.ComplaintsTellApart | internal/chunks/handle_check_sequential.go:51-66 | for well-formed ranges a message tells an overlap, a gap and its width, a duplicate and ranges in the wrong order apart, and names the two ranges |
| CheckSequential.AllPairs | internal/chunks/handle_check_sequential.go:38-49 | max(0, n-1) pairs are checked if and only if no range but the last is the "not a range" marker |
| CheckSequential.AllPassMeansChain | internal/chunks/handle_check_sequential.go:50-64 | passed equals checked if and only if every adjacent pair is in order |
| CheckSequential.StrictAuditCounts | internal/chunks/handle_check_sequential.go:50-64 | when the strict audit passes a block lies in one range, and in one more for every range running backwards over it |
| CheckSequential.BackwardRangePasses | internal/chunks/handle_check_sequential.go:50-64 | a concrete array that passes although a block lies in two ranges |
| CheckSequential.StrictAuditMeansTiling | internal/chunks/handle_check_sequential.go:15-19 | for sorted well-formed ranges the strict audit passes if and only if every block between the ends lies in exactly one range |
| CheckSequential.LenientAuditCounts | internal/chunks/handle_check_sequential.go:50-64 | when the lenient audit passes a block between the ends lies in one range or gap, and in one more for every range running backwards over it |
| CheckSequential.BackwardRangePassesLenient | internal/chunks/handle_check_sequential.go:50-64 | a concrete array that passes with gaps allowed although two of its ranges share a block |
| CheckSequential.LenientAuditMeansDisjoint | internal/chunks/handle_check_sequential.go:15-19 | with gaps allowed, if no range but the first and last can run backwards, it passes if and only if the ranges are strictly increasing and disjoint |
| CheckInternal.CheckSnaps | internal/chunks/handle_check_internal.go:55-90 | exactly one of a pass and a message is recorded |
| CheckInternal.SnapsMean | internal/chunks/handle_check_internal.go:65-88 | a chunk on the snap grid is complained about if and only if it is full, any other if and only if it is not, save block zero's |
| CheckInternal.FailsMeans | internal/chunks/handle_check_internal.go:30-53 | a missing index never fails, one of another version fails if and only if the version is checked, any other error fails, and an index that can be read fails if and only if its name or its size is wrong |
| CheckInternal.CheckInternal | internal/chunks/handle_check_internal.go:21-53 | the report gains one failure and one message for every failing file, in order, and counts every file once and every readable one twice |
| CheckInternal.SnapIsNeverTooEarly | internal/chunks/handle_check_internal.go:71-74 | the message about an early snap cannot be produced |
| CheckInternal.WriterAndAuditorAgree | internal/chunks/handle_check_internal.go:55-90 | a chunk the scraper wrote passes if and only if it was not cut at a snap point by a block that also fills it |
| CheckInternal.ScrapedIndexAudit | internal/chunks/handle_check_internal.go:21-90 | over the files of a sound index the failures are exactly the chunks cut at a snap point by a block that also fills them |
| CheckInternal.ScrapedIndexIsSequential | internal/chunks/handle_check_sequential.go:37-72 | a sound index passes the lenient audit, and the strict one if every block has an appearance |
| Truncate.LocalIndex.RemoveChunk | pkg/manifest/remove_chunk.go:13-102 | both parts and every manifest entry not before the chunk go together, or nothing changes; it needs both parts to be on disc |
| Truncate.LocalIndex.TruncateIndex | internal/chunks/handle_truncate.go:51-104 | in any walk order exactly the chunks with `Last >= Truncate` go, the latest survivor is found, and even if it stops early no survivor goes and the manifest names only chunks on disc |
| Truncate.LeavesPrefix | internal/chunks/handle_truncate.go:51-96 | a tiled index is cut to a tiled prefix that the manifest names too, and latest + 1 is the first block removed if and only if a chunk survives (or the index begins with block one) |
| Approvals.ApprovalMap.Note | internal/tokens/handle_approvals.go:184-221 | taking one more log keeps the map at the latest log of every key |
| Approvals.KeysByFields | internal/tokens/handle_approvals.go:184-191 | the map has an entry for the owner, spender and token of each log seen, and no other |
| Approvals.LatestIsUnique | internal/tokens/handle_approvals.go:193-221 | the positions held are a function of the set of logs seen, not of their order or grouping |
| Approvals.Collect | internal/tokens/handle_approvals.go:149-165 | the items are the logs of all appearances of the slice, in whatever order |
| Approvals.ApprovalMap.AddSlice | internal/tokens/handle_approvals.go:129-232 | a slice is taken completely or, if a query fails, not at all |
| Approvals.ApprovalMap.Select | internal/tokens/handle_approvals.go:237-255 | exactly the keys whose allowance at their latest log is available (and not zero if zeros are hidden) are selected, each once |
| Approvals.ApprovalMap.Emit | internal/tokens/handle_approvals.go:237-283 | the rows are the selected keys in (token, spender, owner) order with their latest positions |
| Approvals.OutputByFields | internal/tokens/handle_approvals.go:184-283 | each row has the owner, spender, token and position of a log that no log of the same three follows, and its allowance is that of these three at that block; every such log whose allowance is to be shown has a row; rows go by token, spender, owner, and no two agree in all three |
| Approvals.ApprovalMap.HandleApprovals | internal/tokens/handle_approvals.go:101-285 | after every monitor with appearances, and after one that fails to load, in this order, the rows of all logs seen so far are emitted, as long as no earlier slice was disturbed; when exactly the query stops; undisturbed, the map ends with the latest log of every key over all monitors |
| Approvals.OutputIsUnique | internal/tokens/handle_approvals.go:257-268 | the output is a function of the set of logs: slices, monitors, map order and an unstable sort make no difference |

## Left out

- The node, IPFS, the manifest contract, the binary layout of chunks, bloom filters and hashes: outcomes are arguments, and a chunk is its range and its multiset of appearances.
- Logging, progress reports, pauses, colours, notifications (only whether sending fails), pid files and signal plumbing beyond cancellation.
- Leftover goroutines of a cancelled round: the model stops the workers where they are; the program leaves its loop right after.
- Errors swallowed by the program (`_ =`): cleaning the ripe and unripe folders, and putting a backup back, always succeed here.
- A failing `GetMetaData` after a chunk was written (`scrape_consolidate.go:116` ignores its error).
- Writing a chunk over one with the same name: it cannot happen from a sound index, whose chunks end before the next range starts.
- The block-zero chunk and the prefunds themselves: `Index.GenesisInv` starts from the finished chunk.
- Names not in canonical form: underscores and base prefixes that `strconv.ParseUint` accepts, ten-digit blocks in sorted names, and case folding beyond ASCII.
- A transaction index that only becomes the misconfigured-miner marker when it is cut to 32 bits: stage rows have indexes below 2^32 here.
- `StageFile.StageOrder`: needs 42-character addresses, blocks below 10^9 and indexes below 10^5, the widths the format is made for.
- `CheckInternal.WriterAndAuditorAgree`: for a chunk size and a number of appearances below 2^32, the width of the header's counter.
- `InitPrepare.Converges`: needs a manifest that names both parts of every chunk; without a hash there is nothing to fetch.
- A second `prepareDownloadList` on the same in-memory manifest, whose blanked records no longer match the disc.
- Test mode's limits on the walks, block filters on the walks, and compressed bloom files.
- `updateLocalManifest`, the download workers and their retries.
- `CheckManContents`, `CheckHashes`, `CheckSizes`, `CheckVersion`, `CheckDeep`: field-by-field comparisons.
- Monitors: truncating them, and reading slices of appearances from them. The count filter of the approvals, whose limit is never reached.
- Uniqueness of approvals over several monitors: the program emits the whole map again after every monitor.
- Names cleaning, command-line handling and the other handlers, which fetch, sort and print.
