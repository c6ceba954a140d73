# A verified model of the launcher and qualification harness

The repository launches one GPU server in an owned Docker container and decides, from recorded
evidence, whether a candidate build may replace a baseline. This project models its stateful,
fail-closed components in Dafny and proves what they promise, for every input, every behaviour of
the outside world and every interleaving. `dafny verify dfyconfig.toml` checks all of it.

What is modelled, and where:

- **Owned container lifecycle** (`scripts/guard.py`). `Launcher` is the machine that takes one step
  per reply of Docker, the file system, the memory probe and the clock, with signals in between;
  `LauncherSafety` proves what no run ever does, `LauncherProgress` what runs do given what they
  are told (the stop that is sent, the attempt that is always made, the code returned);
  `LauncherRun` is `run` itself as a structured program (branches, watch loop, cleanup) proved to
  take exactly the machine's steps and to end;
  `LauncherSystem` puts any number of machines around one lock and one daemon; `Watchdog` proves
  that the low-memory counter computes a window over the samples. The machine form is there because
  several launchers interleave call by call, which a single method cannot express.
- **Server-sent events** (`scripts/http_client.py`). `SseDecoder` is the in-place incremental
  decoder and the one-shot parser it refines; `SseLines` says which lines matter; `SseRoundTrip`
  prints and decodes; `StreamReducer` is the result object filled event by event, `StreamFields`
  says what its fields hold after a whole stream, `StreamErrors` which error it ends with, and
  `StreamKeys` which keys of an event feed it.
- **Checkpoint admission** (`scripts/audit_checkpoint.py`). `Tiling` is the sort-and-cursor check,
  `CheckpointIndex` the entry schema, the index agreement and the conservation of bytes,
  `ShardAudit` the audit of one shard, `ShardFields` what it asks of single fields,
  `CheckpointAudit` that of all shards with the index,
  `TensorNames` and `ExpertFamilies` the counting arguments, `PleFamily` the numbered shards,
  `CheckpointFamilies` all of them on the same headers, `NameGrammar` and `FamilyContracts` the
  three families in spelled names, dtypes and shapes, and `CheckpointTotals` where every byte goes.
- **Receipts** (`scripts/verify_files.py`, `scripts/guard.py`: `Receipts`, `ReceiptFields`,
  `ReceiptLimit`, and `SafePaths` for the names both admit), **prompt splicing**
  (`scripts/niah.py`: `Niah`), **wire capture** (`scripts/upstream_capture.py`: `Capture`,
  `CaptureMeaning`, `CaptureComplaints`), **comparison** (`scripts/compare.py`: `Compare`,
  `CompareFields`, `CompareMeaning`, `ComparePass`, `CompareVerdicts`, `CompareOrder`,
  `CompareWitness`, `CompareWarmup`),
  **sandbox supervisor** (`docker/q200_sandbox_driver.py`: `Sandbox`) and **tree walk**
  (`scripts/preflight.py`: `TreeWalk`).
- `Common`, `Json`, `Lists`, `Sorting`, `Ranks`, `Sums` and `Cardinality` hold what several of them
  need.

Objects that the source updates in place are classes here (`SseDecoder.Decoder`,
`StreamReducer.StreamResult`, `Capture.CaptureRecord`, `Sandbox.Supervisor`, `LauncherRun.Runner`);
each method is proved against a function or an invariant on values, and the laws are proved about
those.

Assumptions about the outside, all visible in the definitions:

- The cache lock is exclusive. A create call takes effect no later than its reply and makes at most
  one container. A document that carries a launcher's owner label is a true snapshot of the
  container made for it; this takes the owner nonces of two launchers to differ, since a document
  with a shared one could not be a snapshot for both. Nobody restarts a container whose stop was
  verified. These are the guards of `LauncherSystem.Next`.
- A stop event that the caller sets without a signal counts as signal 15, as in the source.
- Hashes are functions of the bytes that yield lower-case hex of the right length
  (`Receipts.HashesOk`), and a file with no link on its path lies under the root
  (`Receipts.TreeOk`).
- The decimal digits known to regular expressions include the ASCII ones and not the full stop
  (`TensorNames.IsDigitTable`); other digits are left open, as the canonical-name test makes them
  harmless.

Where code and documentation differ, the code is followed.

- The decoder is compared with a parser that does what the code does, not with sections 9.2.5 and
  9.2.6 of the WHATWG HTML Living Standard: it strips every leading space of a value, ignores
  fields other than `data:`, and flushes a pending event at the end of input. The round trip
  therefore holds exactly for payloads without CR whose lines do not begin with a space, which
  `SseRoundTrip.RoundTrip` proves in both directions.
- The tiling check lets an empty tensor lie at a boundary but not inside another span;
  `Tiling.TilingExact` says so.
- The comparison promises that a majority of candidate rates beats a majority of baseline rates.
  That is what PASS means for an odd number of repeats, such as the default of five, and only then:
  for every even number some comparison PASSes without it (with four repeats, rates 1, 1, 3, 3
  against 1.2, 1.2, 3.2, 3.2), because the median is then a mean of two values.
  `CompareWitness.PassMajorityExactly` proves both halves, `CompareMeaning.MajorityExactly` gives
  the condition on the rates themselves, and for an even number PASS still means at least half
  against at least half.
- On vision rows a warmup row that can be added freely is one whose `warmup` is exactly true. The
  vision gate also drops rows with another truthy mark, and the evidence check still counts them;
  adding one keeps PASS exactly when its case is among the frozen ones and the row is bound, which
  `CompareWarmup.HalfMarkedExactly` proves, with an input that loses PASS.
- A receipt is promised to be accepted on an unchanged tree. The launcher refuses to read one of
  more than 16777216 bytes, and verification writes receipts of any length, so that is the second
  half of the condition in `Receipts.VerifyThenCheck`. A row takes at least 388 bytes as written,
  so a lock of 43241 files or more is enough (`ReceiptLimit.RefusedReceipt`); at a little over 100
  bytes per row such a lock is itself well within the limit.
- The byte test at the end of the PLE check compares bytes with elements, so it never fails for a
  dtype of one byte and always fails for a wider one, unless there is nothing to count;
  `PleFamily.ValidatePle` says so.
- The regular expression of the MTP family ends in `$` and so also matches a name with a final line
  feed, which the canonical-name test then rejects.

## Model

| member | source | states |
|---|---|---|
| `LauncherSafety.AdvanceKeeps` | scripts/guard.py:463-653 | every step of a run and every signal keeps the invariant: what each program point knows of the trace, and that every event of the trace is justified by the events before it |
| `LauncherSafety.AtMostOneStart` | scripts/guard.py:480-547 | for every behaviour of Docker and of signals, at most one create and one start; the start comes after lock, accepted receipt, image check, create, an owned inspection of the created id and a second accepted receipt, in that order and with nothing else |
| `LauncherSafety.StopsOnlyOwnedRunning` | scripts/guard.py:280-289 | every stop directly follows an inspection of that id that passed the ownership check and showed it running |
| `LauncherSafety.ZeroMeansCleanExit` | scripts/guard.py:548-571 | a run that did more than plan returns 0 only if an owned inspection after its start showed exit code 0 and no OOM kill, and its last inspection, owned too, showed the container not running |
| `LauncherSafety.CleanupKeepsCode` | scripts/guard.py:618-653 | from any point of cleanup, a non-zero code is the code returned, and 0 can only become 7 |
| `LauncherProgress.OwnedExactly` | scripts/guard.py:265-277 | a document is the launcher's own exactly when id, image and the three spelled labels are those it expects |
| `LauncherProgress.CleanupStops` | scripts/guard.py:280-289 | from any point where cleanup begins with a container in hand: found its own and running, stopped, and found its own and not running, it is inspected, stopped once, inspected and verified, in that order and with nothing else, and the code is kept |
| `LauncherProgress.CleanupFindsStopped` | scripts/guard.py:280-289 | found its own and not running, it is inspected again and verified, and no stop is sent |
| `LauncherProgress.CleanupTries` | scripts/guard.py:636-644 | whatever the replies and signals, cleanup with a container in hand does not end before it has tried to inspect it, and that attempt is the next thing that happens |
| `LauncherProgress.FinishedRunTried` | scripts/guard.py:620-648 | every finished run that held an id made that attempt |
| `LauncherProgress.LaunchReachesWatch` | scripts/guard.py:448-559 | with everything in order the run gets to the watch loop, by lock, receipt, image, create, owned inspection, second receipt and start |
| `LauncherProgress.RunReturnsExit` | scripts/guard.py:559-571 | a run in which all goes well and the container ends by itself returns exactly its exit code, 0 to 255, or 8 for a 0 after an OOM kill |
| `LauncherProgress.SignalStops` | scripts/guard.py:573-576 | a signal while the container runs: it is stopped and verified, and the code is 128 plus the number |
| `LauncherProgress.SignalBeforeCreate` | scripts/guard.py:531-535 | a signal before create: nothing is created, and the code is 128 plus the number |
| `LauncherProgress.BeforeLockCodes` | scripts/guard.py:441-466 | a plan returns 0, bad arguments 2, a lock held elsewhere 9 |
| `LauncherProgress.UnderLockCodes` | scripts/guard.py:464-530 | a failed preflight returns 3, a bad receipt, image or file 4, and the lock is released |
| `LauncherProgress.CreationCodes` | scripts/guard.py:533-552 | cleanup begins with 5 after a failed create, save, inspection or start, with 4 after a failed second receipt, with 128 plus the number after a signal, with 8 once started |
| `LauncherProgress.ForeignIsNotStarted` | scripts/guard.py:540-543 | a created container whose document is not the launcher's own is never started; cleanup begins with 5 |
| `LauncherProgress.WatchCodes` | scripts/guard.py:559-573 | a call that fails, a document not its own, an unclear state or an invalid exit code leave the loop with 8 |
| `LauncherProgress.ResolvesFromFile` | scripts/guard.py:621-626 | a create whose reply was lost is resolved by the id that Docker wrote |
| `LauncherProgress.ResolvesFromName` | scripts/guard.py:627-633 | or by the container of the launcher's name, if that is its own |
| `LauncherProgress.BadCidFile` | scripts/guard.py:623-626 | a file that holds anything but an id, or cannot be read, makes cleanup give up: 0 becomes 7 |
| `LauncherProgress.NothingToStop` | scripts/guard.py:620-648 | if nothing was created or nothing of its own is found, the code is returned as it stands |
| `LauncherProgress.CleanupGivesUp` | scripts/guard.py:636-644 | a call that fails, a document not its own or a container not seen to stop leaves the stop unverified and turns 0 into 7 |
| `LauncherRun.Runner.Admission` | scripts/guard.py:448-525 | plan, lock, preflight, receipt, image and preparation end where the machine ends, with its variables and trace |
| `LauncherRun.Runner.Session` | scripts/guard.py:533-617 | create, ownership check, second receipt, start and watch loop end where the machine ends, ready for cleanup |
| `LauncherRun.Runner.Watch` | scripts/guard.py:559-613 | the watch loop goes in step with the machine and ends on every finite script of replies, since every turn takes one |
| `LauncherRun.Runner.StopOwned` | scripts/guard.py:280-289 | inspect, stop if running, inspect again, in step with the machine and without touching the code |
| `LauncherRun.Runner.Cleanup` | scripts/guard.py:620-644 | resolution of an uncertain create, verified stop and saves, in step with the machine; only 0 may change, to 7 |
| `LauncherRun.Runner.Run` | scripts/guard.py:408-653 | the structured program ends on every finite script of replies that is followed by failures, ends where the machine ends on the inputs it took, has a safe trace, and returns 0 only with the evidence of a clean exit |
| `LauncherSystem.NextKeeps` | scripts/guard.py:280-299 | every move of the system keeps: one lock holder, one container per launcher, a verified stop means a stopped container |
| `LauncherSystem.RunningIsHeldOrFailed` | scripts/guard.py:463-648 | a running container belongs to the lock holder or to a launcher that returned non-zero without verifying its stop |
| `LauncherSystem.NoOverlap` | scripts/guard.py:463-648 | in every interleaving of any number of launchers, when one starts its container every other launcher's running container belongs to one that failed to verify its stop and returned non-zero |
| `LauncherSystem.OneOwnerRuns` | scripts/guard.py:291-299 | in every reachable state at most one container runs, apart from those of such failed launchers |
| `Watchdog.MemFloorKb` | scripts/guard.py:369-371 | the floor in kB is the truncated number of KiB in the given GiB |
| `Watchdog.CounterIsWindow` | scripts/guard.py:587-608 | the counter decides each new sample exactly as the window over all samples so far does |
| `Watchdog.WatchSamples` | scripts/guard.py:577-608 | the loop stops at exactly the first sample that is unknown, below half the floor, or the fifth in a row below the floor |
| `Watchdog.StopsExactlyAtWindow` | scripts/guard.py:559-608 | over any documents that are owned and report running, the undisturbed launcher machine keeps watching until exactly the sample that the window rule names, and leaves the loop there with code 8 |
| `Watchdog.ReturnsWatchdogCode` | scripts/guard.py:577-653 | whatever happens after such a sample, the run only cleans up and the code it returns is 8 |
| `SseDecoder.NewlineIsFirstLine` | scripts/http_client.py:157-177 | a reported line end is the first one of the buffer, whether LF, CRLF or CR, and the rest begins right after it |
| `SseDecoder.NewlineStable` | scripts/http_client.py:157-177 | a line end once reported stays where it is whatever arrives later; this is what holding back a final CR is for |
| `SseDecoder.Decoder.Feed` | scripts/http_client.py:109-132 | the in-place loop returns and leaves what draining the longer buffer gives |
| `SseDecoder.Decoder.Close` | scripts/http_client.py:134-155 | the flush at the end of input, and the decoder is as new |
| `SseDecoder.DrainSplit` | scripts/http_client.py:109-132 | draining early loses and changes nothing |
| `SseDecoder.FeedAllIsOneFeed` | scripts/http_client.py:109-132 | events and state after any list of chunks depend on their concatenation alone |
| `SseDecoder.ChunkedDecodeIsParse` | scripts/http_client.py:109-177 | for every byte stream and every cutting, feed over the chunks and then close give what the one-shot parser gives on the whole stream |
| `SseDecoder.DecodeStream` | scripts/http_client.py:96-155 | the same for a session on the decoder object |
| `SseLines.InsertedLineIgnored` | scripts/http_client.py:117-129 | a non-empty line that does not begin with `data:`, put between any two lines of any stream with any terminator, changes nothing |
| `SseLines.NothingButIgnored` | scripts/http_client.py:117-132 | a stream none of whose lines begins with `data:` has no event |
| `SseLines.OneDataLine` | scripts/http_client.py:117-132 | `data:`, any number of spaces, a value and a blank line give exactly the value |
| `SseLines.UnterminatedIsFlushed` | scripts/http_client.py:134-155 | a `data:` line that ends the input without a terminator is delivered, however it was cut |
| `SseRoundTrip.ParsePrinted` | scripts/http_client.py:109-177 | payloads without CR and without lines that begin with a space, printed with LF, CRLF or CR, parse back to the same list |
| `SseRoundTrip.DecodedArePrintable` | scripts/http_client.py:117-128 | whatever the stream, every decoded payload is of that kind |
| `SseRoundTrip.RoundTrip` | scripts/http_client.py:109-177 | printed, cut anywhere and decoded, a list comes back if and only if all its payloads are of that kind |
| `StreamReducer.StreamResult.ConsumeDelta` | scripts/http_client.py:629-642 | fragments are appended, and the first non-empty one sets time and kind once |
| `StreamReducer.StreamResult.ConsumeHeader` | scripts/http_client.py:607-618 | count, raw event, model and usage of one object event |
| `StreamReducer.StreamResult.ConsumeEvent` | scripts/http_client.py:581-642 | consuming a payload is folding its data lines, up to one that raises |
| `StreamReducer.StreamRequest` | scripts/http_client.py:549-579 | the read loop over any chunks returns a function of the bytes and of how reading ended |
| `StreamFields.RequestStream` | scripts/http_client.py:515-579 | the whole request, with failures to open, status and wall time: ok if and only if the stream was opened and the lines consumed make a good stream; an unopened request has an empty result and its own error |
| `StreamFields.FieldsExactly` | scripts/http_client.py:605-642 | over a whole stream, content and reasoning are the concatenated fragments of the lines looked at, model, usage and finish reason are the last ones accepted, and the count is the number of object events |
| `StreamKeys.UsageExactly` | scripts/http_client.py:185-199 | a usage object is accepted, as given counts, exactly when the three named counts are those and not negative |
| `StreamKeys.PiecesAre` | scripts/http_client.py:619-642 | the content of a line is `content` of the first choice's delta, its reasoning `reasoning_content` or else `reasoning`, its finish reason `finish_reason` |
| `StreamKeys.HeadersAre` | scripts/http_client.py:605-618 | the model and the usage of a line are those under `model` and `usage`, and it raises exactly for choices that cannot be indexed |
| `StreamKeys.DispatchedLines` | scripts/http_client.py:581-596 | a payload is cut at its line feeds and the empty parts are dropped |
| `StreamReducer.ReduceIsFold` | scripts/http_client.py:549-562 | reducing events with early exit is folding the lines up to the end of the first event that holds the sentinel |
| `StreamReducer.OkExactly` | scripts/http_client.py:566-579 | a result is ok if and only if `[DONE]` was among the consumed lines, some usage object was accepted, and no consumed line was unparseable, carried an invalid usage object or raised |
| `StreamErrors.ErrorExactly` | scripts/http_client.py:549-579 | which error a stream ends with, said of its lines: one that raises or a failed read, no sentinel, a rejected usage object, no accepted one, an unparseable line, in this order |
| `StreamErrors.RawEventsAre` | scripts/http_client.py:598-610 | the raw events kept are the unparseable lines and, if asked for, the objects of the lines looked at, in order |
| `StreamReducer.FirstTokenExactly` | scripts/http_client.py:628-642 | first-token time and kind are those of the first line with a non-empty content or reasoning fragment among the lines looked at, and unset if there is none |
| `StreamReducer.UntimedFieldsDependOnBytes` | scripts/http_client.py:515-642 | two runs over the same bytes agree in every field but the time, however they were cut and timed |
| `Tiling.CheckTiling` | scripts/audit_checkpoint.py:742-767 | the two loops with their running variables decide the check |
| `Tiling.TestsReduceToCursor` | scripts/audit_checkpoint.py:757-767 | once the cursor loop passes, the sum and maximum tests hold if and only if the cursor reached the data size |
| `Tiling.TilingExact` | scripts/audit_checkpoint.py:742-767 | the check accepts if and only if no span leaves the region, every byte lies in exactly one span, and no empty span lies inside another |
| `CheckpointIndex.ReadEntryExactly` | scripts/audit_checkpoint.py:288-318 | an entry is accepted, and read as a given dtype, shape and span, if and only if the header object says exactly that and the span is as long as shape and dtype call for |
| `CheckpointIndex.ValidateAgreement` | scripts/audit_checkpoint.py:338-367 | accepts if and only if the weight map is exactly the relation "this name is in this shard's header", with safe shard names |
| `CheckpointIndex.CollectClaims` | scripts/audit_checkpoint.py:338-367 | the claim loop passes if and only if every claim resolves, and then gathers exactly each shard's names |
| `CheckpointIndex.AgreementSeparates` | scripts/audit_checkpoint.py:338-367 | agreement leaves no tensor name in two shards |
| `CheckpointIndex.ShardBytes` | scripts/audit_checkpoint.py:742-767 | an admitted shard is eight bytes, its header and exactly the bytes its tensors call for |
| `CheckpointIndex.TotalBytes` | scripts/audit_checkpoint.py:742-785 | with agreement, the total of all file sizes is the prefixes and headers plus shape times dtype size over all index entries |
| `ShardAudit.ReadHeader` | scripts/audit_checkpoint.py:321-332 | the entry loop passes if and only if every field is good, and collects every tensor once as described |
| `ShardAudit.AuditShard` | scripts/audit_checkpoint.py:718-767 | a shard is let through if and only if its header is within bounds, its entries are good and their spans tile the data region; the result holds exactly the header's tensors, as described |
| `ShardFields.FieldExactly` | scripts/audit_checkpoint.py:321-332 | a field is good exactly when it is the metadata, or has a safe name and describes a tensor of a known dtype whose span is as long as shape and width call for |
| `ShardFields.AdmissibleExactly` | scripts/audit_checkpoint.py:718-767 | a header is let through exactly when it is at most 64 MiB, fits the file, has good fields, and its spans tile the rest |
| `ShardFields.SpansAre` | scripts/audit_checkpoint.py:742-756 | the spans that are tiled are those the tensors' fields state, one for each |
| `ShardFields.WidthsAre` | scripts/audit_checkpoint.py:60-76 | which dtypes are 1, 2, 4 and 8 bytes wide, and that there are no others |
| `CheckpointAudit.AuditFiles` | scripts/audit_checkpoint.py:694-785 | the loop over the shards passes if and only if every shard is a regular file under the root, safely named and good, and its total is the sum of the file sizes |
| `CheckpointAudit.AuditCheckpoint` | scripts/audit_checkpoint.py:694-785 | headers and index together: let through if and only if every shard is good and the index is the relation the headers state, and then the reported total is prefixes, headers and shape times dtype size over all index entries |
| `TensorNames.ReadDecimal` | scripts/audit_checkpoint.py:389-395 | reading the digits of a printed number gives the number back |
| `TensorNames.MatchExpertName` | scripts/audit_checkpoint.py:797-800 | a canonical expert name is matched to its own layer, expert and tail |
| `ExpertFamilies.CheckFamily` | scripts/audit_checkpoint.py:788-826 | for any family, rejecting bad names and comparing one count accepts if and only if every member is in exactly one shard under its canonical name with a fitting entry |
| `ExpertFamilies.FullProductSize` | scripts/audit_checkpoint.py:822-824 | layers times experts times projections times kinds has the size the count is compared with |
| `ExpertFamilies.MatchCanonical` | scripts/audit_checkpoint.py:794-800 | the canonical name of an identity is matched to that identity |
| `ExpertFamilies.ValidateNvfp4` | scripts/audit_checkpoint.py:788-832 | acceptance by count alone is completeness of the NVFP4 family, in both directions |
| `ExpertFamilies.ScanMtp` | scripts/audit_checkpoint.py:383-424 | the header loop passes if and only if all names are good, and collects names and projections |
| `ExpertFamilies.MtpCountExact` | scripts/audit_checkpoint.py:425-430 | with good names, the count is right if and only if every member is there |
| `ExpertFamilies.ValidateMtp` | scripts/audit_checkpoint.py:373-437 | accepts exactly the complete families, and the final loop over the experts never fails once the count matches |
| `ExpertFamilies.TrustedSizes` | scripts/audit_checkpoint.py:822-824 | for the pinned checkpoint the two families have 294912 and 3072 members |
| `PleFamily.MatchPleName` | scripts/audit_checkpoint.py:463-469 | the canonical name of a PLE shard is matched to its own number |
| `PleFamily.FindMembers` | scripts/audit_checkpoint.py:463-471 | the header loop passes if and only if all matched names are canonical, and then finds exactly the shards that are there; no number can come up twice |
| `PleFamily.SumShards` | scripts/audit_checkpoint.py:480-497 | the shard loop passes if and only if dtype and shape fit, and its payload is count times elements times element size |
| `PleFamily.ValidatePle` | scripts/audit_checkpoint.py:443-503 | accepts exactly the scale with shards 0 to N-1, canonical and fitting, provided an element is one byte or there is none; the payload returned is the number of elements |
| `PleFamily.TrustedPayload` | scripts/audit_checkpoint.py:46-47 | for the pinned checkpoint an element is one byte and the payload is the expected total |
| `CheckpointFamilies.AuditAll` | scripts/audit_checkpoint.py:858-935 | the audit admits a checkpoint if and only if every shard passes its own audit, the index refers to exactly the shards, the MTP shard carries complete MTP and PLE families, index and headers agree and the NVFP4 family is complete |
| `CheckpointFamilies.ExpertIndexed` | scripts/audit_checkpoint.py:858-935 | in an admitted checkpoint every layer, expert, projection and kind is exactly one index entry, whose shard, and no other, holds it as contracted |
| `CheckpointFamilies.KeysAreMembers` | scripts/audit_checkpoint.py:788-826 | the index entries a family's grammar matches are exactly the canonical names of its members |
| `CheckpointFamilies.TotalByFamily` | scripts/audit_checkpoint.py:742-832 | in an admitted checkpoint the file sizes total prefixes and headers, the contracted bytes of all expert tensors, and the bytes of the other index entries |
| `CheckpointFamilies.MtpIndexed` | scripts/audit_checkpoint.py:915-932 | every MTP expert tensor is an index entry that points to the MTP shard |
| `CheckpointFamilies.PleIndexed` | scripts/audit_checkpoint.py:915-932 | so is every PLE shard tensor |
| `NameGrammar.MainGrammar` | scripts/audit_checkpoint.py:105-109 | the names taken for NVFP4 experts are exactly the prefix, digits, `.mlp.experts.`, digits, projection and kind, read as those numbers, leading zeros included |
| `NameGrammar.MtpGrammar` | scripts/audit_checkpoint.py:110-113 | the same for MTP, of any layer, where one final line feed passes |
| `NameGrammar.PleGrammar` | scripts/audit_checkpoint.py:114-116 | the same for PLE shards |
| `FamilyContracts.ExpertsExactly` | scripts/audit_checkpoint.py:788-832 | the NVFP4 family is complete exactly when every layer, expert, projection and kind is in one shard under its spelled name with its contracted dtype and shape, and no other name looks like one |
| `FamilyContracts.MtpExactly` | scripts/audit_checkpoint.py:373-437 | the same for MTP, weight and scale of every projection: the scale has an allowed dtype and the contracted grid |
| `FamilyContracts.PleExactly` | scripts/audit_checkpoint.py:443-503 | the same for the PLE scale and shards 0 to N-1 |
| `FamilyContracts.TrustedShapes` | scripts/audit_checkpoint.py:144-156 | the pinned shapes hang together: two weights a byte, sixteen a scale, MTP blocks of 128 by 128 |
| `FamilyContracts.TrustedBytes` | scripts/audit_checkpoint.py:125-200 | in the pinned checkpoint every tensor of the two expert families takes a fixed number of bytes, by kind |
| `CheckpointTotals.WholeInFull` | scripts/audit_checkpoint.py:858-935 | an admitted checkpoint, tensor by tensor, with all three families spelled out, in both directions |
| `CheckpointTotals.TotalByFamilies` | scripts/audit_checkpoint.py:742-832 | in an admitted checkpoint the file sizes total prefixes and headers, the contracted bytes of all NVFP4 and all MTP tensors, the PLE payload, and the bytes of the index entries outside the families |
| `Receipts.HashFile` | scripts/verify_files.py:136-148 | however reads are cut, the hash is that of the whole content, and a file that is shorter or longer fails |
| `Receipts.SourceInventory` | scripts/guard.py:109-140 | succeeds exactly on locks with good rows and distinct paths, and maps each path to its row |
| `Receipts.CheckReceipt` | scripts/guard.py:143-205 | accepts exactly the receipts whose text can be read and has the digest and that match the lock's inventory and the tree |
| `ReceiptFields.AcceptedExactly` | scripts/guard.py:143-205 | a receipt is accepted exactly when it is short enough and has the digest, its head names the lock and its totals, and for every locked file a row has the device, inode, size and times the file has now, inside the root, with the pinned digest |
| `ReceiptFields.ChangedIsRefused` | scripts/guard.py:183-191 | a receipt written on one tree and accepted on a later one: every locked file has the same device, inode, size and times in both |
| `SafePaths.SafeExactly` | scripts/verify_files.py:88-93 | a name is safe exactly when it has 1 to 1024 characters, no backslash or NUL, and leads from any directory to the place below it that its parts spell |
| `SafePaths.GuardNameExactly` | scripts/guard.py:121-132 | the launcher admits exactly the names that stay below the root, or are it, without backslash or control characters |
| `SafePaths.VerifyRowExactly` | scripts/verify_files.py:198-225 | what verification asks of a lock row, with digests in either case |
| `SafePaths.GuardRowExactly` | scripts/guard.py:133-139 | what the launcher asks of one, with a lower-case SHA-256 or else a Git blob |
| `SafePaths.GuardAdmitsExactly` | scripts/guard.py:109-140 | the locks the launcher admits: one model, a revision, good rows of distinct paths |
| `Receipts.AcceptedPairsWithLock` | scripts/guard.py:160-204 | an accepted receipt has each file of the lock in exactly one row, and its byte total is the lock's |
| `Receipts.RowOrderIrrelevant` | scripts/guard.py:166-204 | acceptance does not depend on the order of the rows |
| `Receipts.VerifyOne` | scripts/verify_files.py:237-272 | a row is written exactly when the file's size and content are what the lock pins and the second look after hashing finds the same file |
| `ReceiptFields.GoodIsFound` | scripts/verify_files.py:237-272 | a file is good exactly when it is there twice with the same stat and no link on its path, is as long as the lock and its content say, and its bytes have the pinned hash |
| `ReceiptFields.WrittenRow` | scripts/verify_files.py:255-272 | every row written holds the file's stat and the hashes of its bytes |
| `Receipts.VerifyFiles` | scripts/verify_files.py:173-285 | succeeds exactly when the lock is admitted and every file is good; the receipt attests them all, in the order of their paths |
| `Receipts.VerifiedIsAccepted` | scripts/guard.py:143-205 | while the tree is unchanged, the launcher accepts the receipt if and only if it admits the lock and the text of the receipt is at most 16777216 bytes |
| `Receipts.VerifyThenCheck` | scripts/verify_files.py:173-285 | verification and then the launcher's check, on an unchanged tree: accepted if and only if a receipt was written, the launcher admits the lock and the text is at most 16777216 bytes |
| `ReceiptLimit.ManyFilesRefused` | scripts/guard.py:73-77 | the receipt of a lock of more than 43240 files is refused, however it is written, as long as its rows are spelled out |
| `ReceiptLimit.RefusedReceipt` | scripts/guard.py:73-77 | a lock that both sides admit, with every file good, whose receipt is refused |
| `Niah.FillerAt` | scripts/niah.py:249-257 | token `i` of the filler is token `i` modulo its length of the sentence |
| `Niah.Splice` | scripts/niah.py:315 | the in-place splice leaves the body with the needle in its place and nothing else changed |
| `Niah.SpliceKeeps` | scripts/niah.py:304-317 | a splice that overlaps no earlier needle keeps them all intact and the filler elsewhere |
| `Niah.PlaceNeedles` | scripts/niah.py:302-317 | all needles are placed if and only if they lie in the body and do not overlap |
| `Niah.EncodeWithPositions` | scripts/niah.py:260-321 | accepts exactly the placeable requests; the prompt has the target length, keeps the template around the slot, holds each needle intact at its requested offset, which is the requested share of the body rounded down, and is tiled filler elsewhere |
| `Niah.OverlapExactly` | scripts/niah.py:304-313 | two needles overlap exactly when some token position is in both |
| `Capture.CaptureRecord.ObserveChunk` | scripts/upstream_capture.py:66-76 | bytes are counted, kept up to the bound, and exceeding it is an error and raises |
| `Capture.CaptureRecord.ObserveEvent` | scripts/upstream_capture.py:78-114 | model, usage, finish reason and cache details of one event, with the complaints they give rise to |
| `Capture.CaptureRecord.Finalize` | scripts/upstream_capture.py:125-197 | the complaints in the order they are made, the verdict, the cached count and the lengths reported: the frozen ones when valid and zero otherwise |
| `Capture.NoProblems` | scripts/upstream_capture.py:127-188 | a record is valid if and only if there is no complaint about it |
| `CaptureMeaning.StoredIsPrefix` | scripts/upstream_capture.py:66-76 | whatever the calls, the stored bytes are the first 4 MiB of what arrived |
| `CaptureMeaning.ReplayTracks` | scripts/upstream_capture.py:59-117 | the record after any calls, said of the calls; no error was recorded if and only if nothing was wrong with them |
| `CaptureMeaning.ValidExactly` | scripts/upstream_capture.py:125-189 | a capture is valid if and only if the request succeeded and was observed, the whole wire was kept, every event was an object from the one model, usage objects were well formed and non-decreasing and end at the frozen lengths, cache details never changed, and a measured request had zero cached tokens |
| `CaptureMeaning.CachedIs` | scripts/upstream_capture.py:144-163 | the cached tokens of given details are the sum of device, host and, where given, storage |
| `CaptureComplaints.CallComplaints` | scripts/upstream_capture.py:66-114 | which complaints one call adds, in order |
| `CaptureComplaints.FinalComplaints` | scripts/upstream_capture.py:125-189 | which complaints about request, wire, model, end and finish the capture ends with, said of the calls |
| `Sandbox.TailIsLast` | docker/q200_sandbox_driver.py:251-254 | appending and trimming keeps the last 4096 bytes of everything, however reads are cut |
| `Sandbox.Supervisor.HandleAll` | docker/q200_sandbox_driver.py:336-368 | counts, tails, completion bytes and open descriptors are those of the reads so far |
| `Sandbox.Supervise` | docker/q200_sandbox_driver.py:320-384 | for every finite schedule, why and when the loop ends: the first turn past the deadline with the process running, the first past the settling time, the first with output beyond 65536 bytes, the first with everything closed and the process gone, or a fault; the status each leads to; and a candidate passes if and only if the loop ended by itself with return code 0 and exactly the marker, with both outputs read to their end within the bound |
| `TreeWalk.WalkEntries` | scripts/preflight.py:237-250 | the entries of one directory are counted once or pushed, and nothing reachable is lost |
| `TreeWalk.Walk` | scripts/preflight.py:222-251 | the walk ends with the sum over distinct regular files reachable without following links, of their sizes and of 512 times their blocks, and is unknown exactly when something reachable cannot be read |
| `TreeWalk.FilesAreReached` | scripts/preflight.py:222-251 | a file is counted exactly when directories lead to it from the root |
| `TreeWalk.FailuresAreMet` | scripts/preflight.py:222-251 | and so for what cannot be read |
| `TreeWalk.OrderIndependent` | scripts/preflight.py:222-251 | reordering any directory of the tree leaves the answer as it is |
| `Ranks.RanksCompare` | scripts/compare.py:84-97 | for any monotone relation, two ranks of two lists are related if and only if that many values of one list are each related to that many of the other |
| `Ranks.MedianHalves` | scripts/compare.py:84-87 | at least half of the values reach the median and at least half do not exceed it, strictly more than half when their number is odd |
| `Ranks.MedianPermutes` | scripts/compare.py:84-87 | the median does not depend on the order of the values |
| `Compare.MeasuredProseRows` | scripts/compare.py:120-187 | the loop succeeds if and only if every row that is not a warmup is good, and returns those, measured, in order |
| `CompareFields.RateIsTokensPerSecond` | scripts/compare.py:161-187 | a good row of n completion tokens in w seconds is measured at n / w |
| `CompareFields.AcceptedExactly` | scripts/compare.py:120-187 | a prose row is accepted exactly when it is marked good, its usage adds up with some completion, its first token comes within its wall time, and a stated rate is within 1% or a millionth of tokens per second |
| `CompareFields.FirstTokenIs` | scripts/compare.py:776-831 | the first-token time of a vision row is its `ttft_s`, if the row is good |
| `CompareFields.IdentityIs` | scripts/compare.py:776-831 | the identity of a vision row is its case, repeat and input hash |
| `CompareMeaning.RepeatsExactly` | scripts/compare.py:206-218 | the tests on the repeats of a case pass if and only if each of 0 to N-1 is there exactly once and nothing else is |
| `ComparePass.PassExactly` | scripts/compare.py:617-773 | PASS if and only if, on the rows themselves: parity; every prose case has each repeat once on both sides and median rates 5% ahead; both upstream lanes gain 5%; vision inputs are paired and first-token times hold; a vision lever gains 5%; and every row is bound, with 43 vision cases |
| `ComparePass.CompareRuns` | scripts/compare.py:617-773 | PASS exactly for rows that pass, and unlike manifests or a bad prose row raise |
| `CompareVerdicts.RaisedExactly` | scripts/compare.py:617-773 | the comparison raises exactly for unlike manifests, for a bad prose row, and, once the prose gate is open, at the first lane that can be neither passed nor failed |
| `CompareVerdicts.LaneMeans` | scripts/compare.py:676-713 | an upstream lane with a positive baseline gains exactly when the candidate has at least 1.05 times as much |
| `CompareVerdicts.LeverMeans` | scripts/compare.py:727-752 | a vision lever passes exactly when its median is at most 0.95 times the baseline's |
| `CompareVerdicts.MetricMedianIs` | scripts/compare.py:731-744 | that median is over the metric of every row |
| `CompareVerdicts.BoundExactly` | scripts/compare.py:534-548 | rows are bound exactly when every row not marked true is bound and their cases are the frozen ones |
| `CompareVerdicts.SideExactly` | scripts/compare.py:776-816 | a side of the vision gate is good exactly when it has two rows or more, all good and identified, and no case and repeat twice |
| `CompareVerdicts.RankIs` | scripts/compare.py:90-97 | the rank of the percentile is the integer nearest to 95% of the last index, the even one of two |
| `CompareWitness.WitnessPasses` | scripts/compare.py:617-773 | any rows of any token counts and wall times whose median rates are 5% ahead belong to a comparison that PASSes |
| `CompareWitness.PassReachable` | scripts/compare.py:617-773 | for every number of repeats some comparison PASSes |
| `CompareMeaning.MajorityExactly` | scripts/compare.py:84-87 | more than half of the candidate rates are each at least 1.05 times each of more than half of the baseline rates if and only if the lower middle rate is at least 1.05 times the upper middle one |
| `CompareMeaning.OddGateExactly` | scripts/compare.py:654-674 | for odd numbers of rates the gate of a prose case is open if and only if such a majority is ahead |
| `CompareMeaning.GateBetween` | scripts/compare.py:654-674 | for any numbers, a majority ahead opens the gate, and an open gate has at least half ahead of at least half |
| `CompareMeaning.EvenGateFails` | scripts/compare.py:654-674 | for every even number of repeats there are rates that open the gate although no majority is ahead |
| `CompareMeaning.FourRatesFail` | scripts/compare.py:654-674 | four such rates on each side |
| `CompareMeaning.MajorityNeedsOdd` | scripts/compare.py:654-674 | an open gate means a majority, whatever the rates, if and only if the number of repeats is odd |
| `ComparePass.PassMeansMajority` | scripts/compare.py:617-773 | PASS means, for each prose case over exactly the expected repeats, at least half ahead of at least half, and a majority ahead of a majority when the number of repeats is odd |
| `CompareWitness.EvenPassFails` | scripts/compare.py:617-773 | for every even number of repeats some comparison PASSes although in no case a majority is ahead of a majority |
| `CompareWitness.PassMajorityExactly` | scripts/compare.py:617-773 | PASS means a majority ahead of a majority in every case if and only if the number of repeats is odd |
| `CompareMeaning.P95Splits` | scripts/compare.py:90-93 | at least 95% of the values, less half a value, do not exceed the percentile, and over 5% reach it |
| `CompareMeaning.VisionGateExactly` | scripts/compare.py:776-831 | the vision gate is open if and only if both sides are good, their inputs are paired one to one, and as many candidate times as the percentile covers are each at most 1.05 times each baseline time from it on |
| `ComparePass.PassBoundsFirstToken` | scripts/compare.py:776-831 | PASS means as many first-token times on either side, and at least 95% of the candidate's, less half a value, each at most 1.05 times each of over 5% of the baseline's |
| `CompareOrder.VerdictIgnoresOrder` | scripts/compare.py:617-831 | sides whose rows are the same up to order and warmup rows have the same verdict |
| `CompareOrder.VerdictIgnoresRearranging` | scripts/compare.py:617-831 | permuting the prose or vision rows of either side, or inserting a warmup row anywhere among them, leaves the verdict unchanged; a vision warmup row is one marked exactly true |
| `CompareWarmup.HalfMarkedExactly` | scripts/compare.py:534-548 | a vision row with another truthy mark, added to a baseline that PASSes, leaves PASS if and only if its case is frozen and it is bound |
| `CompareWarmup.HalfMarkedFails` | scripts/compare.py:534-548 | one such row turns a PASS away |

## Left out

- Docker, HTTP, sockets, threads, the memory probe and the clock: replies of the environment, any reply at any step.
- Failed saves in `run` are plain errors; the blocking-error subclass, which would turn the code into 9, is not distinguished.
- Exceptions that `run` does not catch (malformed nested Docker documents) and a killed process.
- JSON text, UTF-8 and hash internals: values, lines of bytes and abstract functions stand for them; of a written receipt only the length of its text is modelled, and a lock is taken to be short enough to be read.
- Numbers of different JSON kinds are never equal here, whereas Python takes 1, 1.0 and true as equal; this matters only where the source compares whole JSON values, such as cache details.
- Floating point: rates, times and depths are reals; rounding, NaN and infinities are not modelled.
- StreamReducer.StreamRequest: error detail texts and the stored error body are not modelled; the finish reason is kept as a JSON value and not as its text; recursion limits and numeric overflow of the JSON parser are not modelled.
- StreamFields.RequestStream: takes how opening went as a reply; it does not model how exceptions are sorted into timeout and transport.
- `Compare`: parity, manifest validation, the upstream lanes and the binding of single rows to a manifest are parameters; an end-to-end rate stated as a numeric string is rejected here; rows are taken as parsed.
- Capture.CaptureRecord.Finalize: does not model the written document; the complaints are tags, not the source's strings.
- Capture.CaptureRecord.ObserveEvent: the complaints are tags, not the source's strings.
- Receipts.VerifyFiles: each file is seen at two moments, before and after hashing; a file that changes and changes back in between is not modelled.
- Sandbox.Supervise: a schedule is finite, and one that runs out is reported as unfinished; terminating the process and tracking its children are replies of the environment.
- LauncherRun.Runner.Run: a script is finite and every call fails after it; a healthy container that is watched without end is covered by the machine, whose properties hold at every point of every run.
- Quantization metadata, configuration checks, derived index facts and `_validate_dtype_families` of `scripts/audit_checkpoint.py`: comparisons with constants.
- `build_case`, `check_response` and `_execute_cases` of `scripts/niah.py`, `_mount_for` of `scripts/preflight.py` and `check_receipt_against_tree` of `scripts/verify_files.py`: simple checks on one case or one path at a time.
- `runtime/`, the traffic drivers, the fixture makers, the build and packaging scripts, and the rewriting of upstream source in `scripts/upstream_capture.py`.
