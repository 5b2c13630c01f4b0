# GP-SDR: a model of its core, with proofs

GP-SDR is a radio receiver station: a Go server that captures radio spectrum, demodulates and records it, plans
unattended surveys, and streams audio to a browser, with Python scripts for a touch panel and for checking a stream.
This project models the parts of it in which a property depends on several functions, a loop or a whole run, and
proves those properties for all inputs. One file holds one part:

| file | part |
|---|---|
| `Calibration.dfy`, `PivotMinors.dfy`, `Determinants.dfy` | the touch panel's least-squares fit and its Gauss-Jordan solver; when the solver accepts, in terms of minors |
| `Journal.dfy`, `Events.dfy`, `Store.dfy`, `Media.dfy`, `PassLaws.dfy`, `WalkLaws.dfy`, `Recoveries.dfy`, `StoreCrashes.dfy`, `StoreRuns.dfy` | the event journals at the level of bytes, crashes and repair; replay; the event store; reconciliation with the recordings on disk, and its laws in the fields of the events; whole lives of a store |
| `Demodulator.dfy`, `Carrier.dfy`, `Filters.dfy` | the streaming demodulator and what it computes sample by sample; what becomes of a carrier; how the filters settle |
| `MapperTargets.dfy`, `MapperPlan.dfy` | the targets of a Mapper job; grouping them into captures and centring the receiver |
| `LiveAudio.dfy`, `Wav.dfy` | the live-audio stream and its two readers; the WAV writer and reader |
| `Deferred.dfy`, `DeferredVerdict.dfy`, `DeferredGroups.dfy` | the deferred-analysis worker pool with Stop; its verdict on each event from what was reported; its grouping |
| `AudioHub.dfy` | the drop-oldest audio fan-out |
| `MapperSessions.dfy` | Mapper jobs and the fencing of their sessions |
| `Relay.dfy` | the push-to-talk life cycle |
| `Tuning.dfy` | the adaptive gain controller |
| `Bytes.dfy`, `GoMath.dfy`, `GoText.dfy`, `Wrappers.dfy` | little-endian integers, Go's rounding and trimming, `Option` |

Code that changes state is a class or a method with loops, proved against functions on values; the properties are
lemmas about those functions. The planner is one of the results: for every job it makes the fewest captures that its
ordered targets allow (`MapperTargets.PlanPhase`). The concurrent parts (`Deferred`, `AudioHub`, `Relay`) are state
machines whose steps are the source's critical sections, channel operations and driver calls, and the theorems hold
for every order of them. Mapper operations hold one lock throughout, so there an interleaving is a sequence of
operations. Floating point numbers are reals. What the code gets from elsewhere is a parameter with stated laws: the
JSON codec (no raw newline and no decodable proper prefix in an encoding, sections 7 and 4 of RFC 8259; decoding
undoes encoding), the trigonometric functions (unit norm, addition of angles, a positive cosine in the right half
plane, and the arctangent of a point as its angle), the text cleaners (idempotent), clocks, the disk, and driver and
callback results.

## Where the code falls short of the obvious claim

- Appending an event keeps memory equal to what a restart loads exactly under a condition on its identifier
  (`Events.AppendSafeExactly`); updates of a dropped legacy record can come back (`Events.LegacyUpdateComesBack`), and
  a restart returns the same table exactly when there is no legacy record (`Store.EventStore.ReopenUnchanged`).
- The startup pass keeps memory equal to what a restart loads exactly when no recovered identifier has an older update
  that differs (`Store.EventStore.ReconcileMedia`); a recording that names a dropped legacy record breaks that
  (`StoreRuns.HauntedStartup`), and while new events have new identifiers nothing else does (`StoreRuns.Run`).
- The solver rejects some regular systems, because its threshold is absolute (`GaussJordan.RegularCanRaise`). It accepts
  exactly when each minor that pivoting meets is at least the threshold times the one before
  (`PivotMinors.AcceptedExactly`), and the fit refuses some taps that are not on a line
  (`AffineFit.ThinTrianglesAreRefused`, `AffineFit.WellSpreadExactly`).
- A WAV file is written for every positive rate but reads back only if it is not empty and fits 32 bits
  (`Wav.RoundTripExactly`); a stream's rate is kept modulo 2^32 (`LiveAudio.ReceivedExactly`); the two stream readers
  part at a rate of zero (`LiveAudio.ReadersAgreeExactly`).
- A deleted job can come back (`MapperSessions.DeletedJobReturns`): exactly when a report carries the number then on
  record for it (`MapperSessions.ComesBackExactly`), which careful callers rule out
  (`MapperSessions.DeletedStaysDeleted`). That number zero is not fenced (`MapperSessions.ZeroIsNotFenced`) is a property
  of the methods alone: no caller reports under it (`server/internal/app/live_survey.go:688`).
- The line of an idle relay can be up: after a release that failed, for the driver's error is ignored
  (`Relay.ReleaseCanFail`), and after a key-up that raised the line but reported failure, which is never released
  (`Relay.FailedKeyCanStick`); only then (`Relay.RelaySafety`).
- Where Stop comes between a combining that failed and the check behind it, the failure is forgotten and the events of
  the group end pending (`DeferredVerdict.FailureBeforeStop`); in all other cases they end as was reported
  (`DeferredVerdict.OutcomeIsReported`).
- The length that the startup pass reads from a recording is wrong for rates from 2^31, which are written all the same
  (`Wav.SecondsExactly`).
- An overload does not make the RTL controller count quiet captures anew, as it does on the HackRF
  (`Tuning.RtlForgetsOverload`, `Tuning.RtlRaiseExactly`).

## Model

| member | source | states |
|---|---|---|
| `GaussJordan.Solve` | Scripts/pi/gp-sdr-touch-calibrate.py:89-104 | for every n, the nested in-place loops either raise or return the one vector that solves the system; a singular matrix always raises |
| `GaussJordan.RoundCorrect` | Scripts/pi/gp-sdr-touch-calibrate.py:93-103 | one pass (pivot, swap, scale, eliminate) keeps the solution set of the augmented system and makes its column a unit column without spoiling the finished ones |
| `GaussJordan.RoundsCorrect` | Scripts/pi/gp-sdr-touch-calibrate.py:93-103 | the same over any number of passes, by induction |
| `GaussJordan.SwapKeepsNullSpace` | Scripts/pi/gp-sdr-touch-calibrate.py:97-97 | the row swap keeps the solution set |
| `GaussJordan.NormaliseKeepsNullSpace` | Scripts/pi/gp-sdr-touch-calibrate.py:98-99 | the scaling keeps the solution set |
| `GaussJordan.EliminateKeepsNullSpace` | Scripts/pi/gp-sdr-touch-calibrate.py:100-103 | eliminating a column from every other row keeps the solution set |
| `GaussJordan.PivotRow` | Scripts/pi/gp-sdr-touch-calibrate.py:94-94 | the pivot is the first row of largest magnitude, as Python's max chooses it |
| `GaussJordan.AcceptedIsSolved` | Scripts/pi/gp-sdr-touch-calibrate.py:93-104 | if no pass raises, the last column is the only solution and the matrix is regular |
| `GaussJordan.NoPivotIsSingular` | Scripts/pi/gp-sdr-touch-calibrate.py:94-96 | a pass whose best pivot is zero proves the original matrix singular |
| `GaussJordan.SingularRaises` | Scripts/pi/gp-sdr-touch-calibrate.py:95-96 | a singular matrix raises whatever the right-hand side |
| `GaussJordan.RegularCanRaise` | Scripts/pi/gp-sdr-touch-calibrate.py:95-96 | the converse is false: the absolute threshold rejects the regular system x / 10^10 = 1 |
| `PivotMinors.PivotIsRatio` | Scripts/pi/gp-sdr-touch-calibrate.py:93-103 | before pass k the candidate pivot of a row is a minor of order k + 1 of the original matrix over the one of order k met before |
| `PivotMinors.AcceptedExactly` | Scripts/pi/gp-sdr-touch-calibrate.py:93-104 | for every n, the solver accepts exactly the matrices in which each minor that pivoting meets is at least the threshold times the one before, whatever the right-hand side |
| `PivotMinors.RegularExactly` | Scripts/pi/gp-sdr-touch-calibrate.py:93-104 | a matrix is regular exactly when no minor it meets vanishes, and exactly when all its large enough multiples are accepted: scale is the only reason for refusing a regular one |
| `PivotMinors.PassesOfThree` | Scripts/pi/gp-sdr-touch-calibrate.py:94-96 | for three unknowns, the rows taken and the acceptance test written out in the entries |
| `AffineFit.Affine` | Scripts/pi/gp-sdr-touch-calibrate.py:107-112 | a fit is returned exactly when there are no more samples than targets and the normal matrix passes the pivot test; every other affine map of the plane has a larger total squared distance of the mapped samples from the targets, and on each axis too; more samples than targets is the index error |
| `AffineFit.SingularExactly` | Scripts/pi/gp-sdr-touch-calibrate.py:107-112 | the normal matrix is singular exactly when the samples lie on one line |
| `AffineFit.WellSpreadExactly` | Scripts/pi/gp-sdr-touch-calibrate.py:94-112 | the acceptance test as bounds on the entries, 2 by 2 minor and determinant of the normal matrix |
| `AffineFit.WellSpreadIsNotCollinear` | Scripts/pi/gp-sdr-touch-calibrate.py:94-112 | accepted samples do not lie on one line |
| `AffineFit.ThinTrianglesAreRefused` | Scripts/pi/gp-sdr-touch-calibrate.py:95-112 | the converse is false for real panel coordinates: four taps that are not on a line, with twice the area 1, are refused |
| `AffineFit.NormalEquations` | Scripts/pi/gp-sdr-touch-calibrate.py:109-111 | the rows of the normal system say that the residuals are orthogonal to the columns of the design |
| `AffineFit.NormalSolutionIsBest` | Scripts/pi/gp-sdr-touch-calibrate.py:107-112 | a solution of the normal equations costs no more than any other map, and strictly less when it is their only one |
| `AffineFit.OnlySolutionIsBest` | Scripts/pi/gp-sdr-touch-calibrate.py:107-112 | the same for a list of touch samples against every competing map |
| `AffineFit.CollinearIsSingular` | Scripts/pi/gp-sdr-touch-calibrate.py:107-112 | samples on one line give a singular normal matrix |
| `AffineFit.TwoSamplesAreCollinear` | Scripts/pi/gp-sdr-touch-calibrate.py:107-112 | so two samples are never enough |
| `AffineFit.ExactMapIsBest` | Scripts/pi/gp-sdr-touch-calibrate.py:107-112 | targets that are an affine image of the samples are recovered exactly |
| `Journal.LoadEncoded` | server/internal/app/event_journal.go:18-92 | scanning what the appends wrote gives back the records in order |
| `Journal.RepairIsSafe` | server/internal/app/event_journal.go:110-157 | on any bytes: whole lines survive, bytes are removed only after a copy of the whole file, and a second repair does nothing |
| `Journal.RepairCut` | server/internal/app/event_journal.go:110-157 | an append cut at any byte leaves, after repair, all earlier records and a whole-record prefix of the append |
| `Journal.RunTracksLog` | server/internal/app/event_journal.go:18-157 | over every run of single and batch appends, crashes at any byte and restarts, the file is well formed and loads as exactly that log |
| `Journal.CrashTracksLog` | server/internal/app/event_journal.go:110-157 | one crash, for any cut, also beyond the end of the append |
| `Journal.JsonLikeExists` | server/internal/app/event_journal.go:18-32 | what is assumed of the JSON codec can be met |
| `Events.WithoutLegacy` | server/internal/app/store.go:302-345 | dropping the legacy false positives loses nothing exactly when there are none |
| `Events.WithoutLegacyIsRid` | server/internal/app/store.go:302-345 | exactly the records with all four marks of a false positive are dropped, every copy, and the others stay |
| `Events.Find` | server/internal/app/event_journal.go:94-105 | the index holds the last position of an identifier |
| `Events.ReplayAt` | server/internal/app/event_journal.go:62-92 | what replay leaves at a position, without running it: the last update under its identifier, at the last record that has it |
| `Events.AppendSafeExactly` | server/internal/app/store.go:368-398 | appending keeps memory equal to what a restart loads exactly when the identifier has no earlier updates, or the last of them and the last record under it already equal the new event |
| `Events.LegacyUpdateComesBack` | server/internal/app/store.go:302-345 | a dropped legacy record leaves its updates behind, and they overwrite a later record of the same identifier |
| `Store.EventStore.Append` | server/internal/app/store.go:368-398 | files, log, table and index after an append; the store stays valid exactly under the condition of AppendSafeExactly |
| `Store.EventStore.Get` | server/internal/app/store.go:464-473 | the linear search from the newest event agrees with the index |
| `Store.EventStore.Update` | server/internal/app/event_journal.go:58-60 | every update changes one event in memory and appends the whole of it; memory stays base journal plus replayed updates |
| `Store.EventStore.UpdateAnalysisStatus` | server/internal/app/store.go:574-592 | the fields the status update writes, with the message trimmed, for a known identifier; nothing at all for an unknown one |
| `GoText.TrimSpaceExactly` | server/internal/app/store.go:574-592 | trimming takes spaces from both ends, all of them and nothing else |
| `Store.EventStore.RepairTail` | server/internal/app/event_journal.go:110-157 | the branches of the repair, the copy saved before the cut |
| `Store.EventStore.Scan` | server/internal/app/event_journal.go:62-92 | the scanning loop reads the records or fails at the first bad line |
| `Store.EventStore.LoadUpdates` | server/internal/app/event_journal.go:62-92 | the replay loop over its own index of positions |
| `Store.EventStore.Reopen` | server/internal/app/store.go:280-341 | a start succeeds exactly when every line of both repaired files decodes; the table is the base records less the legacy ones, with the updates replayed |
| `Store.EventStore.ReopenAfterCrash` | server/internal/app/store.go:280-341 | after crashes that cut the last append to each file at any byte, a start succeeds and yields a valid store with all completed records and whole-record prefixes |
| `Store.EventStore.ReopenUnchanged` | server/internal/app/store.go:280-341 | restarting a valid store drops exactly the legacy records and no update; the table is the same exactly when there was no legacy record |
| `Store.EventStore.ReconcileRemovedMedia` | server/internal/app/media_recovery.go:297-327 | every event changed as Media.WithdrawnObeys says, one update for each changed event in table order, the count returned is theirs, memory still what a restart loads |
| `Media.Withdrawn` | server/internal/app/media_recovery.go:297-327 | no path of the result names a missing file, and nothing changes when every named file exists |
| `Media.WithdrawnObeys` | server/internal/app/media_recovery.go:297-327 | exactly the paths that name no file are cleared, each with a remark; an event that waits and keeps no recording becomes unavailable, and the status of every other stays |
| `Media.LinksExactly` | server/internal/app/media_recovery.go:38-72 | exactly the names of recordings are linked, each to a recording of that name; exactly the names two recordings share are ambiguous |
| `Media.RelinkedExactly` | server/internal/app/media_recovery.go:139-151 | a lost path is relinked exactly when one recording and no other has its file name, and then to that one |
| `Media.PassSettles` | server/internal/app/media_recovery.go:89-180 | one pass leaves an event with only existing paths and no running status, and sees exactly the existing files it names; the status it gets is that of PassLaws.TurnObeys |
| `PassLaws.TurnObeys` | server/internal/app/media_recovery.go:89-180 | for every event, field by field: which status, error and completion time it gets when it was interrupted, finished without a note of it, cleaned, or lost its last recording, and that they stay otherwise; its paths, texts, evidence and remarks; and what the turn counts |
| `PassLaws.LoopObeys` | server/internal/app/media_recovery.go:89-183 | over the whole table: every event by that law, and the counters are the numbers of the paths and events it names |
| `PassLaws.EvidenceExactly` | server/internal/app/media_recovery.go:93-118 | of every message as many copies stay as there were, if it is evidence, and none otherwise |
| `Media.SettledStays` | server/internal/app/media_recovery.go:89-180 | a second pass over a settled event relinks, loses, requeues and withdraws nothing and keeps paths, status, evidence and transcript |
| `Media.ThirdPassChangesNothing` | server/internal/app/media_recovery.go:89-180 | the pass after that changes no field at all |
| `Media.TurnHandles` | server/internal/app/media_recovery.go:184-253 | an unreferenced recording becomes an event or is linked to one, and once handled is left alone |
| `Media.TurnKeepsSettled` | server/internal/app/media_recovery.go:184-253 | recovering a recording keeps every event settled |
| `Store.CollectLinks` | server/internal/app/media_recovery.go:38-76 | the walk over the media directory gives exactly those links, and the IQ and WAV files in order |
| `Store.EventStore.PassOverEvents` | server/internal/app/media_recovery.go:89-183 | the event loop and its one batch of updates: every event changed as PassLaws.LoopObeys says, exactly the changed ones written, in order; the report counts exactly the relinked and lost paths, the interrupted and cleaned events and those retired |
| `Store.EventStore.Take` | server/internal/app/media_recovery.go:78-86 | one recording: invalid, already known, relinked or recovered; table and counters are those of the turn, and a recovered event has a new identifier taken from the recording |
| `Store.EventStore.PassOverDisk` | server/internal/app/media_recovery.go:184-253 | both loops: table, counters and updates are those of the turns over all recordings; handled recordings change nothing |
| `Store.EventStore.PassOverRecordings` | server/internal/app/media_recovery.go:184-253 | the loops over IQ and WAV recordings |
| `Store.EventStore.ReconcileMedia` | server/internal/app/media_recovery.go:36-286 | from any valid store: every event changed as the laws of PassLaws and WalkLaws say, in the fields of the event before and the recordings on disk, and the report counts just that; every recording handled, old records untouched, and recovered exactly the events of the able recordings, the first for each identifier; on a table like that it does nothing; and memory is what a restart loads exactly when none of those recordings has an older update under its identifier that says something else |
| `Recoveries.GainsExactly` | server/internal/app/media_recovery.go:184-253 | which recordings become events: unreferenced, with a usable description, under an identifier neither known nor met earlier |
| `Recoveries.GainsDescribed` | server/internal/app/media_recovery.go:204-253 | and what they become: pending, unheard, under the identifier of the recording, with its time, frequency and duration, at two bytes an IQ sample |
| `Recoveries.WalkedGains` | server/internal/app/media_recovery.go:184-253 | both loops add exactly those, behind the events there were, and relink only those |
| `WalkLaws.WalkedObeys` | server/internal/app/media_recovery.go:184-253 | both loops on the table and the report: an old event keeps an IQ file that exists and otherwise gets the first recording that names it; recovered, relinked and unreadable recordings are counted, and nothing else |
| `Recoveries.ComesBackExactly` | server/internal/app/media_recovery.go:78-86 | no recovered event has an older update exactly when no such recording has |
| `StoreCrashes.Tear` | server/internal/app/event_journal.go:18-157 | a process that dies at any byte of an append or batch, and starts again, has kept whole records from its front and nothing else |
| `StoreCrashes.WithdrawThenTear` | server/internal/app/media_recovery.go:297-327 | a crash inside the batch of a removed-media pass keeps a prefix of its updates |
| `StoreCrashes.PassThenTear` | server/internal/app/media_recovery.go:36-286 | a crash anywhere in a startup pass: in the batch of updates, at the update of any recording, or in the recovered records; the next start succeeds and what was there is there |
| `StoreRuns.SoundStartup` | server/internal/app/runtime.go:93-97 | after a restart that dropped legacy records, the pass leaves no recovered event with an older update unless a recording names a dropped identifier |
| `StoreRuns.FollowsKeeps` | server/internal/app/store.go:280-398 | no operation loses a record that is not legacy, moves one, or loses an update |
| `StoreRuns.Do` | server/internal/app/runtime.go:93-97 | what each operation, restart, crash and startup pass writes to the two journals, and that it leaves the store in a state the next one can start from |
| `StoreRuns.DoCrash` | server/internal/app/runtime.go:93-97 | the same for the operations in which the process dies |
| `StoreRuns.Run` | server/internal/app/runtime.go:93-97 | over every lawful run of appends, updates, removed-media passes, restarts, startup passes and crashes inside any of the writes: every start succeeds, memory is base plus replayed updates, identifiers are unique, and no appended event and no update is lost |
| `StoreRuns.HauntedStartup` | server/internal/app/runtime.go:93-97 | the law about dropped identifiers is needed: a recovered recording that names one is replaced by the old update at the next start |
| `Store.QuietAfterPass` | server/internal/app/media_recovery.go:184-253 | why the loops over recordings do nothing in a second pass |
| `Demodulation.OutputRate` | server/internal/app/dsp.go:71-87 | the output rate is in [nominal, 2 nominal), for 48 kHz or 16 kHz, exactly when the input rate reaches the nominal rate, and is the input rate below it |
| `Demodulation.RunSplit` | server/internal/app/dsp.go:108-166 | processing a stream in two parts gives the same audio and the same state as processing it at once |
| `Demodulation.OscillatorStaysUnit` | server/internal/app/dsp.go:122-132 | the oscillator keeps norm 1 |
| `Demodulation.RenormalisingIsIdle` | server/internal/app/dsp.go:127-132 | so the periodic renormalisation changes nothing |
| `Demodulation.TurnDirect` | server/internal/app/dsp.go:108-166 | one turn of the loop moves the state of the direct definition one sample on, and emits exactly its samples |
| `Demodulation.RotationIsAngle` | server/internal/app/dsp.go:84-126 | the rotation at sample n is back by the angle a carrier at the offset has turned by then, so the mixer shifts by the offset at every sample without drift |
| `Demodulation.RunIsDirect` | server/internal/app/dsp.go:108-166 | each audio sample is the direct definition: rotation by the phase, block mean, discriminator or envelope, block mean, de-emphasis |
| `Carrier.CarrierRests` | server/internal/app/dsp.go:84-137 | a carrier at the requested frequency is turned to rest: every channel sample is (1, 0), for every rate, offset and mode |
| `Carrier.CarrierIsSilent` | server/internal/app/dsp.go:84-161 | so in every FM mode all of its audio is 0 |
| `Carrier.Discriminates` | server/internal/app/dsp.go:122-150 | the arguments of the arctangent for a carrier elsewhere are its power times sine and cosine of the angle it turns in a block |
| `Carrier.FrequencyIsMeasured` | server/internal/app/dsp.go:84-150 | the discriminator measures frequency, sign and scale: inside the channel its value is to 75 kHz or 5 kHz as the distance of the carrier from the requested frequency, but for the rounding of the channel rate |
| `Filters.PlanObeys` | server/internal/app/dsp.go:55-97 | the two decimations in numbers, the deviation, the de-emphasis of 75 microseconds and the carrier level of a quarter of a second |
| `Filters.Settles` | server/internal/app/dsp.go:158-163 | the de-emphasised audio of a steady value approaches it geometrically, at every sample by the share of the filter |
| `Filters.CarrierIsHeard` | server/internal/app/dsp.go:84-165 | from frequency to loudspeaker: a carrier off the requested frequency is heard as its distance over the deviation at full scale 32767, to half a step and a gap that shrinks at every sample |
| `Filters.SampleAgrees` | server/internal/app/dsp.go:108-166 | an audio sample depends only on the input up to the end of its blocks |
| `Filters.RecordingIsHeard` | server/internal/app/dsp.go:108-166 | so every audio sample of a recorded carrier is that, in reads of any size by Streaming.DemodulateAll |
| `Filters.PlainCarrierFades` | server/internal/app/dsp.go:139-165 | in AM the carrier level follows a plain carrier, and its audio fades under a bound that shrinks at every channel sample |
| `Streaming.RunCounts` | server/internal/app/dsp.go:138-165 | samples waiting and samples emitted are conserved |
| `Streaming.EmittedCount` | server/internal/app/dsp.go:134-165 | exactly (p + n) / (D1 D2) samples are emitted, the remainder waits, and the preallocated capacity suffices |
| `Streaming.OneSample` | server/internal/app/dsp.go:109-165 | the loop body with its mutable accumulators and renormalisation is one turn |
| `Streaming.RunSamples` | server/internal/app/dsp.go:108-166 | the byte loop over a read |
| `Streaming.StreamingDemodulator.Demodulate` | server/internal/app/dsp.go:45-186 | refusals change nothing; otherwise state is kept or reset by the channel's configuration, and state, audio, rate and dropped byte are those of the run |
| `Streaming.DemodulateAll` | server/internal/app/dsp.go:24-36 | reads of any size: refused when shorter than four bytes, an odd last byte dropped; the audio and the final state are the direct definition's on the samples heard, and an unusable rate or mode refuses every read |
| `Streaming.WholeIsHeard` | server/internal/app/dsp.go:24-36 | so where a recording is cut between samples does not matter |
| `Streaming.BytesHeard` | server/internal/app/dsp.go:45-48 | samples are lost exactly when a read is not empty and is shorter than four bytes or of odd length |
| `MapperPlan.BatchSampleRate` | server/internal/app/live_survey.go:180-188 | the rate of a capture: the one asked for where the device takes it, in numbers; else the largest its targets need |
| `MapperPlan.PinnedRateIsOne` | server/internal/app/live_survey.go:85-156 | when a native HackRF or an accepted request fixes the rate, every set of targets has the same one |
| `MapperPlan.FitsWindow` | server/internal/app/live_survey.go:190-203 | every two targets with two widths on the far side of each, no width below 12.5 kHz, fit into 84 percent of the rate: exactly when the extremes do |
| `MapperPlan.GreedyStaysAhead` | server/internal/app/live_survey.go:214-227 | from any later point greedy needs no more groups than any division |
| `MapperPlan.SteadyIsOptimal` | server/internal/app/live_survey.go:205-229 | at a fixed rate, with a limit of two, and for every list in which wideband targets are all targets or wider than 504 kHz, no division into allowed consecutive groups has fewer captures |
| `MapperPlan.NarrowWidebandIsNotOptimal` | server/internal/app/live_survey.go:205-229 | about lists that no job makes: a wideband target no wider than 504 kHz next to narrow ones is split off needlessly where the rate can vary |
| `MapperPlan.OptimalExactly` | server/internal/app/live_survey.go:205-229 | how wide wideband targets must be: with a given width for all of them, greedy is optimal on every list of a job exactly when the rate is pinned, the limit is at most two, or the width is above 504 kHz; the program gives them 2 MHz |
| `MapperTargets.JobTargetsPlannable` | server/internal/app/live_survey.go:414-498 | every list a job makes is one of those: in Identify a dump1090 target is 2 MHz wide because its bandwidth comes from its decoder, in Discovery all targets have the same decoder; and it is not empty |
| `MapperTargets.ChosenAreBest` | server/internal/app/live_survey.go:417-449 | Identify listens to eligible records only, to all of them unless limited, and then no eligible one left out comes before a chosen one in the job's order |
| `MapperTargets.IdentifyHears` | server/internal/app/live_survey.go:417-475 | target k of Identify has the identifier and frequency of chosen record k and the width its decoder and modulation need; without a limit all passing records are chosen, and with one none left out is better |
| `MapperTargets.PassesExactly` | server/internal/app/live_survey.go:417-434 | a record passes exactly when its hits, its checks, its frequency and its age do, with the share of hits written without a division |
| `MapperTargets.DecoderNames` | server/internal/app/decoder_targets.go:146-175 | which names stand for the decoders with a width of their own |
| `MapperTargets.GridCovers` | server/internal/app/live_survey.go:478-495 | every frequency of the Discovery range is at a target or less than a step above one |
| `MapperTargets.DiscoverySweeps` | server/internal/app/live_survey.go:478-495 | the first target is at the start, each a step after the one before, the last at most a thousandth of a step past the end and the next would be beyond, and every frequency of the range is within a step above one |
| `MapperTargets.DiscoveryWidths` | server/internal/app/live_survey.go:500-539 | the width of every target: as set, or that of the mode, of the decoder, or of the band, where 200 kHz is kept for the odd multiples of 100 kHz |
| `MapperTargets.RefusedExactly` | server/internal/app/live_survey.go:478-482 | which ranges and lists are refused |
| `MapperTargets.MakeTargets` | server/internal/app/live_survey.go:414-539 | the filter, cap and mapping loops of Identify and the frequency loop of Discovery: in Identify each target is at the frequency of a chosen record, as wide as its decoder and modulation need, and every passing record of an unlimited job has one; in Discovery the targets are a step apart from start to end, cover the range, and have the widths of their mode, decoder or band; and exactly which configurations are refused |
| `MapperTargets.PlanPhase` | server/internal/app/live_survey.go:589-598 | the same for the targets of a phase; for every device, rate, limit, configuration and list of mapped frequencies, no division of them into allowed consecutive groups has fewer captures; every capture has the rate the device takes and fits its window; and the error for a phase without a capture is never reached |
| `MapperPlan.StableSortCorrect` | server/internal/app/live_survey.go:211-212 | the ordering is a permutation sorted by frequency that keeps the given order at each frequency |
| `MapperPlan.GreedyCovers` | server/internal/app/live_survey.go:214-227 | the groups concatenate to the ordered targets |
| `MapperPlan.GroupSize` | server/internal/app/live_survey.go:215-223 | the inner loop takes the largest extension step by step |
| `MapperPlan.TargetBatches` | server/internal/app/live_survey.go:205-229 | the outer loop: greedy groups of the stable order, each with its rate, with the fewest captures for every list a job makes |
| `MapperPlan.PlannedSizes` | server/internal/app/live_survey.go:205-229 | batch sizes lie between one and the limit, and larger batches fit the window |
| `MapperPlan.AllowedExactly` | server/internal/app/live_survey.go:205-229 | which groups may share a capture, in terms of that rate and window |
| `MapperPlan.NearestDistanceBound` | server/internal/app/live_survey.go:258-261 | the accumulated minimum is the distance to the nearest target |
| `MapperPlan.PickFarthest` | server/internal/app/live_survey.go:256-265 | the search returns the first candidate whose nearest target is farthest |
| `MapperPlan.PassbandCenters` | server/internal/app/live_survey.go:238-249 | the centres between the two bounds are exactly those that keep every span within 0.42 of the rate |
| `MapperPlan.BatchCaptureSpec` | server/internal/app/live_survey.go:231-269 | a batch gets a specification exactly when it is a singleton or fits; a group is centred on the farthest admissible candidate, rounded |
| `MapperPlan.PlanCaptures` | server/internal/app/live_survey.go:205-269 | every planned batch gets a specification; a single target is below its centre by its offset and in a group every span is in the passband of the rounded centre, both to half a hertz; the batches are the greedy ones, the fewest for every list a job makes |
| `MapperPlan.TuningOffsetUsable` | server/internal/app/live_survey.go:275-296 | a single target's channel is inside the passband exactly when half of it is narrower; unless that bound decides, the centre spur is outside the noise window |
| `MapperPlan.TuningOffsetExactly` | server/internal/app/live_survey.go:275-296 | the offset is the largest of an eighth of the rate, two and a half bandwidths and 50 kHz or, where that is too much, what leaves the channel in 42 percent of the rate |
| `LiveAudio.Serve` | server/internal/app/http.go:665-689 | the loop writes exactly the frames whose identifier has at most 65535 bytes and whose samples are at most 10000000, each once and in order, and skips the others; it writes all of them exactly when all are within the bounds |
| `LiveAudio.ReceivedExactly` | server/internal/app/http.go:673-683 | frames arrive unchanged exactly when every rate fits 32 bits |
| `LiveAudio.Feed` | server/web/app.js:1173-1183 | one read: the parsing loop over pending and new bytes |
| `LiveAudio.ParseInParts` | server/web/app.js:1170-1184 | for arbitrary bytes, what is kept of a first part determines the rest of the outcome; after a refused header nothing more is played |
| `LiveAudio.Pump` | server/web/app.js:1170-1184 | whatever the chunks, frames played and bytes kept are those of the bytes received so far |
| `LiveAudio.StreamReadBack` | server/web/app.js:1170-1184 | whole frames and a part of the next: exactly the frames are played and exactly the part is kept |
| `LiveAudio.EndToEnd` | server/web/app.js:1170-1184 | after any number of the server's bytes in any chunks, the whole frames among those the bounds let through have been played in order and the rest is held |
| `LiveAudio.SentExactly` | server/internal/app/http.go:665-689 | which frames are sent, at which positions, with their order and multiplicity |
| `LiveAudio.AllSentExactly` | server/internal/app/http.go:665-689 | nothing is skipped exactly when all frames are within the bounds |
| `LiveAudio.AllArrive` | server/web/app.js:1170-1184 | a stream of frames within the bounds, received whole in any chunks, is played frame by frame and nothing is held |
| `LiveAudio.CheckCapture` | Scripts/check_audio_capture.py:8-28 | the checker's loop with its counters and the trailing bytes |
| `LiveAudio.CheckerAgrees` | Scripts/check_audio_capture.py:11-24 | on any bytes the checker reads the client's frames up to the first rate of zero |
| `LiveAudio.ReadersAgreeExactly` | Scripts/check_audio_capture.py:11-24 | same frames and same trailing bytes exactly when no frame has rate zero |
| `Bytes.EncodedSampleAt` | server/internal/app/http.go:683-683 | each little-endian sample is read back |
| `Wav.WriteMonoWAV` | server/internal/app/dsp.go:207-238 | the header filled in place and the samples behind it: what stands in every field, with sizes, rate and bytes per second modulo 2^32, and every sample at its place; refused for a rate that is not positive |
| `Wav.DecodePCM16WAV` | server/internal/app/decoder_runner.go:335-384 | the chunk loop, the checks and their errors, and the mix to mono |
| `Wav.MixFrames` | server/internal/app/decoder_runner.go:373-382 | the nested loops take the truncated mean of the channels of each frame |
| `Wav.WalkChunks` | server/internal/app/decoder_runner.go:341-366 | well-formed chunks before any bytes are walked one by one, pads skipped |
| `Wav.UnknownChunksDoNotMatter` | server/internal/app/decoder_runner.go:341-366 | files whose chunks differ only in unknown ones, odd and padded or not, decode alike |
| `Wav.WrittenWithExtras` | server/internal/app/decoder_runner.go:335-384 | a written recording with unknown chunks inserted anywhere decodes to its samples and rate |
| `Wav.RoundTripExactly` | server/internal/app/dsp.go:207-238 | reading back what was written succeeds exactly for a non-empty recording whose data size and rate fit 32 bits |
| `Wav.FileReads` | server/internal/app/dsp.go:219-238 | the fields of a written header as they read: twice the rate a second, two bytes a frame, one channel of 16 bits |
| `Wav.SecondsExactly` | server/internal/app/media_recovery.go:223-250 | the length the startup pass reads from a written recording is samples over rate exactly when the bytes per second and the data size lose proportional parts to 32 bits; where the data fits, exactly for rates below 2^31 |
| `Deferred.RunOutcome` | server/internal/app/deferred_analysis.go:78-219 | for every interleaving of workers, Stop and arriving captures: nothing is left running, the counters are the events left complete and in error, the rest is pending, and without Stop completed + failed = total |
| `Deferred.TakenUp` | server/internal/app/deferred_analysis.go:78-189 | each wave is for exactly the pending captures the filter selects, and the run has caught up exactly when there are none |
| `DeferredVerdict.OutcomeIsReported` | server/internal/app/deferred_analysis.go:221-325 | from the steps alone: when the run returns, an event is in error exactly when its analysis reported failure, its group went on and the combining did, or the finalizing did; complete exactly when all three succeeded; otherwise pending |
| `DeferredVerdict.CountersAreReported` | server/internal/app/deferred_analysis.go:221-325 | the published counters are the numbers of events reported so |
| `DeferredVerdict.EveryOutcome` | server/internal/app/deferred_analysis.go:221-325 | Stop and new captures may come at any moment, and a worker may meet every outcome at every point, but that work is cancelled only after a Stop and combining nothing succeeds |
| `DeferredVerdict.FailureBeforeStop` | server/internal/app/deferred_analysis.go:288-297 | why the group must have gone on: when Stop comes between a failed combining and the check behind it, its events end pending |
| `Deferred.CutShort` | server/internal/app/deferred_analysis.go:221-232 | a group cut short puts every successful member back to pending and takes it off the counter, whatever the others do |
| `Deferred.CutShortRun` | server/internal/app/deferred_analysis.go:221-325 | over every run from there: the worker keeps all successful members of the group to put back until it has, and then, and when the run returns, each is pending and not counted |
| `Deferred.StopTerminates` | server/internal/app/deferred_analysis.go:78-219 | after a Stop inside a wave only so many steps of workers and dispatcher remain before the run has returned, whatever arrives meanwhile |
| `Deferred.WaveTerminates` | server/internal/app/deferred_analysis.go:191-325 | every wave ends, stopped or not: until the store is read again only so many steps remain, for all outcomes and orders |
| `Deferred.NeverStuck` | server/internal/app/deferred_analysis.go:78-325 | no deadlock: wherever a run has got to, unless it has returned, a worker or the dispatcher has a step to take |
| `Deferred.TurnKeeps` | server/internal/app/deferred_analysis.go:221-325 | every step of a worker keeps the account of which event is counted how |
| `Deferred.NextKeeps` | server/internal/app/deferred_analysis.go:78-325 | every step of anyone keeps it |
| `Deferred.MorePending` | server/internal/app/deferred_analysis.go:171-189 | re-registration adds captures not registered before, so total is their number |
| `DeferredGroups.GroupDeferredEvents` | server/internal/app/deferred_analysis.go:327-343 | one group for each frequency and location key, in key order, by start time |
| `DeferredGroups.SortedKeys` | server/internal/app/deferred_analysis.go:333-337 | the keys of the map in increasing order |
| `DeferredGroups.GroupsPartition` | server/internal/app/deferred_analysis.go:327-343 | every capture is in exactly one group, with those of its key only; groups are not empty |
| `AudioHub.NextKeeps` | server/internal/app/audio_hub.go:20-62 | every step of a publisher, consumer, subscriber or unsubscriber keeps the delivery invariant |
| `AudioHub.Fanout` | server/internal/app/audio_hub.go:20-62 | over every interleaving: published frames are the removed ones followed by the queue, in order; at most 64 queued; a select only ever sends to an open channel, and after a discard there is room, so the final default is never reached |
| `AudioHub.FanoutAtRest` | server/internal/app/audio_hub.go:37-62 | between publications a subscriber has been offered everything since it subscribed and lost at most what exceeds 64 |
| `AudioHub.NewestKept` | server/internal/app/audio_hub.go:37-62 | the newest frame is last in the queue, or the queue is empty and it was the last one received |
| `AudioHub.AcceptsAired` | server/internal/app/audio_hub.go:37-41 | exactly the frames with samples, a positive rate and a channel are published |
| `AudioHub.Listening` | server/internal/app/audio_hub.go:20-62 | from the steps alone: what a listener has received, missed or still in its queue is, in order, what was published since it subscribed |
| `AudioHub.Left` | server/internal/app/audio_hub.go:20-62 | and for one that has left, what was published until it did, whatever happens after |
| `AudioHub.PublisherGoesOn` | server/internal/app/audio_hub.go:37-62 | a publisher never waits for a consumer: at every point it has a step to take, each of its steps brings it nearer to the end, and nothing else moves it |
| `AudioHub.OthersMay` | server/internal/app/audio_hub.go:20-36 | what consumers and subscribers can do, and when |
| `MapperSessions.IssuedInOrder` | server/internal/app/mapper.go:708-713 | session numbers are 1, 2, 3, ... |
| `MapperSessions.Fenced` | server/internal/app/mapper.go:577-812 | once a session is ended, superseded or its job deleted, every later operation carrying it changes nothing, over all interleavings |
| `MapperSessions.WhatKills` | server/internal/app/mapper.go:647-812 | ending, superseding and deleting each end a session |
| `MapperSessions.TakesEffectExactly` | server/internal/app/mapper.go:725-812 | which reports take effect and what they change, other jobs untouched |
| `MapperSessions.ZeroIsNotFenced` | server/internal/app/mapper.go:725-734 | the methods alone do not fence number zero: it passes for a job without a session, and creates the job |
| `MapperSessions.DeletedJobReturns` | server/internal/app/mapper.go:647-734 | a job deleted between start and first session comes back nameless |
| `MapperSessions.ComesBackExactly` | server/internal/app/mapper.go:577-812 | over every run without saving it, a missing job comes back exactly when a report other than a batch carries the number then on record for it |
| `MapperSessions.DeletedStaysDeleted` | server/internal/app/mapper.go:647-812 | when sessions are begun only for existing jobs and reports carry a number, no report ever creates a job, so a deleted one stays deleted |
| `MapperSessions.AfterAllKeeps` | server/internal/app/mapper.go:597-812 | sessions on record were issued, and a running or stopping job has one |
| `MapperSessions.SessionCounts` | server/internal/app/mapper.go:708-795 | while a session goes on, whatever other jobs and old sessions report, its job counts exactly its checks and the passes reported under the session, from none at its begin |
| `MapperSessions.MapperManager.SaveJob` | server/internal/app/mapper.go:597-645 | accepted exactly when written and the job is not running: then idle with fresh progress; otherwise nothing changes |
| `MapperSessions.MapperManager.DeleteJob` | server/internal/app/mapper.go:647-674 | refused for a missing, running or stopping job; otherwise job and session are gone |
| `MapperSessions.MapperManager.SetJobError` | server/internal/app/mapper.go:686-697 | the error state, for an existing job only |
| `MapperSessions.MapperManager.MarkJobStopping` | server/internal/app/mapper.go:699-706 | only a running job becomes stopping |
| `MapperSessions.MapperManager.BeginJobSession` | server/internal/app/mapper.go:708-723 | a number above every one on record, now that of the job, which runs without an error and has done nothing yet: every field of its progress |
| `MapperSessions.MapperManager.SetJobPhase` | server/internal/app/mapper.go:725-734 | mode and end of the phase, under the fence |
| `MapperSessions.MapperManager.UpdateJobTuning` | server/internal/app/mapper.go:577-585 | the tuning, under the fence |
| `MapperSessions.MapperManager.BeginJobBatch` | server/internal/app/mapper.go:736-781 | under the fence and for an existing job: what is shown of the batch, when the pass began, and when it is to end, by the time to listen for or by the mean time of the batches done, cut off toward zero; nothing else changes |
| `MapperSessions.MapperManager.CompleteJobPass` | server/internal/app/mapper.go:787-795 | one more pass, under the fence |
| `MapperSessions.MapperManager.EndJobSession` | server/internal/app/mapper.go:797-812 | idle, and the session is off the record, under the fence |
| `MapperSessions.MapperManager.BeginSession` | server/internal/app/mapper.go:814-822 | the survey draws from the same counter |
| `MapperSessions.MapperManager.ObserveJob` | server/internal/app/mapper.go:976-993 | counts checks of a job without any session |
| `Relay.RadioRelay.Run` | server/internal/app/radio_relay.go:54-94 | one call under every failure: a successful key-up is followed by a release, active is reset, and each of the six results is returned exactly in its case |
| `Relay.RelaySafety` | server/internal/app/radio_relay.go:54-94 | any number of calls: one at a time past the check, every key-up answered by the same call's release before any other driver call and before its return; an idle relay's line is up exactly when some call raised it and nothing lowered it since, and then the last driver call reported failure |
| `Relay.UpExactly` | server/internal/app/radio_relay.go:72-75 | the line after any driver calls, from the calls alone |
| `Relay.ReleaseCanFail` | server/internal/app/radio_relay.go:75-75 | a run in which the release fails and the line stays up after the return |
| `Relay.FailedKeyCanStick` | server/internal/app/radio_relay.go:72-75 | a run in which the key-up raises the line but reports failure, and is never released |
| `Relay.UpMeansActive` | server/internal/app/radio_relay.go:54-94 | if no failing driver call leaves the line up, a line that is up means an active call |
| `Relay.CallGoesOn` | server/internal/app/radio_relay.go:54-94 | a call can go on wherever it stands, whatever the driver answers and whether or not it is cancelled |
| `Relay.StepBringsNearer` | server/internal/app/radio_relay.go:54-94 | and each step brings its call nearer to the return, so every call returns, and moves no other |
| `Relay.OneReleaseEach` | server/internal/app/radio_relay.go:54-94 | as many releases as key-ups, but for the one in progress |
| `Tuning.AdaptiveTuning.constructor` | server/internal/app/mapper_tuning.go:31-70 | the gains and the amplifier a controller starts with, for every kind, mode and calibration; those of an automatic HackRF are accepted by the hardware exactly when the calibration holds such gains |
| `Tuning.AdaptiveTuning.Apply` | server/internal/app/mapper_tuning.go:72-109 | which capture settings each mode and receiver overrides |
| `Tuning.AdaptiveTuning.Observe` | server/internal/app/mapper_tuning.go:111-130 | only an automatic HackRF or RTL controller changes anything |
| `Tuning.AdaptiveTuning.AdjustRTL` | server/internal/app/mapper_tuning.go:138-185 | the two ladder searches and the quiet count: with any gain, an overload goes one rung below the highest reached, and the second quiet capture to the lowest not reached |
| `Tuning.AdaptiveTuning.AdjustHackRF` | server/internal/app/mapper_tuning.go:187-246 | in decibels and stages: at an overload the amplifier, else the VGA, else the LNA gives way, and after two quiet captures the amplifier, else the LNA while it is not far above the VGA, else the VGA is raised |
| `Tuning.RunObeys` | server/internal/app/mapper_tuning.go:187-246 | every capture of a run obeys that law |
| `Tuning.OnlyRunObeys` | server/internal/app/mapper_tuning.go:187-246 | and any trail of gains that obeys it at every capture ends where the run does |
| `Tuning.RtlObeys` | server/internal/app/mapper_tuning.go:138-185 | the law for the RTL ladder |
| `Tuning.AdaptiveTuning.ObserveAll` | server/internal/app/mapper_tuning.go:187-246 | a run of captures stays within valid gains |
| `Tuning.RunStaysValid` | server/internal/app/mapper_tuning.go:187-246 | LNA a multiple of 8 in 0..40, VGA even in 0..62, and a fixed amplifier untouched, over every run |
| `Tuning.OverloadConverges` | server/internal/app/mapper_tuning.go:187-206 | sustained overload takes exactly one step off per capture, down to amplifier off, LNA 0, VGA below 4 |
| `Tuning.QuietConverges` | server/internal/app/mapper_tuning.go:207-246 | sustained quiet adds exactly one step per two captures, up to amplifier on, LNA 40, VGA 62 |
| `Tuning.RaiseNeedsTwoQuiet` | server/internal/app/mapper_tuning.go:216-228 | a HackRF gain goes up only after two consecutive quiet captures |
| `Tuning.RtlStaysOnLadder` | server/internal/app/mapper_tuning.go:132-185 | the RTL gain never leaves its ladder and moves one rung at a time |
| `Tuning.RtlRaiseExactly` | server/internal/app/mapper_tuning.go:138-185 | the RTL gain goes up exactly at a quiet capture before which the captures that were no overload end in an odd number of quiet ones |
| `Tuning.RtlForgetsOverload` | server/internal/app/mapper_tuning.go:138-185 | an overload between two quiet captures does not restart the RTL count: the rung taken off is given back at once |

## Left out

- Rounding and NaN: floats are reals; `Atan2`, `Cos`, `Sin`, `Exp` and `Hypot` are parameters with the laws used.
- The level telemetry of a demodulated read (signal, noise and peak power): it depends on how a stream is cut.
- JSON syntax and the scanner's line limit; the codec is a parameter.
- Store.EventStore.Reopen: does not model a base journal that does not exist, because every start creates it; the source then starts empty without reading the updates.
- Failing reads, writes and renames, other than an append that a crash cuts short; a crash inside the repair or the rewriting of a journal at a start; whether Mapper jobs could be written is an input.
- File names, hashing and metadata parsing in media recovery: functions and facts given with each recording (the duration of a WAV file among them is `Wav.HeaderSeconds` of its bytes); errors of the directory walk.
- Store.EventStore.ReconcileMedia: does not claim that a second pass keeps `MediaIssues`, because each pass clears and refills that field; identifiers are unique before it, which `StoreRuns.Run` shows for every run, and the text cleaners are idempotent. The report's counters of cleaned texts and recovered analysis states are not part of this model.
- Mapper targets: labels, dwell times and the demodulation mode; lower-casing is a parameter, and so is the clock behind the age filter.
- Search index, signal aggregates, profiles and the other lists kept in `store.go`.
- A sample rate limit that is not a whole number; gain and PPM fields of a capture specification.
- Channel identifiers as UTF-8 text: they are bytes; playing the frames, reconnecting, and the checker's duration, power and peak.
- WAV files of other encodings: the reader refuses them, as the model does.
- Deferred: events deleted or edited by others during a run, failing status writes, the log, the choice of concurrency, and clock-driven waits, which may end at any moment; sorting equal start times is one of the orders the unstable sort allows.
- Deferred: a run without Stop need not end, for captures may arrive for ever; each of its waves does.
- Relay: a driver call either does what it was asked or leaves the line as it was, also when it fails. Also left out: a call without an audio callback, which is refused before anything else; the limits on key delay and transmit time, which are outcomes.
- AudioHub: samples are copied before publication, so a value model loses no aliasing.
- Sessions: validating a job's settings, and the name and identifier given to a new one; the counter is unbounded where the source has 64 bits; persistence after the lock is released; the progress of the older single survey.
- `SaveJob` replacing a job that is being stopped: the code allows it, and fencing does not depend on it.
- Tuning: decision texts, noise margin, and measuring levels from samples; `server/internal/app/capture.go:88-91` replaces a VGA gain of 0 before the tool is called, which is not part of this model.
- Receivers, USB, HTTP routing, installers, decoders, transcription, the display and the Swift shell: input and output without an invariant of their own.
- Lookup tables, band plans, CSV export and decoder text parsing would only add easy members.
