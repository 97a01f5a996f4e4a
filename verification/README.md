# Noite: a verified model of its protocols and state machines

This project models the parts of Noite whose correctness does not follow from reading one function:
the admission protocol of its sandboxes, the edge limiter and route table, the shared database setup,
and four loop-heavy transformations. It is written in Dafny 4.11; `dafny verify dfyconfig.toml`
checks all of it. `Options`, `Numbers`, `Collections` and `Strings` hold what the components share.

Code that changes fields is a class whose methods are proved against a function of the old state; the
function is then the step of a state machine, and the main results are about every run of it.

**Sandbox admission** (`Receipts`, `KeepSet`, `Admission*`, `Sandbox*`, `ActivityGuard`). A controller
cell records a lease, reserves capacity at one fleet-wide admission cell, and releases it when it stops.
Every operation of the admission cell is a list of storage writes, and a step runs one operation and
lets its isolate die after any number of them. The world of `SandboxProtocol` puts any number of cells
beside it: calls can be sent, time out and still execute later, and each side can die between any two
puts. `SandboxAlarms` asks whether held capacity is watched; `SandboxFull` has runs that fill the fleet and
give back what a stop releases, `SandboxTails` runs in which the last awaits of a stop take too much.
`ActivityGuard` counts what keeps a container from being reaped.

**Edge** (`EdgeLimiter*`, `EdgeWindows`, `EdgeTable`, `EdgePush`, `EdgeState`, `EdgeSweeps`). A sliding-window
log against the full history, sweeps and pushes a client cannot observe, a longest-suffix loop that is a map
lookup, and table pushes that converge and keep the prober and the limiter in step.

**Database setup** (`DbSetup`). Callers share one pass; a waiter whose wait ran out replaces it.

**Transformations** (`Blanking*`, `StreamSource`, `StreamHub`, `IsrKeys`, `IsrPurge`, `Envelope`). The
source-blanking lexers, the multiplexed event stream, the paged cache purge and its key codec, and the
byte-counted envelope scan.

## What the model takes for granted

- A storage put is atomic; one that throws has no effect and ends the call, as the death of its isolate
  would. What runs in one `#serialize` or `#serializeStart` turn, or under a Go mutex, is one operation,
  with crash points between its puts.
- The container base class, which is not part of this model, starts a container only after `beforeStart`
  resolves and then calls `afterStart`; `container.destroy()` leaves `running` false. No container of a
  cell comes up while a start of the same cell waits for its stop. No stop of a cell, its last awaits
  included, overlaps the round trip of its own `afterStart`, which writes back the lease it read before it.
- A fired alarm is off the schedule, and its handler is run again until it returns; one handler is under
  way at a time.
- The clock of a cell never goes back; a generation is never minted twice; the cap of a run is fixed.
- In the world of `SandboxProtocol` a reserve executes only while the receipt of its generation, if there
  is one, is inside retention: under 24 hours old and with fewer than 4096 other receipts at or after it.
  `AdmissionFencing.ForgottenIsAdmitted` shows why nothing weaker will do.
- Operations of one cell may interleave at every await. A runtime that holds back other work of an object
  while its storage is busy has fewer runs; what is proved of all runs holds of those.
- Clock readings reach the limiter's lock in nondecreasing order; Go takes them before the lock.
- Timers do not fire early, and a setup pass is failed on time.
- Event-source hooks do not call back into the hub, and a closed source delivers nothing more.
- A key-value listing answers in one total order, holds at least one key unless none is left, and
  continues after the key where it stopped. Page sizes and failures are free.
- A `char` is one byte in Go text and one Unicode scalar value in an envelope. In TypeScript text it
  stands for one UTF-16 code unit, but it is never half of a surrogate pair: the results about such text
  hold of text in the basic plane, and other characters count once where the code counts them twice.
  Lower-casing is the ASCII one, and so is the white space that makes a text blank: Go also trims U+0085,
  U+00A0 and other Unicode spaces.

## Where the code differs from what is said about it

- apps/void-sandbox/src/controller.ts (lines 566-573) says that a queued start cleanly supersedes the one
  before it. It does but for the tail of a stop, between the delete of the lease and that of the alarm: a
  start that comes in there finds no lease and reserves, and a next one that joins the stop goes on as soon
  as it ends and mints over the lease. `SandboxProtocol.OrphansExactly` says that a mint while the entry is
  there is the one event that orphans it; `StrandedExactly` and `OverwritingWasStranded`, that a mint over a
  lease comes about in this way only; `SandboxTails.JoinedTailOrphans` is such a run. The theorems about
  the lease of a cell are for runs in which no start of that cell mints over a lease.
- The same tail deletes the alarm of the start that came in: `SandboxAlarms.EventKeepsArmed` says exactly
  when, `SandboxTails.TailTakesTheAlarm` is a run.
- apps/void-sandbox/src/admission.ts (lines 318-322) gives the alarm to stops torn between mark and receipt.
  One torn right after its mark, with no alarm pending, has none: `AdmissionAlarms.WatchFailsExactly`, with
  `DeathAtMarkIsUnwatched` as the run (a reserve, and a stop that dies after one put).
- edge/limit.go (lines 86-88) calls the returned time how long to wait. It is long enough unless the rate of
  the zone fell: `EdgeLimiter.RetryIsLeastSufficient` has the exact condition, `RetryFallsShort` an input
  (hits at 0 and 5 seconds at 12 a minute, a denial at 6 seconds at 6 a minute).
- docker/check-tests.ts keeps positions but not always the length: the text grows by one blank exactly when
  its last literal never closes and ends in an unpaired backslash, by `PositionsSurvive` of `BlankingTs`
  and `BlankingRust`. `LengthMayGrow` has an input, a quote and a backslash.
- Comments in docker/check-tests.ts (lines 217-220) say a wrong guess about a slash blanks at most to the
  end of its line. `BlankingTs.RegexStaysOnItsLine` says exactly when it goes further: a backslash escapes
  the newline, no slash closes the literal before it, and one does after it. `EscapedNewlineIsCrossed` is
  an input.
- apps/void-proxy/src/isr-keys.ts (lines 136-140) calls the canonical path free of any trailing slash. It
  keeps one exactly when the path ends in two: `IsrKeys.CanonicalIsStripped`, with `/a//` as an input.
- Path mode of the purge can miss keys built for the requested path: `IsrPurge.OwnKeyIsDoomedExactly`,
  with `TwoSlashesAreMissed` as an input (the path `//`).
- On a hidden page the hub's subscribers are told "connecting" when the connection stands at "closed",
  because the first report runs before `dispose` is assigned: `StreamHub.SettleReopensOnChange`, with
  `HiddenPageIsMistold` as the run (one panel subscribes on a hidden page, the set settles).
- After the last edge instance is released, a re-push of the same generation does not restart the probers:
  `EdgePush.ProbedIsFleetUnlessStopped` and `RepushDoesNotRestartProbers`.
- The limiter's ten seconds exclude their older edge. With both edges counted a window holds up to twice
  the budget, and does so at every rate: `EdgeWindows` has the bounds, the runs that reach them, and when
  exactly a call overfills it.

## Model

| member | source | states |
|---|---|---|
| `Receipts.RecordTracks` | apps/void-sandbox/src/admission.ts:155-166 | recording a completion keeps the pruned log in step with the full history: stored receipts are truthful, whatever is gone is too old or crowded out, and nothing older survives something newer |
| `Receipts.RecordFacts` | apps/void-sandbox/src/admission.ts:155-166 | one record keeps the new receipt, stays sorted and within 4096, and drops only what is old or the oldest of a full log |
| `Receipts.RetainedIsFound` | apps/void-sandbox/src/admission.ts:151-153 | a receipt under 24 h old with fewer than 4096 others at or after it is found |
| `Receipts.CrowdedOutIsForgotten` | apps/void-sandbox/src/admission.ts:136-149 | past the bound (too old, or 4096 strictly newer) it is never found: the bound is sharp up to equal times |
| `Receipts.StoredIsNotCrowded` | apps/void-sandbox/src/admission.ts:143-149 | a stored receipt has fewer than 4096 strictly newer ones in the whole history |
| `Receipts.SortIsStable` | apps/void-sandbox/src/admission.ts:143-147 | the sort keeps what it is given, and receipts of one instant in the order they had |
| `KeepSet.RankIsIndexOf` | apps/void-sandbox/src/admission.ts:89-90 | the number of lower ids is the index in the sorted listing |
| `KeepSet.KeepsTheLowest` | apps/void-sandbox/src/admission.ts:85-90 | the ids inside the limit are exactly the min(cap, n) lowest ones |
| `KeepSet.FreshFits` | apps/void-sandbox/src/admission.ts:199-206 | an id admitted below the cap leaves every id inside the limit |
| `KeepSet.ReleaseKeeps` | apps/void-sandbox/src/admission.ts:89-90 | releasing ids never pushes a kept one out |
| `KeepSet.SurvivorsOnlyStop` | apps/void-sandbox/src/admission.ts:85-90 | over any run of releases, a survivor of a cap shrink leaves the kept set only by being released |
| `Strings.BeforeIsLexicographic` | apps/void-sandbox/src/admission.ts:89-89 | the order of the listing is the lexicographic one by code unit |
| `AdmissionRuns.StepKeepsInv` | apps/void-sandbox/src/admission.ts:168-348 | any operation cut after any number of its puts keeps the invariant: receipts in step, and no retained receipt for a live entry |
| `AdmissionRuns.StopEffect` | apps/void-sandbox/src/admission.ts:283-316 | the store after each prefix of a stop's puts: mark, receipt, release, in that order |
| `AdmissionRuns.AlarmEffect` | apps/void-sandbox/src/admission.ts:323-348 | a cut alarm releases nothing before every torn stop has its receipt, and counts as handled only past the release |
| `AdmissionFencing.RunKeepsInv` | apps/void-sandbox/src/admission.ts:96-348 | the invariant holds in every state of every run from empty storage |
| `AdmissionFencing.EntryFate` | apps/void-sandbox/src/admission.ts:168-348 | what any cut operation may do to any entry: generation and stop mark never change, and it leaves only with its receipt |
| `AdmissionFencing.EntryOrigin` | apps/void-sandbox/src/admission.ts:194-206 | an entry appears only by the reserve of its pair, below the cap and without a receipt |
| `AdmissionFencing.EntriesStayUnderTheCaps` | apps/void-sandbox/src/admission.ts:168-206 | whatever cap each reserve reads, a run never takes the entries past both what it began with and the largest of those caps |
| `AdmissionFencing.ReceiptOrigin` | apps/void-sandbox/src/admission.ts:283-348 | a receipt appears only by the stop of its pair or the alarm finishing a torn one |
| `AdmissionFencing.NoEntryVanishesUnrecorded` | apps/void-sandbox/src/admission.ts:309-314 | no entry disappears before its receipt is written |
| `AdmissionFencing.OtherGenerationIsUndisturbed` | apps/void-sandbox/src/admission.ts:294-299 | a stop naming another generation or an unknown id leaves every entry as it is |
| `AdmissionFencing.FencedForever` | apps/void-sandbox/src/admission.ts:277-316 | a marked or recorded pair stays so for the rest of the run |
| `AdmissionFencing.FencedIsRefused` | apps/void-sandbox/src/admission.ts:181-197 | a fenced pair gets no ok from reserve, started or heartbeat, and none of them writes |
| `AdmissionFencing.FencingSurvivesCrashes` | apps/void-sandbox/src/admission.ts:168-316 | from the mark or a returned stop on, wherever isolates die, no later call of that pair answers ok while its receipt is retained |
| `AdmissionFencing.ForgottenIsAdmitted` | apps/void-sandbox/src/admission.ts:194-206 | past retention the fence is gone: a free id below the cap is admitted again |
| `AdmissionFencing.StopReturnsFenced` | apps/void-sandbox/src/admission.ts:283-316 | a stop that returns has the receipt stored and the entry gone, found or not |
| `AdmissionFencing.TornStopsConverge` | apps/void-sandbox/src/admission.ts:283-348 | after a crash anywhere past the mark, either the alarm or the same stop finishes it: entry gone, receipt recorded, every other unstopped entry as it was |
| `AdmissionAlarms.WatchFailsExactly` | apps/void-sandbox/src/admission.ts:301-308 | a torn entry is left without a pending alarm in exactly one case: the isolate of a stop dies right after its mark while none is pending |
| `AdmissionAlarms.DeathAtMarkIsUnwatched` | apps/void-sandbox/src/admission.ts:301-308 | a run of two operations, for every pair, that ends with a marked entry and no alarm |
| `AdmissionAlarms.RunKeepsWatch` | apps/void-sandbox/src/admission.ts:129-133 | a run without such a death keeps an alarm behind every torn entry |
| `AdmissionAlarms.EnsuredIsWatched` | apps/void-sandbox/src/admission.ts:308-308 | a stop past `#ensureAlarm` leaves an alarm behind every torn entry, whatever it found: the one set, or one due a minute later |
| `AdmissionAlarms.PendingAlarmFinishes` | apps/void-sandbox/src/admission.ts:318-348 | a pending alarm, once due, fires and its handler leaves no torn entry |
| `AdmissionVerdicts.VerdictOf` | apps/void-sandbox/src/admission.ts:168-275 | the answer of every reserve, started and heartbeat, for any id, generation and cap: a live pair hears ok exactly when its id is among the min(cap, n) lowest, any other only from a reserve with a free id, no receipt of the last day and room |
| `AdmissionVerdicts.StoppedIsRefusedForADay` | apps/void-sandbox/src/admission.ts:136-153 | a pair stopped within a day, with fewer than 4096 others stopped at or after it, is refused |
| `AdmissionVerdicts.AdmittedLeaves` | apps/void-sandbox/src/admission.ts:168-246 | an admitted reserve leaves a reserved entry, a first started the entry running since its reading, anything else nothing new |
| `AdmissionVerdicts.DeniedLeavesAll` | apps/void-sandbox/src/admission.ts:168-275 | a denied call writes nothing |
| `AdmissionVerdicts.KeptUntilStopped` | apps/void-sandbox/src/admission.ts:85-90 | under a lowered cap an id that hears ok goes on to while its entry stands, whatever the others do |
| `AdmissionVerdicts.HearingChangesByStopsOnly` | apps/void-sandbox/src/admission.ts:85-90 | over a stretch of a run without a stop or an alarm exactly the same ids hear ok, those newly admitted below the cap apart |
| `AdmissionVerdicts.LowerIdIsKept` | apps/void-sandbox/src/admission.ts:248-275 | with two live entries and a cap of one the lower id hears ok and the higher one concurrency |
| `AdmissionCell.CallIsAStep` | apps/void-sandbox/src/admission.ts:168-348 | what the class leaves in storage is a step of the runs, cut where its isolate died |
| `AdmissionCell.NoiteSandboxAdmission.Put` | apps/void-sandbox/src/admission.ts:120-123 | one atomic put, or the isolate is gone before it |
| `AdmissionCell.NoiteSandboxAdmission.RecordCompletion` | apps/void-sandbox/src/admission.ts:155-166 | puts the log with the receipt, pruned |
| `AdmissionCell.NoiteSandboxAdmission.EnsureAlarm` | apps/void-sandbox/src/admission.ts:129-133 | sets an alarm exactly when none is set |
| `AdmissionCell.NoiteSandboxAdmission.Reserve` | apps/void-sandbox/src/admission.ts:168-208 | the writes and the answer are those of the specification, with the cache in step |
| `AdmissionCell.NoiteSandboxAdmission.Started` | apps/void-sandbox/src/admission.ts:210-246 | the writes and the answer are those of the specification |
| `AdmissionCell.NoiteSandboxAdmission.Heartbeat` | apps/void-sandbox/src/admission.ts:248-275 | answers as specified and writes nothing |
| `AdmissionCell.NoiteSandboxAdmission.Stopped` | apps/void-sandbox/src/admission.ts:283-316 | mark, alarm, receipt, release in this order, up to where the isolate dies |
| `AdmissionCell.NoiteSandboxAdmission.Alarm` | apps/void-sandbox/src/admission.ts:323-348 | the loop writes a receipt for each torn stop, then releases them all in one put; only then is the fired alarm handled |
| `SandboxProtocol.EventKeepsInv` | apps/void-sandbox/src/controller.ts:553-749 | every event of any cell and of admission, every late call and every crash keeps the invariant of a cell, except a mint over that cell's own lease |
| `SandboxProtocol.OrphansExactly` | apps/void-sandbox/src/controller.ts:609-613 | one event orphans the entry of a cell in exactly one case: a start of the cell mints while the entry is there |
| `SandboxProtocol.StrandedExactly` | apps/void-sandbox/src/controller.ts:596-611 | a start gets past its stop with a lease in place by exactly one event: the stop it waits for deletes its alarm while a lease minted meanwhile is there |
| `SandboxProtocol.OverwritingWasStranded` | apps/void-sandbox/src/controller.ts:596-611 | in any run a mint over a lease comes after such an event of the same cell |
| `SandboxProtocol.StrandedGoesOn` | apps/void-sandbox/src/controller.ts:596-602 | the waiting start then goes on with the lease in place |
| `SandboxProtocol.RunKeepsInv` | apps/void-sandbox/src/controller.ts:553-749 | the invariant of a cell holds in every world of a run up to a mint over that cell's lease, whatever the others do |
| `SandboxProtocol.NoOrphanedReservation` | apps/void-sandbox/src/controller.ts:583-615 | the admission entry of a cell whose starts have minted over no lease carries exactly the generation of its durable lease, in every run and whatever the other cells do |
| `SandboxTails.JoinedTailOrphans` | apps/void-sandbox/src/controller.ts:566-614 | a run from empty storage, for any id and generations, in which a start joins the tail of a stop, is stranded, and mints over the lease of the start before it: its entry is nobody's |
| `SandboxProtocol.ClearedHasNoLease` | apps/void-sandbox/src/controller.ts:596-611 | a start of a cell none of whose starts was stranded goes on past its stop only without a lease, so the mint overwrites none |
| `SandboxProtocol.WriteBackIsOwn` | apps/void-sandbox/src/controller.ts:628-633 | in a cell whose starts have minted over no lease an admitted `started` writes back the very lease that is there, not yet stopped |
| `SandboxProtocol.FreshReserveNeedsOnlyRoom` | apps/void-sandbox/src/controller.ts:609-614 | a reserve for the generation such a cell has freshly minted is refused exactly when the fleet is full, never for a leftover generation |
| `SandboxProtocol.FleetWideCap` | apps/void-sandbox/src/admission.ts:168-246 | the entries stay under the cap in any run; of any cells whose starts have minted over no lease, each running lease has its unstopped entry, so at most cap of them run |
| `SandboxProtocol.CapHoldsAlways` | apps/void-sandbox/src/admission.ts:168-246 | in any run at all the entries stay under the cap and the admission cell keeps its own invariant |
| `SandboxFull.FleetFills` | apps/void-sandbox/src/controller.ts:583-634 | for any cells and any of them as many as the cap, a run from empty storage ends with exactly these running, each with its unstopped running entry, and the fleet full |
| `SandboxFull.StopGivesBack` | apps/void-sandbox/src/controller.ts:663-702 | from the full fleet a run of one stop ends with that cell as it began, its entry gone and its receipt on record, the others as they were, and room for any other cell |
| `SandboxAlarms.EventKeepsArmed` | apps/void-sandbox/src/controller.ts:549-749 | one event of any cell takes the alarm from a lease whose reserve is sent or about to be in exactly one case: a stop of its cell deletes it under the lease of a start that came in between, with no handler about to set it again |
| `SandboxAlarms.ExposedBefore` | apps/void-sandbox/src/controller.ts:609-613 | a lease whose reserve is sent or about to be became so by its own start arming the alarm |
| `SandboxAlarms.EventKeepsAsked` | apps/void-sandbox/src/controller.ts:553-563 | whatever the cells do, every admission entry comes from a reserve its cell sent |
| `SandboxAlarms.RunKeepsArmed` | apps/void-sandbox/src/controller.ts:549-749 | a cell whose starts mint over no lease and whose stops take no such alarm keeps one behind every such lease, whatever the other cells do |
| `SandboxAlarms.HeldIsArmed` | apps/void-sandbox/src/controller.ts:583-749 | under these conditions on its own starts and stops a cell with an admission entry has its alarm set, or a handler still to set it |
| `SandboxTails.TailTakesTheAlarm` | apps/void-sandbox/src/controller.ts:684-690 | a run from empty storage, for any id and generations, that ends with a held entry and no alarm |
| `SandboxController.OthersLeaveCell` | apps/void-sandbox/src/controller.ts:553-702 | an event of another cell or of the admission cell leaves a cell as it is |
| `SandboxController.Controller.BeforeStart` | apps/void-sandbox/src/controller.ts:583-602 | a live running lease only heartbeats; any other start is an enabled `BeginStart` of every world the object stands in |
| `SandboxController.Controller.AfterClearing` | apps/void-sandbox/src/controller.ts:601-607 | past its stop the start is an enabled `Cleared`, and a live container goes |
| `SandboxController.Controller.MintLease` | apps/void-sandbox/src/controller.ts:609-611 | with a new generation it is an enabled `Mint`: the pending lease is durable before its alarm and its reserve |
| `SandboxController.Controller.ArmForStart` | apps/void-sandbox/src/controller.ts:612-612 | an enabled `ArmStart`: the alarm is set before the reserve is sent |
| `SandboxController.Controller.AskReserve` | apps/void-sandbox/src/controller.ts:613-613 | an enabled `SendReserve`; the request is the call the world records |
| `SandboxController.Controller.StartEnded` | apps/void-sandbox/src/controller.ts:613-614 | the end of a start is an enabled `EndStart` |
| `SandboxController.Controller.AfterStart` | apps/void-sandbox/src/controller.ts:617-629 | refuses without a live lease and container; a pending lease makes an enabled `BeginConfirm` with that request |
| `SandboxController.Controller.Confirmed` | apps/void-sandbox/src/controller.ts:629-633 | on an admitted answer to a call for the lease read before it, an enabled `PutRunning`: that lease is written back as running |
| `SandboxController.Controller.Unconfirmed` | apps/void-sandbox/src/controller.ts:557-563 | a denial or a timeout is an enabled `EndConfirm` |
| `SandboxController.Controller.Stopped` | apps/void-sandbox/src/controller.ts:663-677 | one stop at a time, only of a stopped container with a lease: an enabled `BeginStop` |
| `SandboxController.Controller.PutStopped` | apps/void-sandbox/src/controller.ts:679-682 | an enabled `MarkStopped`: the stopped lease is durable before the release is asked |
| `SandboxController.Controller.ArmForStop` | apps/void-sandbox/src/controller.ts:683-683 | an enabled `ArmStop`: the alarm is set before the release is asked |
| `SandboxController.Controller.AskRelease` | apps/void-sandbox/src/controller.ts:684-686 | an enabled `SendStopped` for the generation read |
| `SandboxController.Controller.ReleaseAnswered` | apps/void-sandbox/src/controller.ts:684-686 | an answer in time is an enabled `StopAnswered` |
| `SandboxController.Controller.DropLease` | apps/void-sandbox/src/controller.ts:687-687 | only then an enabled `DeleteLease` |
| `SandboxController.Controller.DropAlarm` | apps/void-sandbox/src/controller.ts:690-701 | the last step is an enabled `DeleteAlarm`, which lets a waiting start go on |
| `SandboxController.Controller.ReleaseFailed` | apps/void-sandbox/src/controller.ts:693-701 | a release that timed out is an enabled `EndStop`; the stopped lease stays |
| `SandboxController.Controller.ArmAgain` | apps/void-sandbox/src/controller.ts:637-637 | the `#arm` after a start is an enabled `Arm` |
| `SandboxController.Controller.Alarm` | apps/void-sandbox/src/controller.ts:704-704 | the alarm that fires is off the schedule: an enabled `AlarmFires` |
| `SandboxController.Controller.AlarmChecked` | apps/void-sandbox/src/controller.ts:744-745 | the handler looks for a lease: an enabled `AlarmReads`, and it arms again exactly when there is one |
| `SandboxController.Controller.AlarmRearmed` | apps/void-sandbox/src/controller.ts:746-746 | an enabled `AlarmArms` |
| `SandboxController.Controller.AlarmReturned` | apps/void-sandbox/src/controller.ts:747-749 | an enabled `AlarmReturns` |
| `SandboxController.Controller.Restart` | apps/void-sandbox/src/controller.ts:583-749 | the death of the isolate is an enabled `Crash`: the lease, the container and the alarm outlive it, and a fired handler starts over |
| `ActivityGuard.EventCounts` | apps/void-sandbox/src/controller.ts:262-289 | each event moves `#busy` exactly as it moves the unfinished guards |
| `ActivityGuard.GuardsBalance` | apps/void-sandbox/src/controller.ts:262-448 | `#busy` is the number of unfinished guards, so the idle test never passes while a use is outstanding |
| `ActivityGuard.BusyIsOpenedLessOver` | apps/void-sandbox/src/controller.ts:262-289 | `#busy` is the guards opened less those whose first touch threw or whose last one was made, threw or was skipped, counted over the events |
| `ActivityGuard.OneStream` | apps/void-sandbox/src/controller.ts:330-368 | a run of one guard from its opening to its end, with a repeated end of its body |
| `ActivityGuard.RepeatedFinishIsNothing` | apps/void-sandbox/src/controller.ts:272-280 | a second finish of a guard changes nothing |
| `ActivityGuard.Guards.Begun` | apps/void-sandbox/src/controller.ts:265-270 | a touch that throws takes its count back |
| `ActivityGuard.Guards.Finished` | apps/void-sandbox/src/controller.ts:281-288 | the count goes down whether or not the last touch throws |
| `ActivityGuard.Guards.MayReap` | apps/void-sandbox/src/controller.ts:723-727 | the alarm reaps only when every guard is closed |
| `EdgeLimiter.BudgetIsCeiling` | edge/limit.go:50-58 | the budget is max(1, ceil(rpm/6)) up to the exact rate where the uint32 sum wraps |
| `EdgeLimiter.PrunedLogRefines` | edge/limit.go:89-132 | at whatever rate each call finds, it is allowed exactly when fewer than budget(rpm) of all earlier allowed ones lie in the last ten seconds |
| `EdgeLimiter.WindowsAreBounded` | edge/limit.go:89-132 | no ten-second window, older edge excluded, holds more allowed events than the largest budget of its key's calls |
| `EdgeWindows.ClosedWindowsAreBounded` | edge/limit.go:89-132 | with both edges counted a window holds at most twice the largest budget |
| `EdgeWindows.TwiceTheBudgetIsReached` | edge/limit.go:115-131 | at every rate: a full burst and another exactly ten seconds later are all allowed |
| `EdgeWindows.StrictReadingsAddOne` | edge/limit.go:89-132 | with no two readings alike it holds at most one more than the budget |
| `EdgeWindows.OneMoreIsReached` | edge/limit.go:115-131 | and at every rate it can |
| `EdgeWindows.HitOverfillsExactly` | edge/limit.go:115-131 | a call overfills its closed window exactly when that window held the budget with an event on its older edge |
| `EdgeLimiter.RetryIsLeastSufficient` | edge/limit.go:119-128 | every denial names 1 to 10 whole seconds and no fewer would do; they are enough exactly when the stamp one budget from the end has left by then, which it has when no earlier call had a higher budget |
| `EdgeLimiter.RetryFallsShort` | edge/limit.go:119-128 | an input at which the rate fell and the named time is too short |
| `EdgeLimiter.SweepsAreUnobservable` | edge/limit.go:152-167 | over a kept zone that never evicts, answers are the same with or without sweeps |
| `EdgeLimiterPool.SweepKeepsExactly` | edge/limit.go:152-167 | a sweep keeps a zone exactly when it is named, in it a key exactly when it was seen within the idle time, each with its state |
| `EdgeSweeps.ZonesAreNamed` | edge/edge.go:134-155 | a swap hands the sweep exactly the zones its table gives to a route |
| `EdgeSweeps.ZoneIsItsOwnRun` | edge/limit.go:89-132 | a zone every swapped table names runs as if the pool held it alone |
| `EdgeSweeps.PushesAreUnobservable` | edge/edge.go:130-155 | over any traffic the calls on a zone that every pushed table names get the verdicts they would get without the pushes, as long as the zone stays under its key limit |
| `EdgeSweeps.PushKeepsTheLog` | edge/edge.go:130-155 | a key seen in its window keeps its log across a push that names its zone, and a zone the table does not name is gone |
| `EdgeLimiter.KeysAreIndependent` | edge/limit.go:107-114 | a key behaves as if it were alone in its zone, at whatever rate each of its calls finds |
| `EdgeLimiterPool.Search` | edge/limit.go:117-117 | the binary search finds the first stamp past the cutoff |
| `EdgeLimiterPool.Limiter.Allow` | edge/limit.go:89-132 | changes only its own zone, as the specification says, after an eviction if the zone is full |
| `EdgeLimiterPool.Limiter.Count` | edge/limit.go:115-131 | the log and the verdict of one counted call |
| `EdgeLimiterPool.Limiter.Evict` | edge/limit.go:135-148 | drops a quarter of the keys and one more, none seen later than one that stays |
| `EdgeLimiterPool.Limiter.Sweep` | edge/limit.go:152-167 | a name is left exactly when it was there and is kept, in it a key exactly when it was seen recently enough, with its state as it was |
| `EdgeTable.CheckUpstream` | edge/table.go:74-92 | accepts exactly 127.0.0.1 with a decimal port from 1 to 65535, without overflow |
| `EdgeTable.UpstreamsAccepted` | edge/table.go:74-92 | the loopback address with the decimal of 1 to 65535 is accepted, with any other number or in any other form nothing is |
| `EdgeTable.RoutesAccepted` | edge/table.go:130-153 | what a route of each kind may carry, and no other kind |
| `EdgeTable.TablesAccepted` | edge/table.go:103-153 | a table is refused for a blank host, a capital, a suffix that is no dot and name, or a bad route, and for nothing else |
| `EdgeTable.ValidRatesDoNotWrap` | edge/table.go:140-145 | no rate a valid table brings to the limiter wraps its budget |
| `EdgeTable.LookupLoop` | edge/table.go:181-206 | the loop finds the exact entry or the first of the longest matching suffixes |
| `EdgeTable.LookupIsMapLookup` | edge/table.go:181-206 | for a valid table that is the exact entry, else the first wildcard equal to the host from its first dot with a non-empty label before it, else nothing |
| `EdgeTable.HeaderNames` | edge/table.go:155-175 | a Host header in any case, with or without a trailing dot and a port, is looked up under the name in lower case |
| `EdgeTable.HeaderFindsRoute` | edge/table.go:181-206 | such a header finds the exact entry of its name, else the first wildcard for what follows its first label |
| `EdgeTable.OrderDoesNotMatter` | edge/table.go:192-205 | reordering wildcards with distinct suffixes changes no answer |
| `EdgePush.PushesConverge` | edge/edge.go:381-439 | what is installed is the one first arrival of the highest valid generation, and nothing only when no valid table was pushed |
| `EdgePush.AnswerComparesWithAll` | edge/edge.go:389-424 | what a push is told, in terms of every push before it: newer than all, older than some, or neither |
| `EdgePush.TableIsOfPushes` | edge/edge.go:96-155 | without file loads, whatever instances come and go, the installed table is that of the pushes alone |
| `EdgePush.ArrivalOrderDoesNotMatter` | edge/edge.go:389-416 | two arrival orders of the same pushes end at the same table when a generation names one table |
| `EdgePush.GenerationsRise` | edge/edge.go:400-406 | the installed generation never goes back |
| `EdgePush.StaysInStep` | edge/edge.go:84-155 | in every reachable state the prober watches the installed table's awake fleet, or nothing after a full release |
| `EdgePush.FleetIsAwake` | edge/edge.go:136-146 | the fleet is exactly the upstreams of the awake tenant, custom and env routes |
| `EdgePush.RefsCountInstances` | edge/edge.go:84-115 | the count is instances retained less released, and while it is not zero the prober runs |
| `EdgePush.StoppedMeans` | edge/edge.go:103-155 | the flag of the state holds exactly when an event released the last instance while the prober ran and none swapped a table in after it |
| `EdgePush.ProbedIsFleetUnlessStopped` | edge/edge.go:103-155 | with a prober and a table, the probed set is the awake fleet exactly when no release of the last instance with the prober running came after the last swap, or the fleet is empty |
| `EdgePush.RepushDoesNotRestartProbers` | edge/edge.go:407-424 | a run after which a re-push leaves the fleet unprobed |
| `EdgeState.UpstreamState.Set` | edge/ready.go:33-42 | a flip, and only a flip, closes the signal every earlier reader holds |
| `EdgeState.Prober.Track` | edge/ready.go:85-106 | exactly the given upstreams are probed; those that stay keep their record and health, new ones start down, those that leave are cancelled |
| `EdgeState.Prober.Stop` | edge/ready.go:172-179 | every probe is cancelled |
| `EdgeState.SharedState.InitLocked` | edge/edge.go:84-94 | creates the limiter and the prober only on first use |
| `EdgeState.SharedState.Retain` | edge/edge.go:96-101 | one more reference, with a prober |
| `EdgeState.SharedState.Release` | edge/edge.go:103-114 | the last release stops every probe and drops the limiter |
| `EdgeState.SharedState.SwapLocked` | edge/edge.go:130-155 | the prober is left on the awake fleet with kept health records, the limiter on the table's zones |
| `EdgeState.SharedState.Post` | edge/edge.go:381-439 | the reply and the new state of one admin push; a table is installed exactly when the reply says so |
| `EdgeState.Check` | edge/table.go:104-127 | the loops accept exactly the valid tables |
| `EdgeState.Collect` | edge/edge.go:134-152 | the loops collect exactly the zones and the awake fleet |
| `DbSetup.EventKeepsInv` | apps/noite/src/lib/db.ts:468-585 | every event keeps the table's invariant: only the newest pass is stored, and replaced passes are a wait older than any later one |
| `DbSetup.UnsettledAreApart` | apps/noite/src/lib/db.ts:526-585 | a pass still unsettled started at least the least wait before any later pass |
| `DbSetup.UnsettledAreFew` | apps/noite/src/lib/db.ts:417-424 | at most bound / wait + 1 passes are unsettled together |
| `DbSetup.AtMostFour` | apps/noite/src/lib/db.ts:417-424 | with 15000 ms and 5000 ms that is four |
| `DbSetup.BoundIsReached` | apps/noite/src/lib/db.ts:526-585 | the bound is exact: a run reaches it |
| `DbSetup.StoredPassLeaves` | apps/noite/src/lib/db.ts:492-506 | a stored pass leaves the table by its own noticed failure or by an expired waiter with a lifetime, and in no other way; a superseded pass never removes its replacement |
| `DbSetup.FateIsFinal` | apps/noite/src/lib/db.ts:569-583 | a pass out of the table never comes back |
| `DbSetup.ReplacedAtMostOnce` | apps/noite/src/lib/db.ts:562-583 | however many waiters expire on it, a pass is replaced at most once |
| `DbSetup.PromptPassIsNotReplaced` | apps/noite/src/lib/db.ts:541-560 | a pass that settles within the least wait is never replaced |
| `DbSetup.FailuresAreRetried` | apps/noite/src/lib/db.ts:445-451 | no caller is given a failure that was noticed before it arrived |
| `DbSetup.HerdSharesOneReplacement` | apps/noite/src/lib/db.ts:562-573 | any number of expired waiters start one replacement and share it |
| `DbSetup.AnswerHasStory` | apps/noite/src/lib/db.ts:526-585 | every answer comes from its caller's arrival and one later event: at once, by its pass, or by its own wait, with the pass or failure that event gives |
| `DbSetup.FailsFastExactly` | apps/noite/src/lib/db.ts:570-579 | an answered caller is failed fast exactly when it arrived without a lifetime, its wait ran out before its pass settled, and the table then held its own pass or none |
| `DbSetup.ServedAtOnce` | apps/noite/src/lib/db.ts:526-540 | a caller that finds nothing stored, or a pass seen to settle, is given that pass or the one it starts |
| `DbSetup.PromptPassIsShared` | apps/noite/src/lib/db.ts:555-561 | a caller whose pass settled before its wait was over shares that very pass |
| `DbSetup.SecondCallerShares` | apps/noite/src/lib/db.ts:526-561 | a run in which a second caller waits and shares the first one's pass |
| `DbSetup.SetupPasses.StartSetupPass` | apps/noite/src/lib/db.ts:468-507 | stores a new unsettled pass |
| `DbSetup.SetupPasses.RunOnce` | apps/noite/src/lib/db.ts:526-540 | an empty entry starts a pass, a settled one is shared, an unsettled one is waited on |
| `DbSetup.SetupPasses.PassWon` | apps/noite/src/lib/db.ts:555-561 | past a race its pass won the caller is given the pass it waited on |
| `DbSetup.SetupPasses.Expired` | apps/noite/src/lib/db.ts:562-585 | shares a newer pass, fails without a lifetime, else replaces |
| `DbSetup.SetupPasses.OnSettled` | apps/noite/src/lib/db.ts:492-506 | a failure leaves the table only while the table still holds it |
| `BlankingEnds.QuotedEndIsFirstFreeQuote` | docker/check-tests.ts:109-128 | a quoted literal ends at the first quote with an even number of backslashes before it, else at the end, one past it exactly when the last backslash is unpaired |
| `BlankingEnds.ChunkEndIsFirstFreeStop` | docker/check-tests.ts:137-156 | a template chunk ends after the first unescaped backtick or `${` |
| `BlankingEnds.TsBlockEndIsFirstClose` | docker/check-tests.ts:97-107 | a block comment ends right after the first close past its opener, or with the source |
| `BlankingEnds.OverrunsExactly` | docker/check-tests.ts:111-156 | a literal ends one past the source exactly when it never closes and its last backslash is unpaired |
| `BlankingEnds.RustCommentsNest` | docker/check-tests.ts:374-397 | a block comment ends exactly at its own close, whatever comments it nests and whatever follows |
| `BlankingEnds.LineCommentEnd` | docker/check-tests.ts:86-95 | a line comment holds no newline and ends at one or at the end |
| `BlankingEnds.FindQuotedEnd` | docker/check-tests.ts:111-128 | the loop finds the specified end |
| `BlankingEnds.FindTemplateChunk` | docker/check-tests.ts:137-156 | the loop finds the specified end and kind |
| `BlankingEnds.FindRustBlockEnd` | docker/check-tests.ts:376-397 | the depth-counting loop finds the specified end |
| `Blanking.AppendBlank` | docker/check-tests.ts:74-84 | appends the stretch with newlines kept and all else blank |
| `Blanking.CountLine` | docker/check-tests.ts:62-72 | the loop counts the newlines before the index, plus one |
| `Blanking.LineCountsNewlines` | docker/check-tests.ts:62-72 | the line of an index is one more than the newlines before it |
| `Blanking.LinesSurvive` | docker/check-tests.ts:62-72 | every index is on the same line of aligned texts |
| `BlankingTs.DecideRegex` | docker/check-tests.ts:175-215 | the backward loops decide what `RegexMayOpen` says forwards |
| `BlankingTs.SlashIsClassified` | docker/check-tests.ts:158-215 | with white space left out, a slash not followed by an equals sign opens a regex exactly after nothing, an operator or opening bracket, a single plus or minus, or one of the fourteen keywords as a whole word |
| `BlankingTs.SlashDecides` | docker/check-tests.ts:175-215 | so the decision depends on what precedes the slash alone |
| `BlankingTs.FindRegexEnd` | docker/check-tests.ts:217-261 | the loop finds the specified end, or the slash itself when it divides |
| `BlankingTs.RegexEndIsFirstFreeSlash` | docker/check-tests.ts:217-261 | a slash opens a regex exactly when what precedes it allows one and a free slash comes before any free newline; it ends past that slash and its flags |
| `BlankingTs.RegexStaysOnItsLine` | docker/check-tests.ts:217-261 | it passes the first newline exactly when that newline is escaped, no free slash comes before it and the body closes after it |
| `BlankingTs.EscapedNewlineIsCrossed` | docker/check-tests.ts:229-238 | such an input |
| `BlankingTs.ClassSlashIsBody` | docker/check-tests.ts:217-261 | an input with a slash in a class and a flag |
| `BlankingTs.Strip` | docker/check-tests.ts:266-334 | the mode and stack loop computes the specified text |
| `BlankingTs.PositionsSurvive` | docker/check-tests.ts:263-334 | each index holds the original character or a blank, newlines stay, every index keeps its line, and the text grows, by one blank, exactly when the lexer reaches a literal that never closes and ends in an unpaired backslash |
| `BlankingTs.LengthMayGrow` | docker/check-tests.ts:116-127 | the extra blank does appear, and a last backslash outside a literal adds none |
| `BlankingTsGrammar.ExactlyLiteralsGoBlank` | docker/check-tests.ts:263-334 | for source text whose literals close, every string, template text, comment and regex goes blank and all code stays, divisions included, at any depth of `${}` |
| `BlankingTsGrammar.CodeStrips` | docker/check-tests.ts:272-331 | the same in any context, leaving mode and stack as they were |
| `BlankingRustGrammar.ExactlyLiteralsGoBlank` | docker/check-tests.ts:437-491 | for source text whose literals close, every string, raw string, character, byte literal and comment goes blank and all code stays |
| `BlankingRustGrammar.CharLiteralsExactly` | docker/check-tests.ts:338-372 | a character literal is found at a quote exactly when one stands there: one character, or an escape, and the closing quote |
| `BlankingRustGrammar.LifetimesStayCode` | docker/check-tests.ts:437-491 | a lifetime comes out of the lexer unchanged wherever it stands in code |
| `BlankingRust.RawStringsEndAtTheirCloser` | docker/check-tests.ts:399-420 | a raw string ends at its first quote with as many hashes, whatever its body holds |
| `BlankingRust.FindCharLiteralLength` | docker/check-tests.ts:338-372 | the branches compute the specified length |
| `BlankingRust.FindRustRawEnd` | docker/check-tests.ts:401-420 | the loop finds the specified end, or none |
| `BlankingRust.FindRustByteEnd` | docker/check-tests.ts:423-435 | a byte literal ends as its string or character does |
| `BlankingRust.Strip` | docker/check-tests.ts:440-491 | the loop computes the specified text |
| `BlankingRust.PositionsSurvive` | docker/check-tests.ts:437-491 | the same guarantee, with the exact length, as for TypeScript |
| `BlankingRust.LoneBytePrefixGoesBlank` | docker/check-tests.ts:466-469 | an input whose `b` before a lone quote goes blank |
| `StreamSource.EventKeepsInv` | apps/noite/src/lib/feeds.ts:91-178 | every event keeps: one live source at most, none when disposed or hidden, and a source or an armed reopen otherwise |
| `StreamSource.NeverTwoSources` | apps/noite/src/lib/feeds.ts:100-143 | no reachable state has two live sources |
| `StreamSource.NothingAfterDispose` | apps/noite/src/lib/feeds.ts:170-178 | from its disposal on a stream has no live source and opens none |
| `StreamSource.DelayIsBounded` | apps/noite/src/lib/feeds.ts:128-130 | a delay is at least the capped backoff and at most the cap |
| `StreamSource.BackoffNeverShrinks` | apps/noite/src/lib/feeds.ts:128-130 | successive delays never shrink, whatever the jitter |
| `StreamSource.DefaultDelays` | apps/noite/src/lib/feeds.ts:57-58 | with the page's tuning they lie between one and thirty seconds and are thirty from the sixth failure in a row on |
| `StreamSource.AttemptsAreDeaths` | apps/noite/src/lib/feeds.ts:115-130 | the attempts are the deaths since a source last opened |
| `StreamSource.DeathArmsBackoff` | apps/noite/src/lib/feeds.ts:119-137 | a death arms a timer for the base doubled once for each death before it since a source opened, capped, plus the jitter, capped |
| `StreamSource.ReportIsTrue` | apps/noite/src/lib/feeds.ts:100-162 | the last status reported is closed exactly on a hidden page, retrying whenever there is no source, open only with a source and no death since |
| `StreamSource.DeadSourceIsReplaced` | apps/noite/src/lib/feeds.ts:119-137 | a run in which a source dies and its timer opens the next |
| `StreamSource.Connection.OpenIfIdle` | apps/noite/src/lib/feeds.ts:100-114 | opens only when not disposed, not hidden and without a source |
| `StreamSource.Connection.OnError` | apps/noite/src/lib/feeds.ts:119-139 | a dead source arms the next generation's timer |
| `StreamSource.Connection.OnTimer` | apps/noite/src/lib/feeds.ts:133-137 | only the current generation's timer reopens |
| `StreamSource.Connection.OnVisibility` | apps/noite/src/lib/feeds.ts:151-162 | hiding closes, showing reopens |
| `StreamSource.Connection.DisposeNow` | apps/noite/src/lib/feeds.ts:170-178 | disposes for good |
| `StreamHub.ActKeepsInv` | apps/noite/src/lib/feeds.ts:217-366 | every action of subscribers, page, stream and settle keeps the hub's invariant |
| `StreamHub.ConnectionCarriesSubscribed` | apps/noite/src/lib/feeds.ts:281-328 | with no settle pending the url carries exactly the topics with a subscriber, and there is a connection exactly when there is one |
| `StreamHub.FrameReachesItsTopic` | apps/noite/src/lib/feeds.ts:248-279 | a data frame with index i reaches each current subscriber of the url's i-th topic and nobody else |
| `StreamHub.EverySubscriberHasTheLastFrame` | apps/noite/src/lib/feeds.ts:353-355 | every subscriber's newest frame is its topic's last one, late ones included |
| `StreamHub.ToldIsCurrent` | apps/noite/src/lib/feeds.ts:232-246 | subscribers were told where they stand, unless the stream was opened on a hidden page and has had no source |
| `StreamHub.ToldWhereItStands` | apps/noite/src/lib/feeds.ts:232-246 | a subscriber's last status is connecting without a stream, the connection's while that is not open, and its topic's own when it is |
| `StreamHub.MessageMovesItsTopic` | apps/noite/src/lib/feeds.ts:248-279 | a message moves its topic alone, to retrying on `!` and to open on any other |
| `StreamHub.SourceMovesConnection` | apps/noite/src/lib/feeds.ts:316-322 | a source that opens takes every subscriber to its topic's state, one that drops or dies to retrying |
| `StreamHub.FrameArrives` | apps/noite/src/lib/feeds.ts:248-279 | a run in which a panel on a visible page gets the frame of its topic |
| `StreamHub.SettleReopensOnChange` | apps/noite/src/lib/feeds.ts:281-328 | a settle reopens exactly when the subscribed set changed; opening tells subscribers their true status if and only if the page is visible |
| `StreamHub.ReopenedTopicsStartOver` | apps/noite/src/lib/feeds.ts:281-328 | a settle that reopens starts every subscribed topic over as connecting and keeps what was seen |
| `StreamHub.HiddenPageIsMistold` | apps/noite/src/lib/feeds.ts:281-328 | a run of two actions that ends with a subscriber told "connecting" where the stream stands closed |
| `StreamHub.SameSetIsEqual` | apps/noite/src/lib/feeds.ts:292-294 | comparing lengths and one inclusion compares the sets |
| `StreamHub.PutAwayStreamIsDead` | apps/noite/src/lib/feeds.ts:300-302 | the stream a settle puts away has no live source |
| `StreamHub.Multiplexer.SubscribeTo` | apps/noite/src/lib/feeds.ts:338-355 | the new state of one subscribe, status and replay included |
| `StreamHub.Multiplexer.UnsubscribeFrom` | apps/noite/src/lib/feeds.ts:357-363 | the new state of one unsubscribe |
| `StreamHub.Multiplexer.OnMessage` | apps/noite/src/lib/feeds.ts:248-279 | the new state of one message |
| `StreamHub.Multiplexer.OnStatus` | apps/noite/src/lib/feeds.ts:316-322 | every subscriber is told where its topic stands |
| `StreamHub.Multiplexer.DropUnsubscribed` | apps/noite/src/lib/feeds.ts:284-290 | exactly the topics without a subscriber go, the order of the rest stays |
| `StreamHub.Multiplexer.Settled` | apps/noite/src/lib/feeds.ts:281-328 | the new state of one settle; a stream put away is disposed |
| `IsrKeys.NormalizePath` | apps/void-proxy/src/isr-keys.ts:23-37 | the assignments compute the normalized segment |
| `IsrKeys.CanonicalIsStripped` | apps/void-proxy/src/isr-keys.ts:136-142 | the canonical path has no trailing slash, the root apart, exactly when the path does not end in two; exactly then it is its own canonical form |
| `IsrKeys.OneSlashIsLeft` | apps/void-proxy/src/isr-keys.ts:136-142 | a path for which it keeps one |
| `IsrKeys.KeyIsWritten` | apps/void-proxy/src/isr-keys.ts:78-96 | a key as it is written |
| `IsrKeys.NormalizeInverts` | apps/void-proxy/src/isr-keys.ts:129-134 | a segment comes back exactly when it is not empty and has no trailing slash |
| `IsrKeys.KeyPathRoundTrip` | apps/void-proxy/src/isr-keys.ts:107-128 | path and variant come back exactly when the path holds no separator |
| `IsrKeys.NameRoundTrip` | apps/void-proxy/src/revalidate.ts:35-66 | slash-free deployment id and host come back, and the key path when it is not empty |
| `IsrKeys.KeyRoundTrip` | apps/void-proxy/src/isr-keys.ts:78-128 | a built key reads back whole exactly when its path holds no separator and its key path is not empty |
| `IsrPurge.KvStore.List` | apps/void-proxy/src/revalidate.ts:151-151 | a page under the prefix past the cursor, of any size |
| `IsrPurge.KvStore.DeleteAll` | apps/void-proxy/src/revalidate.ts:153-155 | on success every listed key is gone, on failure some of them |
| `IsrPurge.Filter` | apps/void-proxy/src/revalidate.ts:222-224 | the matching keys of a page, each once |
| `IsrPurge.Purge` | apps/void-proxy/src/revalidate.ts:141-162 | however the pages fall, exactly the target goes and the count is its size; a failure removes only part of the target |
| `IsrPurge.HandleRevalidate` | apps/void-proxy/src/revalidate.ts:183-245 | `all` removes every key under both prefixes and nothing else, path mode exactly the keys of the requested paths; `purged` is their number |
| `IsrPurge.BuiltKeysAreDoomed` | apps/void-proxy/src/revalidate.ts:164-181 | path mode reaches every key built for a requested path that reads back whole |
| `IsrPurge.AllIsDoomed` | apps/void-proxy/src/revalidate.ts:212-214 | `all` dooms exactly the keys under the two prefixes |
| `IsrPurge.OtherPathsStay` | apps/void-proxy/src/revalidate.ts:215-235 | path mode leaves the registry and the keys of other paths alone |
| `IsrPurge.OwnKeyIsDoomedExactly` | apps/void-proxy/src/revalidate.ts:164-181 | a request for one path reaches a key built for it exactly when the key reads back whole |
| `IsrPurge.TwoSlashesAreMissed` | apps/void-proxy/src/revalidate.ts:164-181 | a key stored for the path `//` that a request for it misses |
| `Envelope.ParseEnvelope` | apps/noite/src/lib/sentry-envelope.ts:346-406 | the cursor loop computes the specified events and drops, or rejects the header |
| `Envelope.BadHeaderIsRejected` | apps/noite/src/lib/sentry-envelope.ts:346-353 | an envelope is rejected exactly when its first line is no object |
| `Envelope.BytesAreUtf8` | apps/noite/src/lib/sentry-envelope.ts:376-376 | the bytes counted are those of the UTF-8 encoding |
| `Envelope.Utf8IsInjective` | apps/noite/src/lib/sentry-envelope.ts:376-376 | and that encoding can be read back: different texts are different octets |
| `Envelope.SkipSized` | apps/noite/src/lib/sentry-envelope.ts:371-377 | the inner loop ends where the specification says |
| `Envelope.LinesCost` | apps/noite/src/lib/sentry-envelope.ts:372-375 | the lines of a payload, each with its newline, count one byte more than the payload |
| `Envelope.SizedIsSkipped` | apps/noite/src/lib/sentry-envelope.ts:366-382 | the scan goes on right past a sized payload, over one blank line at most |
| `Envelope.ScanNeverDesyncs` | apps/noite/src/lib/sentry-envelope.ts:346-406 | an envelope is read for exactly what its items are worth, whatever its sized payloads hold |
| `Envelope.SizedItemsOnlyDrop` | apps/noite/src/lib/sentry-envelope.ts:366-382 | deleting the sized items changes no event and takes away one dropped entry each |
| `Envelope.WholePayloadIsSkippedExactly` | apps/noite/src/lib/sentry-envelope.ts:371-377 | a payload is skipped whole exactly when the declared length ends within its last line |

## Left out

- SandboxProtocol.FreshReserveNeedsOnlyRoom: rests on the retention assumption above; past it a late reserve of an old generation can take the id.
- SandboxProtocol.FleetWideCap: for a cap fixed over the run; what a changing cap keeps is in `KeepSet` and `AdmissionFencing.EntriesStayUnderTheCaps`, without the controllers.
- EdgeLimiter.SweepsAreUnobservable: for zones that stay under the key limit; eviction does change answers.
- EdgeSweeps.PushesAreUnobservable: for zones that stay under the key limit, and calls that are counted; one without a key or a rate never is.
- EdgePush.PushesConverge: for admin pushes; the file load at start bypasses the generation check and appears only in the lemmas about the prober.
- EdgeState.SharedState.Release: the fields are the Go ones; the goroutine that may set a cancelled record once more touches a record no table holds.
- DbSetup.AtMostFour: counts unsettled passes; a timed-out pass settles although the migration under it may go on.
- DbSetup.SetupPasses.RunOnce: one binding; others are other keys of the same table and do not meet it. A pass whose work the runtime drops with its request never settles by itself and is outside the bound: `Tick` does not go past the time by which a pass has to settle.
- BlankingTsGrammar.ExactlyLiteralsGoBlank: text with a literal that never closes is not covered; `BlankingTs.PositionsSurvive` covers all text.
- BlankingRustGrammar.ExactlyLiteralsGoBlank: the same, and a `b` right before a quote that opens no literal, which goes blank (`BlankingRust.LoneBytePrefixGoesBlank`).
- StreamHub.FrameReachesItsTopic: the index of a message is taken as read; an environment without an event source is not modelled.
- IsrPurge.HandleRevalidate: the edge-cache deletes are left out, they swallow their failures; writers that add keys during the purge are not modelled.
- Envelope.ScanNeverDesyncs: a fractional length acts as the next whole number and is not modelled; the field mapping of an event is left out, its payload line stands for it.
- Heartbeats of the controller, the destroys its alarm decides on, and the exec and stream plumbing: no durable effect on admission beyond what the steps above say.
- `readAdmissionCap`, `ClientKey`, `WaitHealthy`, the FNV hash of a variant, Caddy registration, HTTP, JSON, logging and the health probe itself: a result of each is a parameter where it matters.
- Ids such as `__proto__`, which a JavaScript object treats specially: entries are plain maps here.
- Rate limiting of the control UI, schema versions, change logs, configuration defaults, role ranks and command lines: easier members of the same kinds.
