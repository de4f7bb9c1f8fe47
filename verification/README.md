# Twelve rigs, one schedule: what the code keeps

A floor of robot rigs runs a schedule that the desk computes and pushes. Each rig plays its own part of
it with three pedals, writes what happens to a journal on its own disk, and hands events and video to a
service that keeps them. This project models the parts of that system where something can go wrong in a
way nobody would notice, and proves what they keep.

| part | files |
|---|---|
| The two rotations, the labels on time off, the audit | `HoldRotation`, `HoldOrder`, `StintRotation`, `OffTime`, `HolderRuns`, `Plans`, `FloorTurns`, `Audits` |
| What a rig is sent and how it reads it back; the desk's board | `RigPayloads`, `PayloadTimes`, `DeskBoard`, `DeskAgreement` |
| The rig's journal, its uploaders, the ledger | `JournalLog`, `Journal`, `Pipeline`, `PipelineSafety`, `PipelineForgets`, `PipelineDelivers`, `PipelineCounting` |
| Video: rig, spool, archive, row | `VideoRows`, `VideoTake`, `VideoSafety`, `VideoRuns`, `VideoDrain`, `VideoProgress`, `VideoOrder` |
| The ledger read into fact tables | `Projection`, `ProjectionReplay`, `ProjectionReadings` |
| The pedals | `Pedals`, `PedalsKeep`, `PedalsTurns`, `PedalsTimes`, `PedalsLog`, `PedalsMenu`, `PedalsRig` |
| Which shift is in force; the rate limit | `Schedules`, `RateLimit` |
| Helpers | `Options`, `Arithmetic` |

Code that changes state is modelled as classes and loops whose contracts tie the new state to a function
of the old one; what the system promises is then proved of those functions. The three protocols (journal
and ledger, video, pedals) are also state machines over single steps, so that their theorems hold in every
reachable state: a crash, a lost reply, a late arrival or a second process may come between any two steps.

## What the model takes as given

- Each journal operation is atomic, except where a lemma says otherwise. A write may stop anywhere: nothing,
  a piece that ends between two characters or inside one, all but the newline, everything but the sync. A
  piece of a record leaves a brace open, so whatever is written after it on the same line does not parse; a
  piece that ends inside a character leaves the line no text at all. (Only a record with a character of
  several bytes, such as a name, can be cut inside one.)
- A fresh event id is fresh, and SHA-256 is injective: a digest stands for one content.
- Times and durations are exact reals; the page's rounding of seconds for display and filing is not modelled.
- The service commits one request at a time. One projection worker and one drain worker run.
- A zone is a fixed offset from UTC; days on which clocks change are outside the claims.

## Where the code and its documentation part

- `apps/rig/desktop/src/upload.rs:24-28` says the uploader never writes to the journal, and
  `apps/rig/desktop/src/journal.rs:27-30` that compaction happens only at boot. The uploader calls `load` on
  every pass (`upload.rs:249`, `:307`), which compacts and sweeps. An append that falls between that load's
  reading and its rename is lost exactly when the load had something to rewrite
  (`JournalLog.AppendBetweenReadAndRename`), and a sweep that falls between the two writes of a take loses
  the take (`VideoRuns.SweepBetweenTheWritesLosesIt`).
- The repository's `README.md:205-207` and `packages/engine/rotation-engine.js:279-285` give `blocks % 8 == 0`
  as the rule for the hold rotation. It is not enough: 59-minute blocks give eight blocks and the wrong hours.
  With the block length dividing 480 it is exact (`Audits.HoldBudgetIff`); the audit's whole verdict is right
  either way.
- `apps/rig/desktop/src/journal.rs:298` takes a line that does not parse for the one the power cut caught, and
  skips it. When the cut falls inside a character of several bytes the line is not text, and reading it fails
  (`journal.rs:292-293`): so does that load and every later one, before it can compact. No write and no load
  mends the file. The page recovers nothing, the uploader's passes for events and video all fail, and appends
  go on returning
  (`JournalLog.ReadableAfterIff`, `PipelineCounting.CutInsideIsLost`).
- A record cut between its last brace and its newline is whole, so the load keeps it, and leaves the file as it
  is when there is nothing else to drop; the next append shares its line, and both are lost although
  `journal.rs:131` says a torn line can only ever be the last one (`PipelineCounting.GluedIsLost`).
- `apps/rig/assets/rig.js:1649-1653` says a restarted rig carries on from what the service holds. A batch the
  service refused moves the mark but not the service's cursor, so after a restart the next events are numbered
  at or below the mark and retired unsent (`PipelineCounting.SeqUsedTwiceIsLost`).
- `apps/rig/assets/rig.js:552-556` says beginning a stint in one place keeps a rig switched on early from
  charging its first operator for standby. It does so exactly when the first turn finds the rig on standby
  (`PedalsTurns.FirstTurnBeginsFreeIff`). With a check open the wait is filed as that operator's stint and the
  check is skipped; with a fault report open the stint goes on counting it, and files it once the fault is
  closed (`PedalsTurns.OpenCheckAtTheFirstTurn`, `PedalsTurns.OpenFaultAtTheFirstTurn`).
- `apps/rig/assets/rig.js:1187-1192` says a take is filed under whoever was on as it began. A take begun by a
  press that finds the turn just over has nobody captured, and goes to whoever is on when it lands
  (`PedalsTurns.UncapturedTakeGoesToTheNext`).
- `backend/core/workflows/schedules.py:84-92` says every rig of a push lands on the same shift, whatever order the
  rows come in. That holds exactly when some sheet is near today or the newest push has one shift in it: the
  last resort takes the first of the newest push's rows, which are tied
  (`Schedules.OrderDoesNotMatter`, `Schedules.OldSheetsDependOnOrder`).
- `backend/services/rigs/ratelimit.py:77-82` says the wait is how long until the call may proceed. A caller turned
  away because 4096 others are tracked is told a minute every time and never let through
  (`RateLimit.NoRoomIsForEver`).
- The video path keeps a take only while it has one uploader: the shell's and the page's upload the same takes
  (`VideoSafety.OneUploaderKeepsIt`, `VideoRuns.SecondUploaderLosesIt`).
- `backend/core/workflows/video.py:250-256` says every crash is collected by the next pass. A row that a late
  confirm put back to `on_prem` after its spool copy was released makes the copy raise, and the batch with it
  (`VideoRuns.ConfirmAcrossReleaseStrandsTheRow`).
- `backend/core/workflows/video.py:175-180` says giving up on a take costs only a label, because a confirm puts the
  row straight back. A confirm that commits between the worker's reading and its commit is overwritten: the rig
  has let go, and no pass will ever archive the take (`VideoRuns.GiveUpAcrossConfirmStrandsTheTake`).
- `backend/core/rules/floor.py:255-257` reads a sheet with no end as no window; the engine reads it as eight
  hours. They agree exactly as `Schedules.WindowsAgreeIff` says.

## Model

| member | source | states |
|---|---|---|
| HoldRotation.PlanHold | packages/engine/rotation-engine.js:61-95 | The loop over blocks, with its taken set and free list and the mirrored copy, deals every operator the cell of the block-by-block rule; with one more operator than rigs, the cell of a closed modular form. |
| HoldRotation.HoldClosedForm | packages/engine/rotation-engine.js:65-82 | With one more operator than rigs, operator i is off exactly when b = i mod n and otherwise holds rig (i + floor((b - i) / n)) mod (n - 1), for every block. |
| HoldRotation.HoldTurnIsOneOnRun | packages/engine/rotation-engine.js:48-82 | Between two off blocks n apart an operator stands on one and the same rig, so a turn is as many blocks as there are rigs. |
| HoldRotation.ReliefTakesTheSameRig | packages/engine/rotation-engine.js:67-79 | The operator coming back takes exactly the rig the next one puts down. |
| HoldRotation.HoldNeverDoubles | packages/engine/rotation-engine.js:61-82 | For any crew and any number of rigs, no rig is given to two operators in a block, every cell is a real rig, and the operator whose turn it is stands off. |
| HoldRotation.SheetSharesNothing | packages/engine/rotation-engine.js:84-95 | The same for the mirrored sheet: every cell is off or a real rig and no two operators share one. |
| HoldRotation.SheetIdlesNothingIff | packages/engine/rotation-engine.js:61-95 | In the sheet every rig has somebody on it in a block exactly when operators outnumber rigs. |
| HoldOrder.KeepsTheRig | packages/engine/rotation-engine.js:61-82 | In any crew whoever is on a rig keeps it until their own block off. |
| HoldOrder.IdleAreServedInOrder | packages/engine/rotation-engine.js:67-79 | In any crew the first of the idle takes the rig just put down, the next take the other free rigs lowest first, and nobody stays idle while a rig is free. |
| StintRotation.PlanRotate | packages/engine/rotation-engine.js:121-133 | The loop deals every operator the modular cell of the rotate mode; with no rigs, a cell that is neither off nor any rig. |
| StintRotation.RotateFitsIffOneSpare | packages/engine/rotation-engine.js:121-133 | Every rig has exactly one operator in every block exactly when there is one more operator than rigs. |
| StintRotation.EveryRigHasAHand | packages/engine/rotation-engine.js:121-133 | With more operators than rigs every rig has somebody in every block. |
| StintRotation.RotateWalksTheRigs | packages/engine/rotation-engine.js:116-133 | With one spare operator everybody moves one rig down at each stint: from the first rig off, and from off to the last. |
| StintRotation.RotateStaysForTheStint | packages/engine/rotation-engine.js:116-133 | Within a stint nobody moves, and the shift opens with the first operator off and the others on the rigs in order. |
| OffTime.LabelOffRuns | packages/engine/rotation-engine.js:135-146 | The nested loops name each off-run by the parity of the runs begun so far: break, think, break, think. |
| OffTime.LabelsFollowThePhase | packages/engine/rotation-engine.js:135-146 | For a row off one stint in n, break falls on one phase of a cycle of 2n stints and think n stints later. |
| OffTime.DayCounts | packages/engine/rotation-engine.js:159-167 | A day's break and thinking are its break and think blocks, and the rest of the shift is work. |
| OffTime.CrewBudgetIff | packages/engine/rotation-engine.js:242-254 | Four operators all get 360, 60 and 60 minutes exactly when whole eight-stint cycles fill 480 minutes, last stints cut short included. |
| OffTime.CyclesFitIffStintDividesHour | packages/engine/rotation-engine.js:246-255 | Whole eight-stint cycles fill the shift exactly when the stint divides 60, whatever the block length and its rounding. |
| OffTime.BlocksAreNearest | packages/engine/rotation-engine.js:151 | The blocks of a shift come as near to 480 minutes as whole blocks can, past them when two are as near. |
| HolderRuns.RunLengths | packages/engine/rotation-engine.js:218-232 | The audit's scan files the length of every maximal run of one holder, in order. |
| HolderRuns.SpansTile | packages/engine/rotation-engine.js:388-397 | The turns of a rig are maximal runs of one holder that tile the shift without gap or overlap. |
| Plans.BuildPlan | packages/engine/rotation-engine.js:149-186 | The built plan has, for each group, each operator's labelled row of the asked rotation and the day it adds up to. |
| FloorTurns.HoldInteriorTurns | packages/engine/rotation-engine.js:48-60 | In a built hold plan no turn on a rig is longer than the number of rigs, and every interior turn is exactly that long. |
| FloorTurns.HoldOpeningTurn | packages/engine/rotation-engine.js:55-60 | Rig r opens the shift with a turn of n - 1 - r blocks: the stubs 1, 2, ... that a crew change forces. |
| FloorTurns.RotateChangesPerStint | packages/engine/rotation-engine.js:116-133 | In rotate every rig changes hands exactly on the stint boundaries. |
| FloorTurns.AlwaysHeld | packages/engine/rotation-engine.js:61-133 | In a plan of either rotation, with more operators than rigs, the sheet names a holder for every rig in every block. |
| Audits.AuditPlan | packages/engine/rotation-engine.js:239-345 | The audit's checks and its level are exactly the divisibility test, equal turns, the exact budget and the balance of off-runs; it fails exactly on a rotate plan with no groups. |
| Audits.EndsAreLeftOutIff | packages/engine/rotation-engine.js:99-115 | In hold the first and last turns of a rig are left out of the equal-turns check only when there is one between them. |
| Audits.HoldBudgetIff | packages/engine/rotation-engine.js:266-268 | Of a built hold plan, four on three: everyone gets 360, 60 and 60 exactly when the block divides the shift and the blocks are a multiple of eight. |
| Audits.EightBlocksOf59MinutesDoNotFit | packages/engine/rotation-engine.js:279-285 | The rule given for the hold rotation is not enough: 59-minute blocks are eight and do not fill the shift. |
| Audits.RotateBudgetIff | packages/engine/rotation-engine.js:242-255 | Of a built rotate plan, four on three: exact exactly when the time on rig divides 60. |
| Audits.HoldVerdictIsExact | packages/engine/rotation-engine.js:274-297 | Of every built hold plan, four on three: the audit reports a clean fit exactly when the hours are exact, and never merely uneven turns. |
| Audits.RotateVerdictIsExact | packages/engine/rotation-engine.js:298-330 | Of every built rotate plan, four on three: the audit reports a clean fit exactly when the time on rig divides the hour, and exactly when the hours are exact. |
| RigPayloads.ClockRoundTrip | packages/engine/rotation-engine.js:205-210 | A time written as HH:MM reads back as the minute of the day. |
| RigPayloads.BuildTurns | packages/engine/rotation-engine.js:385-416 | The loop makes one turn of each maximal run, with who relieves it and where the operator goes next; it throws exactly when a rig is taken over from nobody. |
| RigPayloads.RigPayload | packages/engine/rotation-engine.js:375-432 | A rig no group lists gets nothing; otherwise its payload is that of the last group that lists it. |
| RigPayloads.BuiltIsSent | packages/engine/rotation-engine.js:375-432 | A rig of a built plan, in either rotation, whose group has more operators than rigs is always sent its payload; nothing throws. |
| RigPayloads.NobodyOutsideTheShift | packages/engine/rotation-engine.js:437-450 | Outside the shift nobody is on, the shift that ends at 00:00 included. |
| RigPayloads.WhoIsOnReadsThePlan | packages/engine/rotation-engine.js:437-450 | At any moment of the shift the payload names the operator of the block that moment falls in, the next holder as the relief, and the time left until hands next change. |
| RigPayloads.PayloadRoundTrip | packages/engine/rotation-engine.js:375-450 | For every rig of a built plan, in either rotation, whose group has more operators than rigs, and every moment of the day: its payload is sent, and reading it gives the plan's holder, who relieves them and the time left; nobody exactly outside the shift. |
| PayloadTimes.HeaderMatchesTheTurns | packages/engine/rotation-engine.js:422-428 | Of any staffed rig of a built plan the header names the shift, date and zone, starts as asked and with the first turn, and ends eight hours later, with the last turn exactly when the block divides the shift; then somebody is on exactly in the header's window. |
| PayloadTimes.TurnLastsItsTimes | packages/engine/rotation-engine.js:407-416 | The minutes a turn states are those from its start to its end, across midnight too. |
| PayloadTimes.TheyGoWhereTheTurnSays | packages/engine/rotation-engine.js:394-399 | With one spare operator, in either rotation: the rig a turn sends its operator to has that operator in the next block; one sent to rest is on no rig, at what the sheet calls it; and the shift is over only after the last block. |
| DeskBoard.OffNow | rotation-desk-v1/assets/desk.js:360-404 | The loops find somebody named in the turns and on no rig now, the latest of their turns that ended in a rest and the soonest to come, first in order among equals; or that there is nobody. |
| DeskAgreement.BoardTellsThePlan | rotation-desk-v1/assets/desk.js:360-404 | Of the payloads of any built hold plan with one spare operator and distinct names, at every minute of the shift: the board's answer is the operator the sheet has off, doing what the sheet calls that block, going next to the rig the sheet gives them in the next block, when it starts; unsaid in the first block, nowhere in the last. |
| DeskAgreement.CountdownsAgree | rotation-desk-v1/assets/desk.js:457-480 | Of any built hold plan: the rig the off operator walks to has a turn in progress with exactly as long to run as the block, so both countdowns are one number. |
| JournalLog.Replay | apps/rig/desktop/src/journal.rs:283-322 | Reading the log line by line gives the live events and the count of non-blank lines; it fails exactly when some line is not text. |
| JournalLog.LiveReadsTheLines | apps/rig/desktop/src/journal.rs:303-318 | An event is live exactly when the last line to name its id, in a put or a forget, is a put, and it is as that line puts it. |
| JournalLog.ShortcutIffTidy | apps/rig/desktop/src/journal.rs:343-352 | Of a file that can be read, the rewrite is skipped exactly when every non-blank line is already a distinct, unsent put. |
| JournalLog.CompactionKeepsMeaning | apps/rig/desktop/src/journal.rs:329-362 | For every log and mark, replaying the compacted file gives exactly the live events the mark does not cover; a file that cannot be read is left as it is. |
| JournalLog.RewritingOnceIsEnough | apps/rig/desktop/src/journal.rs:343-362 | A rewrite makes the file strictly shorter and a second load never rewrites. |
| JournalLog.AppendIsKeptIffClean | apps/rig/desktop/src/journal.rs:124-136 | An append that returned is found by the next load exactly when the file could be read and ended in a newline before it. |
| JournalLog.CleanAfterIff | apps/rig/desktop/src/journal.rs:124-136 | Only a whole write leaves the file ending in a newline. |
| JournalLog.ReadableAfterIff | apps/rig/desktop/src/journal.rs:292-302 | A file stops being readable exactly by a write that stops inside a character, and no later write makes it readable. |
| JournalLog.LoadCleansTailIff | apps/rig/desktop/src/journal.rs:248-278 | A load leaves a file ending in a newline, except when it cannot read it, or when a whole record lacks only its newline and nothing else is to be dropped. |
| JournalLog.NewlineLostThenBothLost | apps/rig/desktop/src/journal.rs:124-136 | In that case the next append is glued on and both records are gone. |
| JournalLog.AppendBetweenReadAndRename | apps/rig/desktop/src/upload.rs:248-249 | An append by one process during the other's load is found afterwards exactly when that load could read and had nothing to rewrite. |
| Journals.OwedIsExact | apps/rig/desktop/src/journal.rs:248-269 | What is owed is each live, unsent event of this rig, once, oldest first. |
| Journals.Journal.Load | apps/rig/desktop/src/journal.rs:248-278 | Load fails exactly when some line is not text, and then changes nothing; otherwise it returns exactly what is owed, in order, and leaves the compacted file. |
| Journals.LoadReadsTheLines | apps/rig/desktop/src/journal.rs:248-271 | A load of a readable file hands over exactly this rig's events whose last line puts them, unless the mark is this rig's and reaches their seq; an event with no seq is never retired by an ordinary mark. |
| Journals.LoadIsOldestFirst | apps/rig/desktop/src/journal.rs:266-269 | Events are handed over in the rig's own order, one with no seq before all others. |
| Journals.LoadingIsRepeatable | apps/rig/desktop/src/journal.rs:248-278 | A load hands over the same events however often the file was loaded before. |
| Journals.Journal.SetMark | apps/rig/desktop/src/journal.rs:234-243 | The mark only moves forward for its own rig. |
| Journals.Journal.AppendEvent | apps/rig/desktop/src/journal.rs:103-136 | An append succeeds exactly when it is durable, and the file is the old one with that much of the record. |
| Journals.Journal.ForgetEvents | apps/rig/desktop/src/journal.rs:111-122 | A forget is one line; forgetting nothing writes nothing. |
| Journals.HighestOf | apps/rig/desktop/src/upload.rs:255-271 | The scan gives the highest seq of the batch, or refuses a batch in which any event has none. |
| Journals.BatchIsDownwardClosed | apps/rig/desktop/src/upload.rs:253-271 | Nothing owed at or below the batch's highest seq is left out of it. |
| Journals.Uploader.SendEvents | apps/rig/desktop/src/upload.rs:248-297 | A pass posts the first hundred owed events and moves the mark to their highest seq on a 2xx or a 422 and on nothing else; from a file that cannot be read it sends nothing and fails. |
| Pipeline.IngestExactlyOnce | backend/services/rigs/routes.py:86-143 | Ingest holds every key of a batch once, leaves earlier rows as they were and adds nothing else. |
| Pipeline.ResendingIsFree | backend/services/rigs/routes.py:86-143 | Sending a held batch again changes nothing. |
| PipelineSafety.AppendIsOwedIff | apps/rig/desktop/src/journal.rs:103-136 | In every reachable state an event just appended is handed over by the next load exactly when the file could be read and ended in a newline and the mark had not passed its seq. |
| PipelineForgets.ForgetTakesExactly | apps/rig/desktop/src/journal.rs:110-122 | A tombstone written whole onto a clean file takes exactly the events it names from what the next load hands over. |
| PipelineForgets.ForgottenStaysForgotten | apps/rig/assets/rig.js:1696-1716 | In every run, once such a tombstone is written no load of any continuation hands its events over again. |
| PipelineForgets.AnswerClearsTheBatch | apps/rig/assets/rig.js:1688-1716 | In every run an answer to the page's batch takes exactly that batch from what it has to send and queues one forget of exactly its events. |
| PipelineForgets.AnswerRetiresTheBatch | apps/rig/desktop/src/upload.rs:279-295 | In every reachable state an answer to the uploader retires its whole batch. |
| PipelineForgets.BootCountsOnFrom | apps/rig/assets/rig.js:1527-1534 | A boot counts on from right after the highest seq recovered, or held when the service could be asked; from zero if there is neither. |
| PipelineDelivers.AcknowledgedCanBeDelivered | apps/rig/desktop/src/upload.rs:248-297 | From every reachable state, unless a write has stopped inside a character, each event whose append returned and was not exposed is held or refused, or can still be brought into the ledger. |
| PipelineDelivers.UploaderCanDeliver | apps/rig/desktop/src/upload.rs:248-297 | Whatever the next load would hand over the uploader alone can deliver, batch by batch, page or no page. |
| PipelineDelivers.RoundLeavesTheRest | apps/rig/desktop/src/upload.rs:248-284 | A batch read, taken and answered leaves owed exactly what was not in it. |
| PipelineDelivers.PageCanDeliver | apps/rig/assets/rig.js:1667-1737 | In every reachable state a running page can deliver anything it has still to send. |
| PipelineDelivers.FilingQueues | apps/rig/assets/rig.js:1217-1234 | What the page files is numbered in turn, queued to be sent and queued to be written. |
| PipelineDelivers.BootSendsWhatIsOwed | apps/rig/assets/rig.js:1516-1544 | A boot sends again everything the load hands over and has nothing to write. |
| PipelineDelivers.CrashForgets | apps/rig/assets/rig.js:1642-1646 | A crash loses what was only in memory, and nothing on the disk. |
| PipelineSafety.BatchLeavesNothingBelow | apps/rig/desktop/src/upload.rs:253-284 | In every reachable state the batch the uploader reads leaves out nothing owed at or below its highest seq, so the mark retires no unsent work. |
| PipelineSafety.ReadableIffNeverCut | apps/rig/desktop/src/journal.rs:283-322 | Along every run the file can be read exactly as long as no write has stopped inside a character. |
| PipelineSafety.NothingAcknowledgedIsLost | apps/rig/assets/rig.js:1667-1737 | In every run each event whose append returned, on a clean readable file and above the mark and the batch in flight, is handed over by the next load, or is in the ledger exactly once, or was refused; or else a write of the run stopped inside a character, and the event is on a disk no load can read. |
| PipelineCounting.PlainRunsLoseNothing | apps/rig/assets/rig.js:1516-1541 | While no write was glued or stopped inside a character, every boot reached the service and nothing was refused, no acknowledged event is lost at all, and new seqs are above the mark, the batch in flight and every journalled seq. |
| PipelineCounting.SeqUsedTwiceIsLost | apps/rig/assets/rig.js:1654-1665 | After a refused batch, or a boot that could not ask, the counter restarts below the mark: the next event is acknowledged and is neither owed, held nor refused. |
| PipelineCounting.GluedIsLost | apps/rig/desktop/src/journal.rs:124-136 | A record cut just before its newline is recovered at the next boot; the event filed after it is acknowledged and is neither owed, held nor refused. |
| PipelineCounting.CutInsideIsLost | apps/rig/desktop/src/journal.rs:283-322 | After a write stops inside a character and the power goes, an event acknowledged before it never reaches the ledger and no load ever hands over anything, in every continuation of the run. |
| VideoRows.FineIffTheSame | backend/core/workflows/video.py:111-142 | A confirm says yes exactly when the spool holds the rig's own bytes and the store can say so itself. |
| VideoRows.RefusalSaysWhy | backend/core/workflows/video.py:122-139 | A refused confirm says the first thing that is wrong: nothing there, another size, no checksum, another checksum. |
| VideoRows.MatchIffTheSame | backend/core/workflows/video.py:214-228 | The archive matches a confirmed row exactly when it holds that take's bytes and says so. |
| VideoSafety.LetGoMeansHeld | backend/core/workflows/video.py:111-157 | In every run, once the rig has let go the row has the take's size and digest and the spool or the archive holds its very bytes; or the run has in it a retention deletion, or other bytes of the take landing after a confirm had looked. |
| VideoSafety.AlwaysSomewhere | apps/rig/desktop/src/journal.rs:143-165 | From the moment a put returns the take is whole on the rig, in the spool or in the archive; or the run has in it one of those two, or a sweep between the put's two writes. |
| VideoSafety.OneUploaderKeepsIt | apps/rig/desktop/src/upload.rs:299-400 | With one uploader, a take let go of is held until retention deletes it, whatever crashes, is lost or runs beside it; and it was somewhere all along unless a sweep ran between the two writes. |
| VideoSafety.ExpiredByRetention | backend/core/workflows/video.py:331-380 | In every run an archive that has lost the take lost it to retention, which had first read a row that was archived, released from the spool and older than the cutoff. |
| VideoSafety.OnlyRetentionDeletes | backend/core/workflows/video.py:366-380 | In every reachable state the only step that empties the archive is that deletion, in a run where retention had read a row old enough. |
| VideoSafety.LandingLosesIff | apps/rig/desktop/src/upload.rs:355-363 | In every reachable state where the rig has let go, bytes that land lose the take exactly when they are not the take's and the archive does not hold it; what they overwrite is then the only copy. |
| VideoSafety.NothingOnHope | backend/core/workflows/video.py:140-157 | In every reachable state a row is recorded archived, or its spool copy deleted, only while the archive holds the very bytes; each commit is stamped with its own time; and a landed row names the take's key. |
| VideoSafety.RowIsDatedOnce | backend/core/workflows/video.py:95-148 | A row is dated when the service first hears of the take, and each later date is written only by the step it is the date of. |
| VideoSafety.GivenUpAfterWaiting | backend/core/workflows/video.py:160-209 | A take is given up on only after its row was read still pending and older than the cutoff. |
| VideoSafety.ExpiredRowByRetention | backend/core/workflows/video.py:331-380 | A row says expired only after retention read it as old enough and deleted from the archive. |
| VideoRuns.SecondUploaderLosesIt | apps/rig/assets/rig.js:1887-1907 | With the page still uploading a take the shell has been told to delete, a put cut short and a power cut lose it. |
| VideoRuns.SweepBetweenTheWritesLosesIt | apps/rig/desktop/src/journal.rs:367-415 | A sweep between the two writes of a put leaves a name with no bytes, which the uploader then forgets. |
| VideoRuns.ConfirmAcrossReleaseStrandsTheRow | backend/core/workflows/video.py:111-148 | A confirm that looked before a release and commits after it leaves an on_prem row whose copy can never start. |
| VideoRuns.GiveUpAcrossConfirmStrandsTheTake | backend/core/workflows/video.py:188-208 | A take confirmed and let go of while the worker is giving up on its row is left in the spool under a row that names nothing. |
| VideoRuns.ConfirmOutlivesItsCaller | backend/core/workflows/video.py:111-148 | A confirm whose caller has given up is recorded all the same, and the rig keeps both files for the next try. |
| VideoRuns.RetentionEndsIt | backend/core/workflows/video.py:331-380 | A reachable run from the rig to the archive to retention: the bytes are gone from both stores and the row keeps their size and digest. |
| VideoDrain.ClaimIsFair | backend/core/workflows/video.py:263-268 | A batch takes each selected row once and falls short of its limit only by taking every one. |
| VideoOrder.ClaimIsOldestFirst | backend/core/workflows/video.py:263-305 | A batch's ages ascend, by stored_at to copy and archived_at to release, and no selected row outside it is older than one in it. |
| VideoOrder.ClaimedIff | backend/core/workflows/video.py:263-305 | A row is in the batch exactly when it is selected and fewer than a batch of selected rows are ahead of it. |
| VideoOrder.LaterRowsDelayNobody | backend/core/workflows/video.py:263-305 | Rows that arrive later never put an older one off. |
| VideoOrder.CopyPassWrites | backend/core/workflows/video.py:259-285 | The copy pass archives, as of now, exactly the claimed rows whose spool object is their take, and touches no other row or column. |
| VideoOrder.FreePassWrites | backend/core/workflows/video.py:308-326 | The release pass frees, as of now, exactly the claimed rows with no key or whose archive object is their take, and touches no other row or column. |
| VideoDrain.Worker.CopyBatch | backend/core/workflows/video.py:259-285 | The copy pass archives the claimed rows the archive then accounts for; a missing object raises and no row changes. |
| VideoDrain.Worker.ReleaseSpool | backend/core/workflows/video.py:291-328 | The release pass frees the claimed rows the archive accounts for, and deletes exactly their spool copies. |
| VideoDrain.Worker.DrainBatch | backend/core/workflows/video.py:231-288 | A run copies then releases; when the copy raises it releases nothing. |
| VideoProgress.ReleasedOnlyWhenMatched | backend/core/workflows/video.py:308-324 | A key leaves the spool only when a row names it and the archive holds what that row describes. |
| VideoProgress.CopyAgainAfterCrash | backend/core/workflows/video.py:250-256 | A copy pass run again after a crash at any point ends where the first would have. |
| VideoProgress.FreeAgainAfterCrash | backend/core/workflows/video.py:250-256 | So does a release pass, however many objects were deleted before the crash. |
| VideoProgress.EveryRunCounts | backend/core/workflows/video.py:231-328 | With a store that copies faithfully, nothing stranded and fewer stuck rows than a batch, every run makes what is left strictly smaller. |
| VideoProgress.EveryTakeGetsHome | backend/core/workflows/video.py:231-328 | Then every landed take never freed ends archived, released, and with exactly its bytes in the archive, within as many runs as there was left to do. |
| VideoProgress.NothingMovesIffAllStuck | backend/core/workflows/video.py:263-285 | A copy pass records nothing exactly when every row it claimed holds bytes that are not its take. |
| Projection.Worker.ProjectBatch | backend/core/workflows/projection.py:304-340 | A batch applies the oldest outstanding rows in order and stamps them all; if one raises nothing of the batch is kept. |
| Projection.Worker.Reset | backend/core/workflows/projection.py:343-353 | Every table is emptied and the whole ledger is outstanding again. |
| ProjectionReplay.OneEventOneRig | backend/core/workflows/projection.py:195-301 | An event changes its own rig's rows as on a floor of one rig, and no other rig's. |
| ProjectionReplay.ProjectsIffNamedOnce | backend/core/workflows/projection.py:215-227 | A ledger projects to its end exactly when every take has an id and no id is used twice. |
| ProjectionReplay.InterleavingDoesNotMatter | backend/README.md:214-241 | Two ledgers with each rig's events in the same order project alike, and give every rig the same rows in every table. |
| ProjectionReplay.BatchesDoNotMatter | backend/core/workflows/projection.py:304-340 | Any partition into batches gives what projecting at once gives. |
| ProjectionReadings.EpisodesAreTheTakes | backend/core/workflows/projection.py:215-228 | The episodes table is the takes, saved and discarded, each once and as filed. |
| ProjectionReadings.ChecksAreTheReports | backend/core/workflows/projection.py:230-245 | The checks table is the checks and the fault reports, each once and as filed. |
| ProjectionReadings.SessionsReadTheLedger | backend/core/workflows/projection.py:63-85 | One session a key: begun by the first event under it, ended by the first that ends it. |
| ProjectionReadings.BlocksReadTheLedger | backend/core/workflows/projection.py:88-160 | Every productivity block counts the saved takes filed before it under its key, their seconds, and the time since the first event under that key, and nothing the rig counted. |
| ProjectionReadings.OutagesReadTheLedger | backend/core/workflows/projection.py:163-192 | A rig has at most one open outage, and has one exactly when its last word was that it is down: since then no report that it is up, no take saved or discarded, no check passed. |
| ProjectionReadings.OthersLeaveOutages | backend/core/workflows/projection.py:174-192 | A check raised or failed, a fault, the end of a stint or of a session leaves every outage as it was. |
| ProjectionReadings.OutagesAreReadInOrder | backend/core/workflows/projection.py:208-266 | A rig's outages are its reports of being down, each ended by the first report after it that the rig is up, take saved or discarded, or check passed, with the seconds measured or else the difference. |
| PedalsRig.Rig.Tick | apps/rig/assets/rig.js:726-790 | A frame does what the transition function says: time, time not charged, then at most one move of the schedule. |
| PedalsRig.Rig.Dispatch | apps/rig/assets/rig.js:358-505 | A press of an offered pedal does what the transition function says. |
| PedalsKeep.RunKeeps | apps/rig/assets/rig.js:284-286 | In every reachable state recorded, fault, down and the take in hand fit the time assigned, fault and down seconds cover the phase in progress, and something waits for a take only while there is one. |
| PedalsLog.BlocksAddUp | apps/rig/assets/rig.js:525-545 | In every run each stint block counts exactly the takes saved, their seconds and the outages mended that were filed since the block before it; a discarded take leaves no trace. |
| PedalsLog.LastEventTellsThePhase | apps/rig/assets/rig.js:358-505 | In every run the last event filed tells which screens the rig can be on; every saved take has a score on offer, and every outage names a leaf of the tree and whether it was found at the handover. |
| PedalsLog.RunShows | apps/rig/assets/rig.js:358-505 | In every run a part is named exactly while it is being fixed, a problem exactly while the rig is down, and seconds wait exactly while a take waits for its score. |
| PedalsMenu.MenuLeadsToEveryLeaf | apps/rig/assets/rig.js:460-482 | The menu opens at the root and every leaf of the tree is reached by the picks that lead to it, filed as found at the handover exactly when it was. |
| PedalsMenu.ScreensTake | apps/rig/assets/rig.js:320-353 | What each screen takes, and nothing else; scores are 3, 4 and 5. |
| PedalsKeep.ClampIsNeverNeeded | apps/rig/assets/rig.js:292-296 | Efficiency's clamp at 1 never does anything. |
| PedalsKeep.WithdrawingIsExact | apps/rig/assets/rig.js:388-395 | Withdrawing a fault takes back exactly the seconds it had excluded. |
| PedalsKeep.RestartKeepsTheStint | apps/rig/assets/rig.js:1565-1613 | Saved in any reachable state and resumed in the same turn of the same shift, a stint keeps every counter and its elapsed time; otherwise it starts clean. |
| PedalsKeep.FramesLeaveATakeAlone | apps/rig/assets/rig.js:766-784 | No clock or schedule leaves recording or review; it only notes that a handover or a rest is due. |
| PedalsLog.FramesObeyTheSchedule | apps/rig/assets/rig.js:754-785 | After any frame a rig with nobody on is not waiting for an operator, one with somebody on does not stand by, and where no move is put off it is in the turn in progress; seconds go to the fault, the outage or neither. |
| PedalsKeep.TakeStaysWithItsMaker | apps/rig/assets/rig.js:413-428 | From the press that starts a take until it lands, through any frames, its id, its maker and the stint's owner stay, and nothing is filed. |
| PedalsKeep.LandingFilesOnce | apps/rig/assets/rig.js:430-457 | A landing files the take under its maker, then one stint block under the stint's owner exactly when something was due. |
| PedalsKeep.BlockHasTheTake | apps/rig/assets/rig.js:525-545 | That block counts the take that just landed. |
| PedalsTurns.TakeFromStartToLanding | apps/rig/assets/rig.js:413-457 | In any run, from the press that starts a take to the press that lands it: the take is filed once, under who was on at the first press, with the seconds of the frames it was recorded in, and one stint block follows, under the stint's owner, exactly when some frame between saw nobody or another turn. |
| PedalsKeep.FiledUnderTheMakerIff | apps/rig/assets/rig.js:1187-1196 | Work is filed under the captured turn exactly when one was captured or nobody is on when it lands. |
| PedalsTurns.UncapturedTakeGoesToTheNext | apps/rig/assets/rig.js:1187-1196 | A reachable take begun with nobody on is filed under the next operator. |
| PedalsKeep.OwnerChangesOnlyAtTheStart | apps/rig/assets/rig.js:557-568 | A stint's owner changes only where a stint begins with nothing counted. |
| PedalsTurns.FirstTurnBeginsFreeIff | apps/rig/assets/rig.js:548-573 | Whatever a rig that came up with nobody due did before its first turn, nothing is filed as the turn begins, the stint is its operator's and starts at zero, exactly when the turn finds the rig on standby; in a check or a fault report the wait is charged, as stated. |
| PedalsTurns.OpenCheckAtTheFirstTurn | apps/rig/assets/rig.js:772-784 | A reachable run of the failing kind: a check begun on standby is open as the first turn begins; the standby is filed as that operator's stint and the check is never made. |
| PedalsTurns.OpenFaultAtTheFirstTurn | apps/rig/assets/rig.js:772-784 | The other kind: a fault report is open; once it is fixed the next frame files the whole wait as that operator's stint. |
| PedalsTurns.WakesByTheCheck | apps/rig/assets/rig.js:604-607 | In every run a turn that finds the rig on standby takes it to the handover if a check was passed since it came up or came to rest, and otherwise to the check. |
| PedalsTurns.WakesToTheCheckUnlessPassed | apps/rig/assets/rig.js:772-776 | A rig that came up with nobody due, or came to rest, and stood by with nobody on since, wakes to the handover exactly when some press in between passed the check. |
| PedalsTimes.PassingTheCheck | apps/rig/assets/rig.js:400-410 | In every run a check is passed early, back to standby, exactly when it was begun there and nobody is on; before any other work it is filed with the seconds of the frames so far, faults left out. |
| PedalsTimes.FaultFromFirstToLast | apps/rig/assets/rig.js:370-398 | From the press that names the part to the press that ends the report: it files the part and the seconds of the frames between, excluded if fixed and all given back if withdrawn. |
| PedalsTimes.OutageFromFirstToLast | apps/rig/assets/rig.js:466-492 | From the press that names the problem to the press that says it is solved: it files the seconds of the frames between, and excludes them. |
| PedalsTimes.FiledUnderWhoeverIsOn | apps/rig/assets/rig.js:1187-1196 | What reports the moment is filed under whoever is on; the end of a session under the stint's owner. |
| PedalsTimes.BlockUnderItsOwner | apps/rig/assets/rig.js:525-545 | A frame that ends a stint files its block, time included, under the stint's owner. |
| Schedules.InForce | backend/core/workflows/schedules.py:33-79 | Of the rows in the order the database is asked for: the newest push near today whose window covers now, else the nearest of those near today, else the newest of all. |
| Schedules.NothingInForceIsMissedIff | backend/core/workflows/schedules.py:47-60 | Looking a day either way misses nothing in force exactly when the window lies within the day before and the day after its date. |
| Schedules.DeskSheetsAreFound | backend/core/workflows/schedules.py:47-60 | So no sheet the desk writes is missed while it runs, in any zone up to a day from UTC. |
| Schedules.Nearest | backend/core/workflows/schedules.py:82-119 | The next to start; when all have finished, the last to finish; ties by date and label. |
| Schedules.TiesGoByDateAndLabel | backend/core/workflows/schedules.py:105-119 | Of those that start together the first by date and label, of those that finished together the last, of those with no window the first. |
| Schedules.Pick | apps/server/server.js:231-252 | The push server's choice, with no tie-break. |
| Schedules.WindowsAgreeIff | backend/core/rules/floor.py:240-274 | The service and the engine read the same window exactly when the sheet says where it ends and in what zone, or the zones agree. |
| Schedules.WindowReadsTheWall | packages/engine/rotation-engine.js:496-564 | A window opens when the floor's clock reads the sheet's date and start and closes within a day when it reads its end, after eight hours if there is none; no zone means UTC. |
| Schedules.EastIsEarlier | packages/engine/rotation-engine.js:496-564 | So many hours east of UTC, the same wall time comes so many hours earlier. |
| Schedules.ServiceReadsTheSameIff | backend/core/rules/floor.py:240-274 | The service, which keeps UTC, reads the same window as soon as the sheet says where it ends. |
| Schedules.OrderDoesNotMatter | backend/core/workflows/schedules.py:82-119 | With each push's windows disjoint, any two row orders that agree with the push times choose the same date and label, provided some sheet is near today or the newest push has one shift in it. |
| Schedules.OldSheetsDependOnOrder | backend/core/workflows/schedules.py:71-79 | Otherwise there is an order of the same rows, newest first, that chooses another shift. |
| Schedules.ServiceAndServerAgree | apps/server/server.js:231-252 | Out of one push near today with disjoint windows and distinct starts and ends, the service and the push server choose the same sheet, in whatever order each has them. |
| Schedules.ThreeShiftsTileTheDay | packages/engine/rotation-engine.js:22-28 | Exactly one of a date's three shifts covers each instant of that date. |
| RateLimit.RateLimiter.Allow | backend/services/rigs/ratelimit.py:76-109 | One call refills, spends or refuses as the bucket function says, and never tracks more than 4096 keys. |
| RateLimit.NewKeyHasItsBurst | backend/services/rigs/ratelimit.py:56-98 | A key not seen before can make exactly its burst of calls at once: the burst given, or else a minute's worth and at least one. |
| RateLimit.WindowBound | backend/services/rigs/ratelimit.py:76-109 | In any stretch of time under a clock that does not run back, one key is let through at most its burst plus its rate times the time, whoever else calls. |
| RateLimit.WaitingIsEnough | backend/services/rigs/ratelimit.py:101-109 | A tracked key told to wait is refused until then and let through after it, however many calls come between. |
| RateLimit.NoRoomIsForEver | backend/services/rigs/ratelimit.py:90-96 | A caller turned away because too many are tracked is never let through, however long it waits and whoever else calls. |
| RateLimit.OffLetsAllThrough | backend/services/rigs/ratelimit.py:83-84 | A limiter that is off lets every call through and tracks nothing. |

## Left out

- PipelineSafety.NothingAcknowledgedIsLost: an append at or below the batch in flight is set aside when it returns, although it is lost only if that batch is then answered.
- VideoSafety.LetGoMeansHeld: the row is followed for one take and one camera, with the worker's batch seen from that row; the batch over the whole table is `VideoDrain`.
- VideoDrain.Worker.DrainBatch: `expire_archive` and `expire_pending` as loops over the table are not modelled; their steps on one row are in `VideoTake`.
- Journals.Uploader.SendEvents: the reply and how far each write got are parameters; HTTP, tokens and JSON are not modelled.
- Plans.BuildPlan: block lengths are positive and a stint is at least a block, as the desk offers them.
- Projection.Worker.ProjectBatch: one worker; two workers with SKIP LOCKED can apply batches out of order.
- ProjectionReplay.InterleavingDoesNotMatter: rows carry no surrogate ids and no source_event, which differ after a restore.
- RateLimit.WindowBound: `forget` is not modelled, nor a clock that runs backwards.
- PedalsKeep.RunKeeps: `resync`, the demo keys and seeded screens, the accelerated clock and a machine with no identity are not modelled.
- DeskAgreement.BoardTellsThePlan: whole minutes; the seconds subtracted from every countdown are the same for all.
- Accounts, sessions, invitations, rig identity and tokens; the alert sweep, backlog, scores and efficiency tables; the desk's roster editing and grid drawing.
- The push log and state file of the push server, and the payload validator.
- Time-zone database lookups.
