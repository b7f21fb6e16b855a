# Verification of the uml test runner

A Dafny 4.11 model of the parts of this repository that have to be right under concurrency, and proofs
about it. `dafny verify dfyconfig.toml` checks everything.

The runner boots guests, runs the *phases* of a test spec on them as a graph, follows the guests'
journals meanwhile, can be paused and reached into, pushes its progress to monitors, talks to an agent
in each guest over a small RPC protocol, forwards host ports into guests, and writes reports. Each part
is a module here:

| files | what they are about |
|---|---|
| `phases.dfy` | which phases depend on a phase, which are ready, which may start together |
| `schedule.dfy` | the scheduler as a state machine: a step is what runs between two awaits |
| `schedule_safety.dfy`, `schedule_waits.dfy`, `schedule_outcome.dfy`, `schedule_only.dfy`, `schedule_progress.dfy`, `schedule_pauses.dfy`, `schedule_serial.dfy` | theorems about all runs of that machine |
| `schedule_loop.dfy` | the scheduler and the session as objects whose methods make the machine's steps |
| `control.dfy` | pausing and continuing, between the drive and the clients of the control socket; that desk beside the scheduler |
| `lines.dfy`, `journal.dfy`, `settle.dfy` | reading a growing file by lines; journals becoming events; the token barrier |
| `attribution.dfy` | the scheduler and the journals together: whose lines are filed under which phase |
| `monitor.dfy` | a run's events to those who watch it, from the push to the exit status |
| `wire.dfy`, `boxing.dfy`, `rpc.dfy` | framing, boxing, and the two endpoints of the RPC protocol |
| `forward.dfy` | port forwards: addresses, passt's specs, and what the user is told |
| `report.dfy`, `junit.dfy` | the time a run accounts for, and its JUnit report |

Concurrency is cooperative: code between two awaits is one step, and any enabled step may come next, so
a lemma about every list of steps is a lemma about every interleaving. Outcomes of phases, contents of
files, what the kernel takes or binds, and parsers are parameters. Where the source updates fields or
loops over local variables, a class or a method does the same here and is proved to make the machine's
step or compute the specification's value; the theorems are about those.

A spec is taken to be what Nix asserts it is (`modules/run.nix`): distinct names, every `after` names a
phase, no cycle, every node is a machine.

## Where the code does less than it says

- **`--only` and failures.** A failure is promised to skip only what has not started
  (`pkgs/uml/uml/cli.py:342-345`). With `--only`, `dependents` walks through deselected phases while
  `ready` does not wait for what is behind them, so a failure can mark a phase that is already in
  `_schedule`'s `running`, which then runs and passes nonetheless, while one at a time it would have been
  skipped: `ScheduleOnly.OnlySkipsALaunchedPhase`. A selection is *firm* if there is no *opening* in it:
  no two selected phases, one of which depends on the other, such that some phases can end, some of them
  failing, until nothing the two wait for is left. Firm selections keep all promises, and an opening
  breaks them: with a guest to each phase there is the run above. So being firm is exactly the condition,
  for any spec: `ScheduleOnly.OnlyExactly`. It is a matter of graph and selection alone. Every run without
  `--only` is firm, and every `--only` of a single phase; more generally every *linked* selection, in
  which one selected phase depends on another, where it does at all, by selected phases alone. Where
  nothing selected waits for an `always` phase the two are the same. Where something does, a failure
  elsewhere can be what opens it, by letting the `always` phase go on: `ScheduleOnly.FailureLetsItThrough`,
  and without that failure's link the selection is firm: `ScheduleOnly.FirmThoughNotLinked`.
- **A second `continue`.** `_continuing` is cleared only by a client that finds the pause still there.
  A second `continue` accepted before the drive wakes and answered after leaves the flag up, and then any
  request, even `state`, ends the next pause: `Control.SecondContinueOutlivesItsPause`.
  `Control.FlagUpExactly` says by which requests the flag is up as a pause begins, and
  `Control.PauseNeedsItsOwnContinue` that exactly then it needs no `continue` of its own.
- **Paused means nothing is running** (`pkgs/uml/uml/cli.py:347-350`), unless a phase was sent by hand:
  while one client's `run` is under way another's `exec` is accepted: `Control.ExecBesideARunByHand`.
- **Truncated journals.** A truncated file that has grown to the old size again, or past it, by the next
  read is read on from the old place: `Journal.TruncationSeenExactly`, and an input,
  `Journal.TruncationMissed`.
- **Replies.** A made-up reply that finds its call waiting is believed: `Rpc.ForgedReplyIsBelieved`. One
  that cannot be unboxed has its call popped and then raises, so the endpoint closes and the call waits
  for good: `Rpc.UnboxableReplyForgets`; a waiting call is missing from the pending ones for that reason
  and no other, `Rpc.NoneForgotten`.
- **Late calls.** A call on a closed connection raises and leaves its future pending for good:
  `Rpc.LateCallStaysPending`; `Rpc.WaitingOnceClosed` says exactly which calls of a closed connection wait.
- **Reachable ports.** `reachable` names a port of the block by which privileged ports are reached as if
  it led to itself, and says of a port that is both privileged and ephemeral that nothing leads to it:
  `Forward.AgreeExactly`, `Forward.BlockLeadsElsewhere`.
- **Guests on one address.** Guests are said never to collide because they are on different addresses
  (`pkgs/uml-runner/uml_runner/forward.py:16-20`). What is handed out is distinct, but an address a rule
  names is never looked at: a guest that names 127.0.0.2 and one without an address are both put there with
  all their ports, `Forward.TwoOnOneAddress`. An address handed out is another guest's too if and only if a
  rule of that guest names it: `Forward.SharedExactly`.
- **A write that fails inside a frame** (`pkgs/uml-runner/uml_runner/arpyc.py:110-115`) raises, and the
  part already written stays in the pipe. A later `send` is then read as the rest of the broken frame, and
  the next header is looked for past the beginning of it: `Wire.OutOfStep`.
- **Text in the JUnit report.** Escaping gives the text back to whoever reads the entities, but a document
  with a control character, as an ANSI escape in a traceback, is not XML: `JUnit.LegalExactly`. Of legal
  text the body of a failure is kept exactly without carriage returns, and its message, an attribute,
  exactly without tabs and line ends: `JUnit.BodyKept`, `JUnit.AttributeKept`.
- **Steps that overlap.** The comment at `pkgs/uml-runner/uml_runner/report.py:56-58` says overlapping
  steps are counted once. Steps that overlap without nesting, as guests that boot together and phases that
  run side by side do, are counted less than once: `Report.OverlapIsLost`, `Report.PhasesSideBySide`. By
  how much is `Report.NeverTooMuch`; when the steps stay nested, `Report.Recorder.Record`.

## Model

| member | source | states |
|---|---|---|
| Phases.Dependents | pkgs/uml/uml/phases.py:56-81 | the loop ends, and answers exactly the phases some chain of phases that are not `always` leads to from the named one, without it |
| Phases.DependentsLeastFixpoint | pkgs/uml/uml/phases.py:65-81 | with its root the answer is closed under one more link, and inside every closed set that holds the root |
| Phases.DependentsIgnoreOrder | pkgs/uml/uml/phases.py:65-68 | lists with the same phases, in any order, sorted or cyclic, give the same answer |
| Phases.ChooseLaunchable | pkgs/uml/uml/phases.py:136-159 | the loop computes the greedy choice the next two lemmas are about |
| Phases.GreedyExclusiveAndMaximal | pkgs/uml/uml/phases.py:141-159 | chosen phases share no guest with the running ones or each other, and each ready phase left out shares one with those or a chosen one |
| Phases.FirstStarts | pkgs/uml/uml/phases.py:149-159 | with nothing running the first ready phase is always started, first |
| Phases.LaunchableExactly | pkgs/uml/uml/phases.py:149-159 | in the order of the list, exactly those ready phases start that share no guest with a running one or one chosen before them |
| Phases.ClaimsMeet | pkgs/uml/uml/phases.py:123-133 | two phases share a guest if and only if they name one in common, or one of them names none or is a pytest phase |
| Phases.SortedIsAcyclic | modules/run.nix:26-34 | a list in which each phase comes after what it names, names told apart, names its own phases only and has no cycle |
| Schedule.TodoFacts | pkgs/uml/uml/cli.py:386-391 | what one turn starts are candidates that conflict with nothing running nor with each other, and something if nothing runs and anything is ready |
| ScheduleSafety.StepKeeps | pkgs/uml/uml/cli.py:366-395 | every step of loop or task keeps tasks, states, attributions and wake-ups consistent, whatever was selected |
| ScheduleSafety.MutualExclusion | pkgs/uml/uml/phases.py:123-159 | in every reachable state no two running phases name a guest in common, and a pytest phase or one without nodes is the only one running |
| ScheduleSafety.AttributionExact | pkgs/uml/uml/session.py:631-635 | in every reachable state a guest is filed under a phase if and only if that phase is RUNNING, has a task, and either names the guest or names none at all |
| ScheduleSafety.TurnIsMaximal | pkgs/uml/uml/cli.py:386-391 | after a parallel turn without a pending pause, every ready phase not running names a guest that a running one names, or one of the two claims them all |
| ScheduleOutcome.AllSelectedIsLinked | pkgs/uml/uml/cli.py:230-249 | a run without `--only` is linked |
| ScheduleOutcome.OneSelectedIsLinked | pkgs/uml/uml/cli.py:230-249 | so is an `--only` of one phase, whatever it comes after |
| ScheduleOutcome.LinkedIsFirm | pkgs/uml/uml/phases.py:56-120 | a linked selection is firm: back along a selected chain everything must have ended, up to the phase the chain begins with |
| ScheduleOutcome.FailureSparesLaunched | pkgs/uml/uml/session.py:676-678 | for firm selections, no phase in `running`, even still PENDING in its first drain, is among the dependents of a phase that may yet fail, nor skipped |
| ScheduleOutcome.SkippedExactly | pkgs/uml/uml/session.py:676-685 | for firm selections, in every reachable state a selected phase is SKIPPED if and only if a chain of phases that are not `always` leads to it from a FAILED one |
| ScheduleOutcome.NothingPending | pkgs/uml/uml/cli.py:396-405 | past the loop no phase is left PENDING or RUNNING: the error there cannot be emitted for a spec from Nix |
| ScheduleOutcome.FinalStates | pkgs/uml/uml/cli.py:366-395 | for firm selections, a finished run's states: a selected phase is skipped if and only if a chain leads to it from a selected one that would fail, else it has its own outcome; for linked ones that is the recursion over `after`: skipped if not `always` and something it names failed or was skipped |
| ScheduleOutcome.ScheduleIndependence | pkgs/uml/uml/cli.py:330-395 | for firm selections, two finished runs of one graph with the same outcomes end in the same states, whatever the guests, serial or not, breakpoints and interleaving |
| ScheduleOutcome.SucceedsExactly | pkgs/uml/uml/phases.py:162-176 | whatever is selected, a finished run has passed if and only if every selected phase's outcome is a pass |
| ScheduleOutcome.PassedExactly | pkgs/uml/uml/phases.py:162-176 | in every reachable state, of a run just begun, halfway or over, `passed` is true if and only if every selected phase is PASSED |
| Phases.AnythingElseFails | pkgs/uml/uml/phases.py:162-176 | in any states at all, one phase that is neither PASSED nor DESELECTED is enough not to pass: also an INTERRUPTED one, which no run here reaches |
| ScheduleOnly.OpeningIsReached | pkgs/uml/uml/phases.py:65-120 | where there is an opening, with a guest to each phase there is a run in which the phase depended on is running and the other is in `running`, pending; only the phases of the opening end, and only those it has fail |
| ScheduleOnly.ParallelPasses | pkgs/uml/uml/session.py:676-678 | and goes on: the one's failure skips the other in `running`, that begins and passes, and the run ends so |
| ScheduleOnly.SerialSkips | pkgs/uml/uml/cli.py:387-391 | while one at a time, with the same outcomes, it ends skipped |
| ScheduleOnly.LinkedOrLoneGap | pkgs/uml/uml/phases.py:103-120 | in a linked selection a selected phase waits for every selected one it depends on, and where it always does the selection is linked if nothing selected waits for an `always` phase |
| ScheduleOnly.OpeningBreaks | pkgs/uml/uml/cli.py:366-395 | so neither do failures spare launched phases, nor, for a sorted list, equal outcomes give equal states, over all guests and breakpoints |
| ScheduleOnly.LoneGapOpens | pkgs/uml/uml/phases.py:56-120 | a selected phase that depends on another and does not wait for it makes an opening that needs no failure, once what the two wait for has ended |
| ScheduleOnly.OnlyExactly | pkgs/uml/uml/cli.py:230-249 | for any spec and selection: failures spare what is launched over all guests, breakpoints and interleavings if and only if the selection is firm; for a sorted list final states depend on outcomes alone if and only if it is; and where nothing selected waits for an `always` phase that is to be linked |
| ScheduleOnly.OnlySkipsALaunchedPhase | pkgs/uml/uml/session.py:676-678 | for any names, the smallest such spec: a failure marks a phase in `running` SKIPPED; and two finished runs with equal outcomes in which that phase passes and is skipped |
| ScheduleOnly.FailureLetsItThrough | pkgs/uml/uml/phases.py:103-120 | for any names, a spec in which a phase waits for another by way of an `always` phase alone, without a lone gap: a third phase's failure lets the `always` phase go on, and the run above follows |
| ScheduleOnly.FirmThoughNotLinked | pkgs/uml/uml/phases.py:56-120 | without the one link to that third phase the same spec is firm, though not linked |
| ScheduleWaits.OnlyThroughTheGap | pkgs/uml/uml/phases.py:56-120 | whatever is selected, in every reachable state each chain by which a phase in `running` depends on one still running passes through a deselected phase |
| ScheduleProgress.StepLowers | pkgs/uml/uml/cli.py:366-395 | every step lowers an explicit measure over unlaunched, launched and begun phases, unreported failures and unused breakpoints |
| ScheduleProgress.RunsAreBounded | pkgs/uml/uml/cli.py:366-395 | no run is longer than 6 steps a phase, 2 a breakpoint and 2 |
| ScheduleProgress.NeverStuck | pkgs/uml/uml/cli.py:392-395 | a run that is not over has a next step, any task may be the next to go on, and where it waits with `changed` unset only a task can: no wake-up is lost |
| ScheduleProgress.DoneLeavesNothing | pkgs/uml/uml/cli.py:392-396 | when the loop is left no task is under way and every phase has an answer, whatever was selected |
| SchedulePauses.PausedMeansQuiet | pkgs/uml/uml/cli.py:347-349 | while paused `running` is empty, no guest is held and no phase is RUNNING |
| SchedulePauses.BreakpointsHold | pkgs/uml/uml/cli.py:373-383 | a launched breakpoint phase had its own pause, over before the launch, and never another |
| SchedulePauses.FailuresPauseFirst | pkgs/uml/uml/cli.py:371-383 | with `break_on_failure`, between a failure and any later launch lies a finished pause that reports it |
| SchedulePauses.PausesHaveReasons | pkgs/uml/uml/cli.py:371-383 | and there is no other pause: each is for a breakpoint phase, or with `break_on_failure` for phases that have failed |
| ScheduleSerial.SerialPrefix | pkgs/uml/uml/cli.py:387-391 | a serial run of a sorted list has never two tasks, and at any moment has launched a prefix of what the plain loop runs |
| ScheduleSerial.SerialRefinement | pkgs/uml/uml/cli.py:387-391 | a finished serial run launched the same phases in the same order and ended in the same states as running each phase still PENDING in turn |
| ScheduleSerial.SerialInListOrder | pkgs/uml/uml/cli.py:387-391 | that order is the list's, leaving out exactly the skipped and the deselected |
| ScheduleLoop.Session.Start | pkgs/uml/uml/session.py:631-636 | the phase is RUNNING, and every guest it names, or every guest if it names none, and no other is now filed under it |
| ScheduleLoop.Session.Fail | pkgs/uml/uml/session.py:654-687 | the phase is FAILED, exactly its pending dependents become SKIPPED in one stretch, and exactly the guests it names, or all if it names none, are released |
| ScheduleLoop.Session.Pass | pkgs/uml/uml/session.py:704-716 | the phase is PASSED, exactly those guests are released, nothing else changes |
| ScheduleLoop.Session.Release | pkgs/uml/uml/session.py:718-720 | these guests are held by nobody, and all others as before |
| ScheduleLoop.Scheduler.Turn | pkgs/uml/uml/cli.py:366-395 | one turn over the loop's variables makes the state machine's turn |
| ScheduleLoop.Scheduler.Advance | pkgs/uml/uml/cli.py:352-395 | so does each step of the loop, of a pause and of a task |
| ScheduleLoop.RunToEnd | pkgs/uml/uml/cli.py:366-395 | the loop and its tasks halt under any order of steps, having made a run of the machine that ends past the loop, in which whatever is wished for next is next if it can be |
| ScheduleLoop.Drive | pkgs/uml/uml/cli.py:271-297 | for firm selections, under any order a drive ends in the states `FinalStates` says, and passes if and only if every selected phase does |
| Control.PauseNeedsItsOwnContinue | pkgs/uml/uml/control.py:255-283 | a pause is ended only by a `continue` asked for in it if and only if `_continuing` is clear as it begins |
| Control.SecondContinueOutlivesItsPause | pkgs/uml/uml/control.py:249-267 | a run from the start by which it begins set |
| Control.RepliesOwed | pkgs/uml/uml/control.py:234-267 | over any moves from the start, a reply can be sent or dropped exactly while a client that asked has neither, and a pause can begin exactly when none is open |
| Control.ContinueIsKept | pkgs/uml/uml/control.py:262-267 | a `continue` accepted in a pause stays in force while that lasts, whatever other clients do, and the next reply sent to anybody releases the drive |
| Control.FlagUpExactly | pkgs/uml/uml/control.py:249-283 | as a pause is about to begin `_continuing` is set if and only if a `continue` was accepted after an earlier pause's release, before the drive woke, and no reply was sent in a pause since |
| Control.PausedIsHolding | pkgs/uml/uml/control.py:210-212 | in every reachable state of desk and scheduler together the controller is paused if and only if the scheduler holds |
| Control.AcceptedMeansQuiet | pkgs/uml/uml/control.py:277-290 | whatever but `state` is accepted, no task of the schedule is under way, and of the schedule's own entries no guest is held and no phase RUNNING; so what is under way, and what else the session's `running` and `state` then hold, was sent by hand |
| Control.ExecBesideARunByHand | pkgs/uml/uml/control.py:277-290 | in any pause a client's `run` and then another's `exec` beside it are accepted, and the `run` can end |
| Control.RoomRuns | pkgs/uml/uml/control.py:234-267 | what happens to desk and scheduler together is a run of each, so what is proved of either holds of the two |
| Control.Controller.BeginPause | pkgs/uml/uml/control.py:234-249 | a pause begins with its event unset, and leaves `_continuing` as it was |
| Control.Controller.EndPause | pkgs/uml/uml/control.py:250-253 | it is over only once its event is set, and then nothing is paused |
| Control.Controller.Handle | pkgs/uml/uml/control.py:269-290 | answers true if and only if the request is `state` or a pause is on; `_continuing` is up if and only if it was, or this is a `continue` in a pause |
| Control.Controller.Answered | pkgs/uml/uml/control.py:262-267 | after its reply a client ends the pause if and only if the flag is up and there is one, taking the flag down |
| Lines.PiecesCut | pkgs/uml/uml/journal.py:105-105 | the pieces joined by newlines are the stream, and none has a newline in it |
| Lines.PiecesOfJoin | pkgs/uml/uml/journal.py:105-105 | it is the only such cut |
| Lines.ReadOn | pkgs/uml/uml/journal.py:137-137 | cutting what was left over with what comes next gives the lines and the rest of the whole, for a cut anywhere |
| Journal.ReadIsExact | pkgs/uml/uml/journal.py:123-138 | one read hands over exactly the lines completed by what it took in: nothing for a missing file, all anew for a smaller one |
| Journal.TruncationSeenExactly | pkgs/uml/uml/journal.py:128-130 | after a read the reader has the file as it is if and only if the file shrank or begins with what was read before |
| Journal.TruncationMissed | pkgs/uml/uml/journal.py:128-132 | of a line replaced by another of its length nothing is ever handed over |
| Journal.TailRefinesSplit | pkgs/uml/uml/journal.py:109-138 | over any reads of a growing file, cut anywhere, the lines handed over are the non-empty complete lines of it, once each in order, and what is kept is what follows the last newline |
| Journal.Tail.Read | pkgs/uml/uml/journal.py:123-138 | the method keeps its place exact, and its lines are what the file's split has more than before |
| Settle.EventsAreTheFile | pkgs/uml/uml/session.py:396-420 | under any interleaving of writes and drains the events of a guest are the parsable lines read so far without markers, in file order, once each, and no marker is an event |
| Settle.EntriesExactly | pkgs/uml/uml/session.py:406-420 | an event is made of a line if and only if it parses and its identifier is not `uml-settle` |
| Settle.TokensExactly | pkgs/uml/uml/session.py:410-412 | and a token is in by exactly the lines that are `uml-settle`'s |
| Settle.TokenIsABarrier | pkgs/uml/uml/session.py:434-436 | once a guest's token is in, every complete line before it in the guest's file has been processed and emitted |
| Settle.LoggedBeforeFinished | pkgs/uml/uml/session.py:704-715 | so in the whole event list what a guest logged before its token stands before the end of the phase that waited for it |
| Attribution.DrainFilesExactly | pkgs/uml/uml/session.py:417-417 | in every reachable state of scheduler and journals together, a drain files a guest's lines under a phase if and only if that phase is RUNNING, and either names the guest or names none; and any guest's file may be written or drained next |
| Attribution.WrittenIsFiled | pkgs/uml/uml/session.py:403-420 | in every reachable state what a guest writes is read by its next drain: each entry of a line completed since the last is one event, in the file's order, under the phase just said, and its tokens are in |
| Attribution.GoesOn | pkgs/uml/uml/cli.py:366-395 | any other step of the scheduler is possible beside the journals as it is alone, and touches none of them |
| Attribution.FiledUnderItsPhase | pkgs/uml/uml/session.py:399-401 | whoever drains, and whatever else runs, the parsable lines read from a guest between a phase's start and its end there are each one event, in order, under that phase and no other |
| Attribution.AllFiledInTime | pkgs/uml/uml/session.py:704-715 | if the phase ends with its tokens in, every complete line before the guest's token has been read by then, and the phase's end comes after |
| Attribution.EndIsNext | pkgs/uml/uml/session.py:652-720 | in every reachable state any phase past its first drain may end, in time once its tokens are in, or with its time up: its end is the next event either way, and no guest is filed under it any more |
| Settle.DrainBringsTokens | pkgs/uml/uml/session.py:460-462 | a token whose line is complete in the file is in after one drain of it: the wait is for writing only |
| Settle.Drainer.DrainGuest | pkgs/uml/uml/session.py:405-420 | the loop over a guest's new lines settles the markers and emits the rest under the holder, as the machine's step does |
| Settle.Drainer.Drain | pkgs/uml/uml/session.py:403-420 | the loop over the guests, each file and holder as found when its turn comes, is a run in which each file grows to that and is drained |
| Settle.Drainer.Settle | pkgs/uml/uml/session.py:460-463 | with any drains of `follow` between its own, it is a run of the same machine; it answers that the time was up if and only if no drain within its rounds finds every missing token's line complete, waits as few rounds as bring the tokens and none if they are in, and then has exactly what was found by its last drain: what is said of a phase that ends in time holds of it |
| Monitor.Delivery | pkgs/uml-eval/uml_eval/server.py:306-327 | what a monitor that connects at any time has been sent is a prefix of the run's pushes, closed exactly at the first `finished` or `exited`, and until then whatever is missing can be sent |
| Monitor.Run.Publish | pkgs/uml-eval/uml_eval/server.py:241-242 | every monitor that is not done has the event at the end of its queue, and the others are untouched |
| Monitor.Run.Push | pkgs/uml-eval/uml_eval/server.py:235-242 | backlog and queues make the machine's push |
| Monitor.Run.Connect | pkgs/uml-eval/uml_eval/server.py:308-311 | a new monitor starts with the backlog as it is, and no event falls between that and its queue |
| Monitor.Run.Send | pkgs/uml-eval/uml_eval/server.py:314-326 | a monitor's next event is sent; after a terminal one, and only then, it leaves the watchers |
| Monitor.Follow | pkgs/uml/uml/monitor.py:67-84 | for any chunking, prints what the complete lines of all the bytes say up to the first `finished` or `exited`, and answers 0 if and only if that is `finished` with `passed` true, 1 for any other `finished`, 2 for `exited`, and 3 if there is none |
| Monitor.OutcomeOfPrefix | pkgs/uml/uml/monitor.py:75-84 | of a stream broken off anywhere, the events printed begin those sent, and only the last byte of a verdict's line brings its status, 0, 1 or 2 as above |
| Monitor.Watch | pkgs/uml/uml/monitor.py:33-84 | from push to exit: `uml monitor` answers 0 if and only if the run's first `finished` or `exited` says it passed, 1 if and only if it is any other `finished`, 2 if and only if it is `exited`, each provided the stream was closed after it and came whole; else 3 |
| Wire.UnpackInverts | pkgs/uml-runner/uml_runner/arpyc.py:38-38 | four bytes give back every length below 2 to the 32 |
| Wire.RoundTrip | pkgs/uml-runner/uml_runner/arpyc.py:141-148 | for any payloads, partial writes, chunks and interleaving, what is received begins what was sent, and is all of it if and only if nothing is left to write, feed or read; what is there can be written and fed in any part, and what no frame can carry is never sent |
| Wire.FrameLayout | pkgs/uml-runner/uml_runner/arpyc.py:141-148 | a frame byte by byte: the length most significant first, zero for not compressed, the payload, a newline; refused exactly from 2 to the 32 on |
| Wire.CanFinish | pkgs/uml-runner/uml_runner/arpyc.py:97-148 | from wherever a run has got to, a run leads on to where all that was sent is received |
| Wire.FdStream.Write | pkgs/uml-runner/uml_runner/arpyc.py:110-115 | all is handed over if every `os.write` takes something; else exactly what those before the failing one took is, a proper prefix |
| Wire.FdStream.Send | pkgs/uml-runner/uml_runner/arpyc.py:147-148 | the whole frame is handed over, always if every `os.write` takes something, or it raises: before anything is written for a payload too long, else with part of it |
| Wire.FdStream.Read | pkgs/uml-runner/uml_runner/arpyc.py:141-145 | one awaited part of `recv` takes exactly its bytes from the front of the buffer |
| Wire.Receive | pkgs/uml-runner/uml_runner/arpyc.py:97-108 | after each chunk the payloads received so far begin those sent, and are all of them once the last chunk is in |
| Wire.OutOfStep | pkgs/uml-runner/uml_runner/arpyc.py:110-148 | with a proper, non-empty part of a frame in the pipe and then another, the reader is past that one's beginning before it looks for a header again: its bytes were taken for the rest of the header, or for the rest of the payload |
| Boxing.BoxDumpable | pkgs/uml-runner/uml_runner/arpyc.py:199-207 | a boxed value can be dumped if and only if it is built from atoms, tuples, lists, and dicts with dumpable keys |
| Boxing.RoundTrip | pkgs/uml-runner/uml_runner/arpyc.py:199-215 | unboxing a boxed value gives it back with lists turned into tuples, dicts in order |
| Boxing.TupledIsFixed | pkgs/uml-runner/uml_runner/arpyc.py:209-215 | what arrived can be sent on and arrives as it is |
| Boxing.UnboxIsPlain | pkgs/uml-runner/uml_runner/arpyc.py:209-215 | whatever brine loads, well made or not, if it can be unboxed has no lists left, each key of a dict once, and can be sent on to arrive as it is |
| Boxing.AcrossTheWire | pkgs/uml-runner/uml_runner/arpyc.py:217-218 | the same over brine, if that loads what it dumped |
| Rpc.EachItsOwnAnswer | pkgs/uml-runner/uml_runner/arpyc.py:241-285 | for both endpoints and any run of calls, cancellations, closings, resent and made-up replies: a finished call heard one reply while it waited and has what that said; if it was not made up, that is the answer to the call's own request, which the peer was given once and in turn |
| Rpc.SentExactly | pkgs/uml-runner/uml_runner/arpyc.py:277-284 | a call is numbered and pending, and its request goes out, under that number, if and only if the endpoint is open and brine can carry it; else it raises |
| Rpc.ServedExactly | pkgs/uml-runner/uml_runner/arpyc.py:222-239 | an open endpoint closes on a request it can unbox if and only if brine cannot carry what the service returned; else exactly one reply goes out, under the request's number: the boxed result, the exception, or one that says it could not be unboxed |
| Rpc.CallComesBack | pkgs/uml-runner/uml_runner/arpyc.py:241-285 | between open endpoints with empty wires, for any request and answer that can be boxed and carried, the call ends with that answer, lists as tuples, and both stay open and idle |
| Rpc.CancelledStays | pkgs/uml-runner/uml_runner/arpyc.py:251-253 | cancelled before its request is read it stays so, its answer is dropped, and both stay open |
| Rpc.ResentIsDropped | pkgs/uml-runner/uml_runner/arpyc.py:251-257 | an answer sent twice ends its call once, and the second is dropped |
| Rpc.HangupLosesCall | pkgs/uml-runner/uml_runner/arpyc.py:260-298 | a peer that closes before it answers loses the call |
| Rpc.UnknownReplyIsDropped | pkgs/uml-runner/uml_runner/arpyc.py:251-253 | a reply to a call that is not waiting touches no future, closes nothing, and leaves every waiting call waiting |
| Rpc.ForgedReplyIsBelieved | pkgs/uml-runner/uml_runner/arpyc.py:251-255 | a run in which a number is answered before it is called, and the call has that answer |
| Rpc.CompletedOnce | pkgs/uml-runner/uml_runner/arpyc.py:251-257 | a future that is done, cancelled or lost is never changed again |
| Rpc.NoneForgotten | pkgs/uml-runner/uml_runner/arpyc.py:251-285 | pending numbers are below the next; a waiting call is not pending if and only if a reply that could not be unboxed was popped for it; between open endpoints the request or a reply of a waiting call is under way unless the call raised |
| Rpc.UnboxableReplyForgets | pkgs/uml-runner/uml_runner/arpyc.py:251-267 | a run in which that happens: the endpoint closes, nothing is pending, and the call still waits |
| Rpc.CloseResolvesAll | pkgs/uml-runner/uml_runner/arpyc.py:289-298 | closing an open connection empties the pending calls and leaves no future waiting |
| Rpc.WaitingOnceClosed | pkgs/uml-runner/uml_runner/arpyc.py:251-298 | whatever has come since, a call of a closed connection waits if and only if it was made after the closing and no reply was received for it, or a reply that could not be unboxed was popped for it and it was not cancelled |
| Rpc.LateCallStaysPending | pkgs/uml-runner/uml_runner/arpyc.py:279-298 | through any further run, closings included, a call made on a closed connection stays pending and waiting until a reply to its number is received |
| Rpc.AsyncConnection.Call | pkgs/uml-runner/uml_runner/arpyc.py:277-284 | the call is numbered and pending before it can raise; it raises if and only if the connection is closed or brine cannot carry the request, else that is sent under its number |
| Rpc.AsyncConnection.Answer | pkgs/uml-runner/uml_runner/arpyc.py:251-267 | a reply completes its own pending future if nothing has, is dropped if there is none waiting, and closes the connection if it cannot be unboxed |
| Rpc.AsyncConnection.Dispatch | pkgs/uml-runner/uml_runner/arpyc.py:222-239 | the boxed result or the exception is sent under the request's number, an exception if it cannot be unboxed; the connection closes, and nothing is sent, if and only if brine cannot carry the result |
| Rpc.AsyncConnection.Close | pkgs/uml-runner/uml_runner/arpyc.py:289-298 | the loop turns exactly the waiting pending futures into lost ones; a second close changes nothing |
| Forward.Remap | pkgs/uml-runner/uml_runner/forward.py:154-194 | the loop computes the rule and the notes the next lemma is about |
| Forward.NeverSilent | pkgs/uml-runner/uml_runner/forward.py:157-160 | a note names a listed port if and only if the kernel keeps its host port: it is moved by the offset, or gone if that is off; and a listed port is still there if and only if no note names it or another is moved onto it |
| Forward.NothingElse | pkgs/uml-runner/uml_runner/forward.py:177-194 | what is forwarded is exactly what was listed and could stay, and what was moved |
| Forward.DroppedExactly | pkgs/uml-runner/uml_runner/forward.py:154-194 | a rule is left out if and only if it lists ports and none of them can stay or be moved |
| Forward.WideIsTold | pkgs/uml-runner/uml_runner/forward.py:163-175 | a wide rule is told of the ports below the start, unless that is 1 or less, and truly: without remapping nothing leads to them, with it the port so much higher does and no other |
| Forward.WantedExactly | pkgs/uml-runner/uml_runner/forward.py:113-124 | what is probed is port 65534 if any of the rules is wide and every host port a rule lists, ascending, each once |
| Forward.Probe | pkgs/uml-runner/uml_runner/forward.py:211-223 | answers none if and only if every port binds, else the first that does not |
| Forward.Assign | pkgs/uml-runner/uml_runner/forward.py:226-238 | the least octet from 2 to 254 that is untaken, on which 65534 binds if any of the rules is wide, and every host port any of them lists; none if and only if there is no such octet |
| Forward.Addresses.Resolve | pkgs/uml-runner/uml_runner/forward.py:241-269 | a guest with a rule without an address is given that octet, `taken` grows by it and nothing else, and it fails exactly where there is none |
| Forward.ResolvedHaveAddresses | pkgs/uml-runner/uml_runner/forward.py:253-267 | every resolved rule has its own address, or the one all of the guest's rules without one share |
| Forward.ResolveAll | pkgs/uml-runner/uml_runner/forward.py:246-248 | over any guests with one `taken` each is given the least free octet after those before it, and the first for which there is none ends it |
| Forward.AddressesDistinct | pkgs/uml-runner/uml_runner/forward.py:246-256 | assigned addresses lie in 127.0.0.2-254, were untaken, and no two guests share one |
| Forward.SharedExactly | pkgs/uml-runner/uml_runner/forward.py:253-267 | an address handed out to one guest is in another guest's resolved rules if and only if a rule of that one's that survives names it |
| Forward.TwoOnOneAddress | pkgs/uml-runner/uml_runner/forward.py:226-261 | for any such rules: a guest that names 127.0.0.2 and one without an address, both wide, are both resolved to 127.0.0.2 |
| Forward.FreshHost | pkgs/uml-runner/uml_runner/forward.py:229-234 | where everything binds the guests that need one get 127.0.0.2 and on, in turn |
| Forward.FreshHostFull | pkgs/uml-runner/uml_runner/forward.py:235-238 | and the 254th, first of all, gets none |
| Forward.SortedInPlace | pkgs/uml-runner/uml_runner/forward.py:294-298 | the spec of a rule that lists ports has them by host port, and those of one host port as the rule has them |
| Forward.FindReachable | pkgs/uml-runner/uml_runner/forward.py:331-353 | the loop computes the list the next three lemmas are about |
| Forward.AgreeExactly | pkgs/uml-runner/uml_runner/forward.py:292-353 | for a guest port, `reachable` names of a rule exactly the host ports passt's specs take to it, if and only if the rule is not wide and shifting or the port is neither in the shifted block nor both privileged and ephemeral |
| Forward.BlockLeadsElsewhere | pkgs/uml-runner/uml_runner/forward.py:307-313 | in that block the port `reachable` names leads to the guest port it was shifted from, and no other |
| Forward.ReachableExactly | pkgs/uml-runner/uml_runner/forward.py:331-353 | for a list of rules that agree on a port, an address and port are named if and only if a rule of that address delivers there |
| Report.Toplevel | pkgs/uml-runner/uml_runner/report.py:167-185 | the sweep computes the sum over the counted steps the next lemmas are about |
| Report.NestedIsExact | pkgs/uml-runner/uml_runner/report.py:167-177 | for steps pairwise nested or disjoint inside, the sum is the number of milliseconds some step covers |
| Report.NeverTooMuch | pkgs/uml-runner/uml_runner/report.py:168-185 | for any steps the counted ones do not overlap, and the sum falls short of the time covered by exactly what none of them covers |
| Report.OverlapIsLost | pkgs/uml-runner/uml_runner/report.py:54-59 | two steps that overlap without nesting are counted as the first alone |
| Report.Recorder.Record | pkgs/uml-runner/uml_runner/report.py:70-79 | a step that ends now, its text cut to its first 200 characters, comes after all recorded before; the steps stay pairwise nested if and only if none of those began before it and ended inside it |
| Report.Recorder.Exit | pkgs/uml/uml/session.py:722-728 | any timer may end next, as phases do: its step runs from its start to now, and the steps stay nested exactly as `Record` says |
| Report.Recorder.Accounted | pkgs/uml-runner/uml_runner/report.py:142-149 | of what any timers record the sum is the time covered, less exactly what no counted step covers: nothing, if the steps are nested |
| Report.TimersInside | pkgs/uml-runner/uml_runner/report.py:61-68 | a wait with a round trip in it is accounted for to the millisecond |
| Report.PhasesSideBySide | pkgs/uml/uml/session.py:722-728 | of two phases side by side, the first begun ending first, what the second ran after it is left out |
| JUnit.Report | pkgs/uml/uml/events.py:163-247 | the loop computes the rows and sums the next lemmas are about |
| JUnit.ReportAgrees | pkgs/uml/uml/events.py:166-168 | each phase that failed, was interrupted or has a failing test contributes a failure, there is none without such a phase, and failures and skips fit the rows |
| JUnit.OwnRowUnlessShown | pkgs/uml/uml/events.py:174-176 | a phase that failed or was interrupted has no row of its own if and only if a failing test of it has one |
| JUnit.RowExactly | pkgs/uml/uml/events.py:181-214 | an event has a row if and only if it was not by hand and is a test's, or the end of a phase somebody asked for that has no test, or failed or was interrupted without a failing one |
| JUnit.RowSays | pkgs/uml/uml/events.py:196-241 | a row is a failure if and only if the test failed or broke down, or the phase failed or was interrupted, and skipped if and only if they were; it is classed under its phase, or the suite |
| JUnit.BodySays | pkgs/uml/uml/events.py:218-236 | a failure has the whole error, and in short the message, or else the error's first line; a skip has its reason; each with what stands for an absent one |
| JUnit.SumsExactly | pkgs/uml/uml/events.py:215-241 | the failures, skips and time of the suite are those of its rows |
| JUnit.ByHandCountsForNothing | pkgs/uml/uml/events.py:178-185 | an event of what was run by hand, anywhere among the others, changes nothing of the report |
| JUnit.ChainIsMap | pkgs/uml/uml/events.py:154-160 | the four replacements in turn are one pass over the characters |
| JUnit.EscapeRoundTrip | pkgs/uml/uml/events.py:154-160 | a reader of the entities has the text back, and no angle bracket or quote is left in it |
| JUnit.LegalExactly | pkgs/uml/uml/events.py:154-160 | escaped text is legal by section 2.2 of XML 1.0 if and only if the text is: no control character is escaped |
| JUnit.LineEndsExactly | pkgs/uml/uml/events.py:227-230 | how a reader takes line ends, by section 2.11 of XML 1.0: each of the three ways to end a line becomes a newline, and the line stays as it is |
| JUnit.BodyKept | pkgs/uml/uml/events.py:227-230 | after a reader's handling of line ends by section 2.11 of XML 1.0 the body of a failure is the text if and only if that has no carriage return |
| JUnit.AttributeKept | pkgs/uml/uml/events.py:227-237 | and after that of an attribute's white space by section 3.3.3 its message is if and only if it has no tab, newline or carriage return |

## Left out

- Cancellation and INTERRUPTED phases: not steps of the scheduler here. A `run` sent by hand is counted while it is under way, but what it does to the phase states is not modelled.
- Booting, sockets, processes, the bodies of `exec`, `inject` and pytest, and the evidence written beside the phase states.
- Real time: `settle`'s timeout is a number of drains, clocks are whole milliseconds, rounding to three places is not modelled.
- The order in which one failure's skips are emitted: it is a set's iteration order, so the log holds them as a set.
- Settle: the world's files only grow; a journal that is truncated is `Journal`'s subject alone. Guests that are dead or not streaming have no token, and are not in the theorems about tokens.
- A drain is one step for each file, as the lock and the single read of each file make it; a stat and a read that see different sizes are not modelled. That a phase begins right after a drain of its own is not used: its lines are those read from its start on.
- `Runs._watch`, which can exit before it sees the verdict: the model starts from the events pushed. A monitor that goes away, and a push while a finished one is still being closed, are not steps.
- JSON, brine's and vinegar's bytes, UTF-8 and zlib: codecs are parameters with the law they are used for; a frame is never sent compressed.
- Boxing.Value: brine's atoms are numbers and texts, equal only if they are the same; Python's equalities between numbers of different types are not modelled.
- Rpc: the handlers for PING and CLOSE, which no `call` uses; writes that fail only because the peer is gone are a Close of one's own.
- Forward.Forwards: the meaning of a spec in weak mode, not passt's grammar or its fatal overlaps; `probe`, which repeats `_probe` for each rule, and `to_args`, which prefixes each spec with its protocols' flags.
- JUnit.Suite: the text around the escaped fields, the three decimals of a time, and lone surrogates in a text.
- `Broadcast`, `render`, `summarise`, `select`, `Report._by_command` and the Kubernetes helpers: one pass each.
