/** The pause protocol, read off the log: what a pause waits for, and what waits for a pause. */
module SchedulePauses {
  import opened Options
  import opened Phases
  import opened Schedule
  import opened ScheduleSafety

  predicate IsBreak(note: Note, n: string) {
    note.Paused? && note.reason.Before? && note.reason.name == n
  }

  predicate Reports(note: Note, n: string) {
    note.Paused? && note.reason.AfterFailed? && n in note.reason.names
  }

  /** The pause at `i` was over by `j`. */
  predicate OverBy(log: seq<Note>, i: int, j: int) {
    0 <= i < i + 1 < j <= |log| && log[i + 1].Resumed?
  }

  /** A pause before a phase is recorded once, and exactly for the phases in `paused_before`. */
  ghost predicate BreaksOnce(log: seq<Note>, pausedBefore: set<string>) {
    && (forall n :: n in pausedBefore ==> exists i :: 0 <= i < |log| && IsBreak(log[i], n))
    && (forall i, n :: 0 <= i < |log| && IsBreak(log[i], n) ==> n in pausedBefore)
    && (forall i, j, n :: 0 <= i < j < |log| && IsBreak(log[i], n) ==> !IsBreak(log[j], n))
  }

  /** No breakpoint phase is launched before its own pause. */
  ghost predicate BreaksFirst(breaks: set<string>, log: seq<Note>) {
    forall j :: 0 <= j < |log| && log[j].Launched? && log[j].name in breaks ==>
      exists i :: 0 <= i < j && IsBreak(log[i], log[j].name)
  }

  /** Nothing at all happens between a pause and its end. */
  ghost predicate PausesQuiet(log: seq<Note>, holding: bool) {
    && (forall i, j :: 0 <= i < j < |log| && j == i + 1 && log[i].Paused? ==> log[j].Resumed?)
    && (holding <==> log != [] && log[|log| - 1].Paused?)
  }

  /** A failure not reported by a pause yet is in `failed`. */
  ghost predicate FailuresKept(log: seq<Note>, failed: seq<string>) {
    forall i :: 0 <= i < |log| && log[i].Ended? && !log[i].ok ==>
      log[i].name in failed || exists k :: i < k < |log| && Reports(log[k], log[i].name)
  }

  /** Nothing is launched between a failure and the pause that reports it. */
  ghost predicate FailuresFirst(log: seq<Note>) {
    forall i, j :: 0 <= i < j < |log| && log[i].Ended? && !log[i].ok && log[j].Launched? ==>
      exists k :: i < k < j && Reports(log[k], log[i].name)
  }

  ghost predicate Protocol(cfg: Config, log: seq<Note>, failed: seq<string>, pausedBefore: set<string>, holding: bool) {
    && BreaksOnce(log, pausedBefore)
    && BreaksFirst(cfg.breaks, log)
    && PausesQuiet(log, holding)
    && (cfg.breakOnFailure ==> FailuresKept(log, failed) && FailuresFirst(log))
  }

  lemma BreaksOnceCarries(log: seq<Note>, note: Note, pausedBefore: set<string>)
    requires BreaksOnce(log, pausedBefore) && !(note.Paused? && note.reason.Before?)
    ensures BreaksOnce(log + [note], pausedBefore)
  {
    var l := log + [note];
    forall n | n in pausedBefore ensures exists i :: 0 <= i < |l| && IsBreak(l[i], n) {
      var i :| 0 <= i < |log| && IsBreak(log[i], n);
      assert IsBreak(l[i], n);
    }
  }

  lemma QuietCarries(log: seq<Note>, note: Note, holding: bool)
    requires PausesQuiet(log, holding) && !note.Paused? && (holding ==> note.Resumed?)
    ensures PausesQuiet(log + [note], false)
  {
  }

  /** Anything that is neither a pause, a launch nor a failure. */
  lemma AppendPlain(cfg: Config, log: seq<Note>, note: Note, failed: seq<string>, pausedBefore: set<string>,
      holding: bool)
    requires Protocol(cfg, log, failed, pausedBefore, holding)
    requires !note.Paused? && !note.Launched? && (note.Ended? ==> note.ok)
    requires holding ==> note.Resumed?
    ensures Protocol(cfg, log + [note], failed, pausedBefore, false)
  {
    hide BreaksOnce, BreaksFirst, PausesQuiet, FailuresKept, FailuresFirst;
    BreaksOnceCarries(log, note, pausedBefore);
    QuietCarries(log, note, holding);
    Carry(cfg, log, note, failed);
  }

  /** What the appended note does not concern stays as it was. */
  lemma Carry(cfg: Config, log: seq<Note>, note: Note, failed: seq<string>)
    requires !note.Launched? && BreaksFirst(cfg.breaks, log)
    ensures BreaksFirst(cfg.breaks, log + [note])
    ensures FailuresFirst(log) ==> FailuresFirst(log + [note])
    ensures FailuresKept(log, failed) && (note.Ended? && !note.ok ==> note.name in failed) ==>
      FailuresKept(log + [note], failed)
  {
    var l := log + [note];
    forall j | 0 <= j < |l| && l[j].Launched? && l[j].name in cfg.breaks
      ensures exists i :: 0 <= i < j && IsBreak(l[i], l[j].name)
    {
      var i :| 0 <= i < j && IsBreak(log[i], log[j].name);
      assert IsBreak(l[i], l[j].name);
    }
    if FailuresFirst(log) {
      forall i, j | 0 <= i < j < |l| && l[i].Ended? && !l[i].ok && l[j].Launched?
        ensures exists k :: i < k < j && Reports(l[k], l[i].name)
      {
        var k :| i < k < j && Reports(log[k], log[i].name);
        assert Reports(l[k], l[i].name);
      }
    }
    if FailuresKept(log, failed) && (note.Ended? && !note.ok ==> note.name in failed) {
      forall i | 0 <= i < |l| && l[i].Ended? && !l[i].ok && l[i].name !in failed
        ensures exists k :: i < k < |l| && Reports(l[k], l[i].name)
      {
        var k :| i < k < |log| && Reports(log[k], log[i].name);
        assert Reports(l[k], l[i].name);
      }
    }
  }

  lemma AppendFailure(cfg: Config, log: seq<Note>, n: string, failed: seq<string>, pausedBefore: set<string>)
    requires Protocol(cfg, log, failed, pausedBefore, false)
    ensures Protocol(cfg, log + [Ended(n, false)], failed + [n], pausedBefore, false)
  {
    var note := Ended(n, false);
    assert FailuresKept(log, failed) ==> FailuresKept(log, failed + [n]);
    hide BreaksOnce, BreaksFirst, PausesQuiet, FailuresKept, FailuresFirst;
    BreaksOnceCarries(log, note, pausedBefore);
    QuietCarries(log, note, false);
    Carry(cfg, log, note, failed + [n]);
  }

  lemma AppendPause(cfg: Config, log: seq<Note>, reason: Reason, failed: seq<string>, pausedBefore: set<string>)
    requires Protocol(cfg, log, failed, pausedBefore, false)
    requires reason.Before? ==> reason.name !in pausedBefore
    requires cfg.breakOnFailure && failed != [] ==> reason == AfterFailed(failed)
    ensures Protocol(cfg, log + [Paused(reason)], [],
                     if reason.Before? then pausedBefore + {reason.name} else pausedBefore, true)
  {
    var note := Paused(reason);
    var l := log + [note];
    var later := if reason.Before? then pausedBefore + {reason.name} else pausedBefore;
    forall m | m in later ensures exists i :: 0 <= i < |l| && IsBreak(l[i], m) {
      if m in pausedBefore {
        var i :| 0 <= i < |log| && IsBreak(log[i], m);
        assert IsBreak(l[i], m);
      } else {
        assert IsBreak(l[|log|], m);
      }
    }
    Carry(cfg, log, note, failed);
    if cfg.breakOnFailure {
      forall i | 0 <= i < |l| && l[i].Ended? && !l[i].ok
        ensures exists k :: i < k < |l| && Reports(l[k], l[i].name)
      {
        if l[i].name in failed { assert Reports(l[|log|], l[i].name); }
      }
    }
  }

  lemma AppendLaunch(cfg: Config, log: seq<Note>, note: Note, failed: seq<string>, pausedBefore: set<string>)
    requires Protocol(cfg, log, failed, pausedBefore, false)
    requires note.Launched? && (note.name in cfg.breaks ==> note.name in pausedBefore)
    requires cfg.breakOnFailure ==> failed == []
    ensures Protocol(cfg, log + [note], failed, pausedBefore, false)
  {
    hide BreaksOnce, BreaksFirst, PausesQuiet, FailuresKept, FailuresFirst;
    BreaksOnceCarries(log, note, pausedBefore);
    QuietCarries(log, note, false);
    LaunchCarries(cfg, log, note, failed, pausedBefore);
  }

  lemma AppendLaunches(cfg: Config, log: seq<Note>, more: seq<Note>, failed: seq<string>, pausedBefore: set<string>)
    requires Protocol(cfg, log, failed, pausedBefore, false)
    requires forall i :: 0 <= i < |more| ==>
      more[i].Launched? && (more[i].name in cfg.breaks ==> more[i].name in pausedBefore)
    requires cfg.breakOnFailure ==> failed == []
    ensures Protocol(cfg, log + more, failed, pausedBefore, false)
    decreases |more|
  {
    hide Protocol;
    if more == [] {
      assert log + more == log;
    } else {
      AppendLaunch(cfg, log, more[0], failed, pausedBefore);
      AppendLaunches(cfg, log + [more[0]], more[1..], failed, pausedBefore);
      assert (log + [more[0]]) + more[1..] == log + more;
    }
  }

  lemma LaunchCarries(cfg: Config, log: seq<Note>, note: Note, failed: seq<string>, pausedBefore: set<string>)
    requires BreaksOnce(log, pausedBefore) && BreaksFirst(cfg.breaks, log)
    requires cfg.breakOnFailure ==> FailuresKept(log, failed) && FailuresFirst(log)
    requires note.Launched? && (note.name in cfg.breaks ==> note.name in pausedBefore)
    requires cfg.breakOnFailure ==> failed == []
    ensures BreaksFirst(cfg.breaks, log + [note])
    ensures cfg.breakOnFailure ==> FailuresFirst(log + [note]) && FailuresKept(log + [note], failed)
  {
    var l := log + [note];
    forall j | 0 <= j < |l| && l[j].Launched? && l[j].name in cfg.breaks
      ensures exists i :: 0 <= i < j && IsBreak(l[i], l[j].name)
    {
      var i :| 0 <= i < j && IsBreak(log[i], l[j].name);
      assert IsBreak(l[i], l[j].name);
    }
    if cfg.breakOnFailure {
      forall i, j | 0 <= i < j < |l| && l[i].Ended? && !l[i].ok && l[j].Launched?
        ensures exists k :: i < k < j && Reports(l[k], l[i].name)
      {
        var k :| i < k < j && Reports(log[k], log[i].name);
        assert Reports(l[k], l[i].name);
      }
      forall i | 0 <= i < |l| && l[i].Ended? && !l[i].ok
        ensures exists k :: i < k < |l| && Reports(l[k], l[i].name)
      {
        var k :| i < k < |log| && Reports(log[k], log[i].name);
        assert Reports(l[k], l[i].name);
      }
    }
  }

  ghost predicate KeepsProtocol(cfg: Config, s: State) {
    Protocol(cfg, s.log, s.failed, s.pausedBefore, s.stage == Holding)
  }

  /** What a turn launches was paused for if it is a breakpoint, and no failure waits to be reported. */
  lemma LaunchedAllowed(cfg: Config, s: State)
    requires ReasonFor(cfg, s).None?
    ensures forall n :: n in Names(Todo(cfg, s)) && n in cfg.breaks ==> n in s.pausedBefore
    ensures cfg.breakOnFailure ==> s.failed == []
  {
    TodoFacts(cfg, s);
    hide Todo, Launchable;
    forall n | n in Names(Todo(cfg, s)) && n in cfg.breaks ensures n in s.pausedBefore {
      var p :| p in Todo(cfg, s) && p.name == n;
      assert p in Candidates(cfg, s);
      assert p !in Stops(cfg, s);
    }
  }

  lemma PauseFollows(cfg: Config, s: State, reason: Reason)
    requires Protocol(cfg, s.log, s.failed, s.pausedBefore, false)
    requires ReasonFor(cfg, s) == Some(reason) && s.running == map[]
    ensures KeepsProtocol(cfg, TurnOf(cfg, s))
  {
    if reason.Before? {
      assert Stops(cfg, s)[0] in Stops(cfg, s);
    }
    AppendPause(cfg, s.log, reason, s.failed, s.pausedBefore);
    hide Protocol, Stops;
  }

  lemma LaunchesOnly(s: State, todo: seq<Phase>) returns (more: seq<Note>)
    ensures LaunchAll(s, todo).log == s.log + more
    ensures forall i :: 0 <= i < |more| ==> more[i].Launched? && more[i].name in Names(todo)
  {
    LaunchLog(s, todo);
    var t := LaunchAll(s, todo);
    hide LaunchAll;
    more := t.log[|s.log|..];
    assert t.log == s.log + more;
    forall i | 0 <= i < |more| ensures more[i].Launched? && more[i].name in Names(todo) {
      assert more[i] == t.log[|s.log| + i] == Launched(todo[i].name);
      assert todo[i] in todo;
    }
  }

  lemma LaunchFollows(cfg: Config, s: State)
    requires Protocol(cfg, s.log, s.failed, s.pausedBefore, false) && ReasonFor(cfg, s).None?
    ensures Protocol(cfg, LaunchAll(s, Todo(cfg, s)).log, s.failed, s.pausedBefore, false)
  {
    hide LaunchAll, Todo, Protocol, ReasonFor, Names;
    LaunchedAllowed(cfg, s);
    var more := LaunchesOnly(s, Todo(cfg, s));
    AppendLaunches(cfg, s.log, more, s.failed, s.pausedBefore);
  }

  lemma TurnFollows(cfg: Config, s: State)
    requires Protocol(cfg, s.log, s.failed, s.pausedBefore, false)
    ensures KeepsProtocol(cfg, TurnOf(cfg, s))
  {
    if ReasonFor(cfg, s).None? {
      LaunchFollows(cfg, s);
      LaunchEffect(s, Todo(cfg, s));
      hide LaunchAll, Todo, Protocol, ReasonFor;
    } else if s.running == map[] {
      PauseFollows(cfg, s, ReasonFor(cfg, s).value);
    } else {
      hide Protocol, ReasonFor, LaunchAll, Todo;
    }
  }

  lemma StepFollows(cfg: Config, s: State, step: Step)
    requires Inv(cfg, s) && Enabled(s, step) && KeepsProtocol(cfg, s)
    ensures KeepsProtocol(cfg, Apply(cfg, s, step))
  {
    hide Protocol, TurnOf, Tasks, Exclusive, HoldersExact, Guests, FailedStates;
    match step
    case Boot => TurnFollows(cfg, s);
    case Wake => TurnFollows(cfg, s.(changed := false));
    case Continue =>
      AppendPlain(cfg, s.log, Resumed, s.failed, s.pausedBefore, true);
      TurnFollows(cfg, s.(log := s.log + [Resumed]));
    case Begin(n) => AppendPlain(cfg, s.log, Started(n), s.failed, s.pausedBefore, false);
    case End(n, ok) =>
      if ok {
        AppendPlain(cfg, s.log, Ended(n, true), s.failed, s.pausedBefore, false);
        assert s.log + [Ended(n, true)] + [] == s.log + [Ended(n, true)];
      } else {
        var l := s.log + [Ended(n, false)];
        AppendFailure(cfg, s.log, n, s.failed, s.pausedBefore);
        AppendPlain(cfg, l, Marked(NewlySkipped(cfg.phases, s.state, n), n), s.failed + [n], s.pausedBefore, false);
      }
  }

  lemma {:induction false} RunFollows(cfg: Config, s: State, steps: seq<Step>, t: State)
    requires NodesKnown(cfg) && Inv(cfg, s) && KeepsProtocol(cfg, s) && Execute(cfg, s, steps) == Some(t)
    ensures KeepsProtocol(cfg, t)
    decreases |steps|
  {
    if steps != [] {
      StepKeeps(cfg, s, steps[0]);
      StepFollows(cfg, s, steps[0]);
      RunFollows(cfg, Apply(cfg, s, steps[0]), steps[1..], t);
    }
  }

  lemma ReachableFollows(cfg: Config, steps: seq<Step>, s: State)
    requires WellFormed(cfg) && Reaches(cfg, steps, s)
    ensures Inv(cfg, s) && KeepsProtocol(cfg, s)
  {
    InitialInv(cfg);
    ReachableInv(cfg, steps, s);
    RunFollows(cfg, Initial(cfg), steps, s);
    hide Execute;
  }

  // ── what a pause is for ───────────────────────────────────────────

  ghost predicate EndedBefore(log: seq<Note>, n: string, i: int) {
    exists k :: 0 <= k < i <= |log| && log[k] == Ended(n, false)
  }

  /** A pause is before a breakpoint's phase, or after failures if the run is to break on them. */
  ghost predicate Meant(cfg: Config, log: seq<Note>) {
    forall i :: 0 <= i < |log| && log[i].Paused? ==>
      match log[i].reason
      case Before(n) => n in cfg.breaks
      case AfterFailed(names) =>
        cfg.breakOnFailure && names != [] && forall n :: n in names ==> EndedBefore(log, n, i)
  }

  ghost predicate MeantSoFar(cfg: Config, log: seq<Note>, failed: seq<string>) {
    Meant(cfg, log) && forall n :: n in failed ==> EndedBefore(log, n, |log|)
  }

  lemma MeantCarries(cfg: Config, log: seq<Note>, more: seq<Note>, failed: seq<string>)
    requires MeantSoFar(cfg, log, failed) && forall i :: 0 <= i < |more| ==> !more[i].Paused?
    ensures MeantSoFar(cfg, log + more, failed)
  {
    var l := log + more;
    forall n, i | i <= |log| && EndedBefore(log, n, i) ensures EndedBefore(l, n, i) {
      var k :| 0 <= k < i && log[k] == Ended(n, false);
      assert l[k] == Ended(n, false);
    }
    forall n | EndedBefore(l, n, |log|) ensures EndedBefore(l, n, |l|) {
      var k :| 0 <= k < |log| && l[k] == Ended(n, false);
    }
  }

  lemma MeantPause(cfg: Config, log: seq<Note>, failed: seq<string>, reason: Reason)
    requires MeantSoFar(cfg, log, failed)
    requires match reason
      case Before(n) => n in cfg.breaks
      case AfterFailed(names) => cfg.breakOnFailure && names != [] && names == failed
    ensures MeantSoFar(cfg, log + [Paused(reason)], [])
  {
    var l := log + [Paused(reason)];
    forall n, i | i <= |log| && EndedBefore(log, n, i) ensures EndedBefore(l, n, i) {
      var k :| 0 <= k < i && log[k] == Ended(n, false);
      assert l[k] == Ended(n, false);
    }
  }

  lemma MeantTurn(cfg: Config, s: State)
    requires MeantSoFar(cfg, s.log, s.failed)
    ensures var t := TurnOf(cfg, s); MeantSoFar(cfg, t.log, t.failed)
  {
    hide MeantSoFar;
    match ReasonFor(cfg, s)
    case Some(reason) =>
      if s.running == map[] {
        if reason.Before? {
          assert Stops(cfg, s)[0] in Stops(cfg, s);
        }
        MeantPause(cfg, s.log, s.failed, reason);
      }
    case None =>
      var more := LaunchesOnly(s, Todo(cfg, s));
      LaunchEffect(s, Todo(cfg, s));
      hide LaunchAll, Todo;
      MeantCarries(cfg, s.log, more, s.failed);
  }

  lemma MeantStep(cfg: Config, s: State, step: Step)
    requires Enabled(s, step) && MeantSoFar(cfg, s.log, s.failed)
    ensures var t := Apply(cfg, s, step); MeantSoFar(cfg, t.log, t.failed)
  {
    hide MeantSoFar, TurnOf;
    match step
    case Boot => MeantTurn(cfg, s);
    case Wake => MeantTurn(cfg, s.(changed := false));
    case Continue =>
      MeantCarries(cfg, s.log, [Resumed], s.failed);
      MeantTurn(cfg, s.(log := s.log + [Resumed]));
    case Begin(n) => MeantCarries(cfg, s.log, [Started(n)], s.failed);
    case End(n, ok) =>
      var t := Apply(cfg, s, step);
      var more := [Ended(n, ok)] + if ok then [] else [Marked(NewlySkipped(cfg.phases, s.state, n), n)];
      assert t.log == s.log + more;
      MeantCarries(cfg, s.log, more, s.failed);
      if !ok {
        assert EndedBefore(t.log, n, |t.log|) by {
          assert t.log[|s.log|] == Ended(n, false);
        }
        MeantMore(cfg, t.log, s.failed, n);
      }
  }

  lemma MeantMore(cfg: Config, log: seq<Note>, failed: seq<string>, n: string)
    requires MeantSoFar(cfg, log, failed) && EndedBefore(log, n, |log|)
    ensures MeantSoFar(cfg, log, failed + [n])
  {
  }

  lemma {:induction false} MeantRun(cfg: Config, s: State, steps: seq<Step>, t: State)
    requires MeantSoFar(cfg, s.log, s.failed) && Execute(cfg, s, steps) == Some(t)
    ensures MeantSoFar(cfg, t.log, t.failed)
    decreases |steps|
  {
    hide MeantSoFar;
    if steps != [] {
      MeantStep(cfg, s, steps[0]);
      MeantRun(cfg, Apply(cfg, s, steps[0]), steps[1..], t);
    }
  }

  // ── the theorems ──────────────────────────────────────────────────

  /** Paused means nothing is running: not a phase, not a task that has yet to begin. */
  lemma PausedMeansQuiet(cfg: Config, steps: seq<Step>, s: State)
    requires WellFormed(cfg) && Reaches(cfg, steps, s) && s.stage == Holding
    ensures s.running == map[] && s.holders == map[]
    ensures forall n :: n in s.state ==> !s.state[n].Running?
    ensures s.log != [] && s.log[|s.log| - 1].Paused?
  {
    ReachableFollows(cfg, steps, s);
    hide Execute, WellFormed, Exclusive, BreaksOnce, BreaksFirst, FailuresFirst, FailuresKept;
  }

  /** A launched breakpoint phase had its own pause, begun and ended before the launch, and had it once. */
  lemma BreakpointsHold(cfg: Config, steps: seq<Step>, s: State, j: nat)
    requires WellFormed(cfg) && Reaches(cfg, steps, s)
    requires j < |s.log| && s.log[j].Launched? && s.log[j].name in cfg.breaks
    ensures exists i :: 0 <= i < j && IsBreak(s.log[i], s.log[j].name) && OverBy(s.log, i, j)
    ensures forall i, k :: 0 <= i < k < |s.log| && IsBreak(s.log[i], s.log[j].name) ==>
      !IsBreak(s.log[k], s.log[j].name)
  {
    ReachableFollows(cfg, steps, s);
    hide Execute, WellFormed, Inv, FailuresFirst, FailuresKept;
    var i :| 0 <= i < j && IsBreak(s.log[i], s.log[j].name);
    var next := i + 1;
    assert s.log[next].Resumed? && OverBy(s.log, i, j);
  }

  /** With `--break-on-failure` a failure is reported by a finished pause before anything else is launched. */
  lemma FailuresPauseFirst(cfg: Config, steps: seq<Step>, s: State, i: nat, j: nat)
    requires WellFormed(cfg) && Reaches(cfg, steps, s) && cfg.breakOnFailure
    requires i < j < |s.log| && s.log[i].Ended? && !s.log[i].ok && s.log[j].Launched?
    ensures exists k :: i < k < j && Reports(s.log[k], s.log[i].name) && OverBy(s.log, k, j)
  {
    ReachableFollows(cfg, steps, s);
    hide Execute, WellFormed, Inv, BreaksOnce, BreaksFirst, FailuresKept;
    var k :| i < k < j && Reports(s.log[k], s.log[i].name);
    var next := k + 1;
    assert s.log[next].Resumed? && OverBy(s.log, k, j);
  }

  /** There is no pause but before a breakpoint's phase and, with `--break-on-failure`, after failures. */
  lemma PausesHaveReasons(cfg: Config, steps: seq<Step>, s: State, i: nat)
    requires Reaches(cfg, steps, s) && i < |s.log| && s.log[i].Paused?
    ensures match s.log[i].reason
      case Before(n) => n in cfg.breaks
      case AfterFailed(names) => cfg.breakOnFailure && names != [] && forall n :: n in names ==>
        exists k :: 0 <= k < i && s.log[k] == Ended(n, false)
  {
    MeantRun(cfg, Initial(cfg), steps, s);
    hide Execute;
    assert Meant(cfg, s.log);
    if s.log[i].reason.AfterFailed? {
      forall n | n in s.log[i].reason.names ensures exists k :: 0 <= k < i && s.log[k] == Ended(n, false) {
        assert EndedBefore(s.log, n, i);
      }
    }
  }
}
