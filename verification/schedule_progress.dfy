/** Every run ends: a measure each step lowers, no state it can be stuck in, and nothing left pending. */
module ScheduleProgress {
  import opened Options
  import opened Phases
  import opened Schedule
  import opened ScheduleSafety
  import opened ScheduleOutcome

  /** Pending, and its task not started. */
  ghost function Unlaunched(state: States, running: map<string, Phase>): set<string> {
    set n | n in state && state[n].Pending? && n !in running
  }

  ghost function StageRank(stage: Stage): nat {
    match stage
    case Booted => 2
    case Holding => 2
    case Waiting => 1
    case Done => 0
  }

  /** Unlaunched phases, tasks yet to begin and yet to end, a failure and breakpoints yet to pause for. */
  ghost function Measure(cfg: Config, s: State): nat {
    6 * |Unlaunched(s.state, s.running)| + 5 * |s.running.Keys - s.begun| + 4 * |s.begun|
    + (if s.failed != [] then 2 else 0) + 2 * |cfg.breaks - s.pausedBefore|
    + (if s.changed then 1 else 0) + StageRank(s.stage)
  }

  lemma SubsetSize(a: set<string>, b: set<string>)
    requires a <= b
    ensures |a| <= |b| && |b| == |a| + |b - a| && (a != b ==> |a| < |b|)
  {
    assert b == a + (b - a);
  }

  lemma LaunchedWereUnlaunched(cfg: Config, s: State)
    requires s.state.Keys == Names(cfg.phases) && s.begun <= s.running.Keys
    ensures Names(Todo(cfg, s)) <= Unlaunched(s.state, s.running)
    ensures Names(Todo(cfg, s)) !! s.running.Keys
  {
    TodoFacts(cfg, s);
    CandidateFacts(cfg, s);
    hide Todo, Candidates;
    forall n | n in Names(Todo(cfg, s)) ensures n in Unlaunched(s.state, s.running) {
      var p :| p in Todo(cfg, s) && p.name == n;
      assert p in cfg.phases;
    }
  }

  /** Moving `names` from unlaunched to launched-not-begun, in numbers. */
  lemma MoveLowers(unlaunched: set<string>, keys: set<string>, begun: set<string>, names: set<string>)
    requires names <= unlaunched && names !! keys && begun <= keys
    ensures 6 * |unlaunched - names| + 5 * |(keys + names) - begun| + |names| == 6 * |unlaunched| + 5 * |keys - begun|
  {
    SubsetSize(names, unlaunched);
    SubsetSize(names, (keys + names) - begun);
    assert ((keys + names) - begun) - names == keys - begun;
  }

  lemma MeasureMoves(cfg: Config, s: State, t: State, names: set<string>)
    requires t == s.(running := t.running, log := t.log) && t.running.Keys == s.running.Keys + names
    requires s.begun <= s.running.Keys && names <= Unlaunched(s.state, s.running)
    ensures Measure(cfg, t) + |names| == Measure(cfg, s)
  {
    UnlaunchedShrinks(s.state, s.running, t.running, names);
    hide Unlaunched;
    assert names !! s.running.Keys by { UnlaunchedNotRunning(s.state, s.running); }
    MoveLowers(Unlaunched(s.state, s.running), s.running.Keys, s.begun, names);
    assert t.running.Keys - t.begun == (s.running.Keys + names) - s.begun;
  }

  lemma UnlaunchedNotRunning(state: States, running: map<string, Phase>)
    ensures Unlaunched(state, running) !! running.Keys
  {
  }

  lemma UnlaunchedShrinks(state: States, running: map<string, Phase>, more: map<string, Phase>, names: set<string>)
    requires more.Keys == running.Keys + names
    ensures Unlaunched(state, more) == Unlaunched(state, running) - names
  {
  }

  /** Starting tasks moves their phases from one part of the measure to a cheaper one. */
  lemma LaunchLowers(cfg: Config, s: State)
    requires s.state.Keys == Names(cfg.phases) && s.begun <= s.running.Keys
    ensures Measure(cfg, LaunchAll(s, Todo(cfg, s))) + |Names(Todo(cfg, s))| == Measure(cfg, s)
  {
    LaunchEffect(s, Todo(cfg, s));
    LaunchedWereUnlaunched(cfg, s);
    MeasureMoves(cfg, s, LaunchAll(s, Todo(cfg, s)), Names(Todo(cfg, s)));
    hide *;
  }

  lemma RestLowers(cfg: Config, s: State)
    requires s.stage != Done
    ensures Measure(cfg, Rest(s)) <= Measure(cfg, s)
    ensures s.stage != Waiting ==> Measure(cfg, Rest(s)) < Measure(cfg, s)
  {
    hide Unlaunched;
  }

  lemma TurnLowers(cfg: Config, s: State)
    requires s.state.Keys == Names(cfg.phases) && s.begun <= s.running.Keys
    requires s.stage != Done && (s.stage != Waiting ==> s.running == map[])
    ensures Measure(cfg, TurnOf(cfg, s)) <= Measure(cfg, s)
    ensures s.stage != Waiting ==> Measure(cfg, TurnOf(cfg, s)) < Measure(cfg, s)
  {
    if ReasonFor(cfg, s).Some? && s.running == map[] {
      PauseLowers(cfg, s, ReasonFor(cfg, s).value);
    } else {
      LaunchLowers(cfg, s);
      RestLowers(cfg, s);
      LaunchEffect(s, Todo(cfg, s));
      RestLowers(cfg, LaunchAll(s, Todo(cfg, s)));
      hide LaunchAll, Todo, ReasonFor, Measure, Rest, Names;
    }
  }

  /** A pause answers a failure or uses up a breakpoint. */
  lemma PauseLowers(cfg: Config, s: State, reason: Reason)
    requires ReasonFor(cfg, s) == Some(reason) && s.running == map[] && s.stage != Done
    ensures Measure(cfg, TurnOf(cfg, s)) <= Measure(cfg, s)
    ensures s.stage != Waiting ==> Measure(cfg, TurnOf(cfg, s)) < Measure(cfg, s)
  {
    var t := TurnOf(cfg, s);
    if reason.Before? {
      var stops := Stops(cfg, s);
      assert stops[0] in stops && reason.name in cfg.breaks - s.pausedBefore;
      assert cfg.breaks - t.pausedBefore == (cfg.breaks - s.pausedBefore) - {reason.name};
      SubsetSize(cfg.breaks - t.pausedBefore, cfg.breaks - s.pausedBefore);
    }
  }

  lemma BeginCounts(keys: set<string>, begun: set<string>, n: string)
    requires n in keys && n !in begun
    ensures |keys - (begun + {n})| == |keys - begun| - 1 && |begun + {n}| == |begun| + 1
  {
    assert keys - (begun + {n}) == (keys - begun) - {n};
  }

  lemma BeginLaunchesNothing(cfg: Config, s: State, n: string)
    requires n in s.running
    ensures var t := BeginState(cfg, s, n);
      && Unlaunched(t.state, t.running) == Unlaunched(s.state, s.running)
      && t.running == s.running && t.begun == s.begun + {n} && t.failed == s.failed
      && t.pausedBefore == s.pausedBefore && t.stage == s.stage && t.changed == s.changed
  {
    hide Guests;
  }

  lemma BeginLowers(cfg: Config, s: State, n: string)
    requires n in s.running && n !in s.begun
    ensures Measure(cfg, BeginState(cfg, s, n)) < Measure(cfg, s)
  {
    BeginLaunchesNothing(cfg, s, n);
    BeginCounts(s.running.Keys, s.begun, n);
    hide BeginState, Unlaunched;
  }

  lemma FailedLaunchesNothing(phases: seq<Phase>, state: States, running: map<string, Phase>, n: string)
    ensures Unlaunched(FailedStates(phases, state, n), running - {n}) <= Unlaunched(state, running)
  {
    hide Names, DependsOn;
  }

  lemma EndedCounts(keys: set<string>, begun: set<string>, n: string)
    requires begun <= keys && n in begun
    ensures |(keys - {n}) - (begun - {n})| == |keys - begun| && |begun - {n}| == |begun| - 1
  {
    assert (keys - {n}) - (begun - {n}) == keys - begun;
  }

  lemma EndLaunchesNothing(cfg: Config, s: State, n: string, ok: bool)
    requires n in s.running
    ensures var t := EndState(cfg, s, n, ok);
      && Unlaunched(t.state, t.running) <= Unlaunched(s.state, s.running)
      && t.running.Keys == s.running.Keys - {n} && t.begun == s.begun - {n}
      && t.pausedBefore == s.pausedBefore && t.stage == s.stage
  {
    FailedLaunchesNothing(cfg.phases, s.state, s.running, n);
    hide FailedStates, NewlySkipped, Guests;
  }

  lemma EndLowers(cfg: Config, s: State, n: string, ok: bool)
    requires Tasks(cfg, s.state, s.running, s.begun) && n in s.begun
    ensures Measure(cfg, EndState(cfg, s, n, ok)) < Measure(cfg, s)
  {
    var t := EndState(cfg, s, n, ok);
    EndLaunchesNothing(cfg, s, n, ok);
    hide EndState, Unlaunched, Known, Names;
    SubsetSize(Unlaunched(t.state, t.running), Unlaunched(s.state, s.running));
    EndedCounts(s.running.Keys, s.begun, n);
  }

  /** Every step lowers the measure. */
  lemma StepLowers(cfg: Config, s: State, step: Step)
    requires Inv(cfg, s) && Enabled(s, step)
    ensures Measure(cfg, Apply(cfg, s, step)) < Measure(cfg, s)
  {
    match step
    case Boot => TurnLowers(cfg, s);
    case Wake =>
      TurnLowers(cfg, s.(changed := false));
    case Continue =>
      TurnLowers(cfg, s.(log := s.log + [Resumed]));
    case Begin(n) => BeginLowers(cfg, s, n);
    case End(n, ok) => EndLowers(cfg, s, n, ok);
    hide TurnOf, BeginState, EndState, Exclusive, HoldersExact, Tasks;
  }

  lemma {:induction false} RunLowers(cfg: Config, s: State, steps: seq<Step>, t: State)
    requires NodesKnown(cfg) && Inv(cfg, s) && Execute(cfg, s, steps) == Some(t)
    ensures |steps| + Measure(cfg, t) <= Measure(cfg, s)
    decreases |steps|
  {
    if steps != [] {
      StepKeeps(cfg, s, steps[0]);
      StepLowers(cfg, s, steps[0]);
      RunLowers(cfg, Apply(cfg, s, steps[0]), steps[1..], t);
    }
  }

  // ── the theorems ──────────────────────────────────────────────────

  /** No run is longer than the first state's measure: with phases that end and pauses that are continued, it halts. */
  lemma RunsAreBounded(cfg: Config, steps: seq<Step>, s: State)
    requires WellFormed(cfg) && Reaches(cfg, steps, s)
    ensures |steps| <= Measure(cfg, Initial(cfg)) <= 6 * |Names(cfg.phases)| + 2 * |cfg.breaks| + 2
  {
    InitialInv(cfg);
    RunLowers(cfg, Initial(cfg), steps, s);
    hide Execute;
    SubsetSize(Unlaunched(Initial(cfg).state, map[]), Names(cfg.phases));
    assert cfg.breaks - {} == cfg.breaks;
  }

  lemma SomethingEnabled(cfg: Config, s: State) returns (step: Step)
    requires Stages(cfg, s) && s.stage != Done
    ensures Enabled(s, step)
    ensures s.stage == Waiting && !s.changed ==> step.Begin? || step.End?
  {
    if s.stage == Booted {
      step := Boot;
    } else if s.stage == Holding {
      step := Continue;
    } else if s.changed {
      step := Wake;
    } else {
      var n :| n in s.running;
      step := if n in s.begun then End(n, true) else Begin(n);
    }
  }

  /** No lost wake-up: a run that is not over can go on, and waits only while a task is under way. Any
      task may be the next to go on, and the loop whenever it has been woken. */
  lemma NeverStuck(cfg: Config, steps: seq<Step>, s: State) returns (step: Step)
    requires WellFormed(cfg) && Reaches(cfg, steps, s) && s.stage != Done
    ensures Enabled(s, step)
    ensures s.stage == Waiting && !s.changed ==> step.Begin? || step.End?
    ensures forall n :: n in s.running ==>
      if n in s.begun then forall ok :: Enabled(s, End(n, ok)) else Enabled(s, Begin(n))
    ensures s.stage == Waiting && s.changed ==> Enabled(s, Wake)
  {
    ReachableInv(cfg, steps, s);
    step := SomethingEnabled(cfg, s);
  }

  /** When the loop is left no task is running and every phase has its answer. */
  lemma DoneLeavesNothing(cfg: Config, steps: seq<Step>, s: State)
    requires WellFormed(cfg) && Reaches(cfg, steps, s) && s.stage == Done
    ensures s.running == map[] && s.begun == {}
    ensures forall n :: n in s.state ==> !Unfinished(s.state[n])
    ensures s.state.Keys == Names(cfg.phases)
  {
    ReachableInv(cfg, steps, s);
    AllAnswered(cfg, s);
    hide Execute, Exclusive, HoldersExact;
  }
}
