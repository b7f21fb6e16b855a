/**
  What `--only` can break, and exactly when. `ready` (pkgs/uml/uml/phases.py:103-120) does not wait
  behind a deselected phase, while `dependents` (phases.py:56-81) walks through it. Where some phases
  can end, or fail, so that nothing keeps a selected phase from being started beside one it depends on,
  some assignment of guests has a run in which a failure skips a phase already in `running`, and the
  order of starting decides how that phase ends; and where that cannot be, no run has either.
*/
module ScheduleOnly {
  import opened Options
  import opened Phases
  import opened Schedule
  import opened ScheduleSafety
  import opened ScheduleWaits
  import opened ScheduleOutcome
  import opened ScheduleProgress
  import ScheduleSerial

  // ── a guest to each phase ─────────────────────────────────────────

  /** The same graph, each phase with a guest of its own, in parallel and without breakpoints. */
  function OwnGuests(cfg: Config): Config {
    Config(seq(|cfg.phases|, i requires 0 <= i < |cfg.phases| =>
             cfg.phases[i].(nodes := [cfg.phases[i].name], pytest := false)),
           Names(cfg.phases), cfg.selected, {}, false, false)
  }

  lemma OwnPhases(cfg: Config)
    ensures SameGraph(cfg, OwnGuests(cfg)) && Names(OwnGuests(cfg).phases) == Names(cfg.phases)
    ensures forall p :: p in OwnGuests(cfg).phases ==> !p.pytest && p.nodes == [p.name]
  {
    SameNeeds(cfg, OwnGuests(cfg));
  }

  lemma OwnIsWellFormed(cfg: Config)
    requires WellFormed(cfg)
    ensures WellFormed(OwnGuests(cfg))
  {
    var own := OwnGuests(cfg);
    OwnPhases(cfg);
    var rank :| Ranked(cfg.phases, rank);
    GraphCarries(cfg, own, rank);
    forall p, a | p in own.phases && a in p.after ensures a in Names(own.phases) {
      var i :| 0 <= i < |own.phases| && own.phases[i] == p;
      assert cfg.phases[i] in cfg.phases;
    }
    forall p | p in own.phases ensures p.name in own.machines {
      assert p.name in Names(own.phases);
    }
  }

  /** While the loop waits with nothing to wake it, every ready phase is held up by a running one. */
  ghost predicate Eager(cfg: Config, s: State) {
    s.stage == Waiting && !s.changed ==>
      forall p :: p in Ready(cfg.phases, s.state) && p.name !in s.running ==>
        exists n :: n in s.running && Claims(p, cfg.machines) * Claims(s.running[n], cfg.machines) != {}
  }

  predicate Free(cfg: Config) {
    !cfg.serial && !cfg.Controlled()
  }

  lemma StepKeepsEager(cfg: Config, s: State, step: Step)
    requires WellFormed(cfg) && Free(cfg) && Inv(cfg, s) && Enabled(s, step) && Eager(cfg, s)
    ensures Eager(cfg, Apply(cfg, s, step))
  {
    match step
    case Boot => TurnIsMaximal(cfg, s);
    case Wake => TurnIsMaximal(cfg, s.(changed := false));
    case Continue => TurnIsMaximal(cfg, s.(log := s.log + [Resumed]));
    case Begin(n) => BeginKeepsEager(cfg, s, n);
    case End(n, ok) =>
    hide TurnOf, WellFormed, Inv, Guests;
  }

  lemma BeginReadiesNothing(cfg: Config, s: State, n: string)
    requires Tasks(cfg, s.state, s.running, s.begun) && n in s.running && n !in s.begun
    ensures forall x :: Unfinished(StateOf(s.state, x)) ==> Unfinished(StateOf(BeginState(cfg, s, n).state, x))
    ensures forall x :: StateOf(BeginState(cfg, s, n).state, x).Pending? ==> StateOf(s.state, x).Pending?
    ensures BeginState(cfg, s, n).running == s.running && BeginState(cfg, s, n).stage == s.stage
    ensures BeginState(cfg, s, n).changed == s.changed
  {
    hide Guests, Names, Known;
  }

  lemma BeginKeepsEager(cfg: Config, s: State, n: string)
    requires Tasks(cfg, s.state, s.running, s.begun) && n in s.running && n !in s.begun && Eager(cfg, s)
    ensures Eager(cfg, BeginState(cfg, s, n))
  {
    var t := BeginState(cfg, s, n);
    BeginReadiesNothing(cfg, s, n);
    hide BeginState, Claims, StateOf, Unfinished, Tasks;
    forall p | p in Ready(cfg.phases, t.state) ensures p in Ready(cfg.phases, s.state) {
    }
  }

  /** So where each phase has its own guest, every ready phase has been started. */
  lemma OwnGuestsStart(cfg: Config, s: State, p: Phase)
    requires Known(OwnGuests(cfg), s.running) && Eager(OwnGuests(cfg), s) && s.stage == Waiting && !s.changed
    requires p in Ready(OwnGuests(cfg).phases, s.state)
    ensures p.name in s.running
  {
    var own := OwnGuests(cfg);
    OwnPhases(cfg);
    if p.name !in s.running {
      var n :| n in s.running && Claims(p, own.machines) * Claims(s.running[n], own.machines) != {};
      OwnClaims(cfg, p);
      OwnClaims(cfg, s.running[n]);
      assert false;
    }
  }

  lemma OwnClaims(cfg: Config, p: Phase)
    requires p in OwnGuests(cfg).phases
    ensures Claims(p, OwnGuests(cfg).machines) == {p.name}
  {
    OwnPhases(cfg);
  }

  // ── a run to where both are under way ─────────────────────────────

  /** The loop turns; `n` and `ended` begin; `ended` end, failing if they are in `fails`. Nothing else happens. */
  predicate Allowed(step: Step, n: string, ended: set<string>, fails: set<string>) {
    match step
    case Boot => true
    case Wake => true
    case Continue => true
    case Begin(x) => x == n || x in ended
    case End(x, ok) => x in ended && ok == (x !in fails)
  }

  predicate AllAllowed(steps: seq<Step>, n: string, ended: set<string>, fails: set<string>) {
    forall i :: 0 <= i < |steps| ==> Allowed(steps[i], n, ended, fails)
  }

  /** What a phase can have come to by such steps. */
  ghost predicate Fits(cfg: Config, n: string, ended: set<string>, fails: set<string>, x: string, st: PhaseState) {
    match st
    case Running => x == n || x in ended
    case Passed => x in ended && x !in fails
    case Failed => x in fails
    case Skipped => Taken(cfg, fails, x)
    case _ => true
  }

  ghost predicate AllFit(cfg: Config, state: States, n: string, ended: set<string>, fails: set<string>) {
    forall x :: x in state ==> Fits(cfg, n, ended, fails, x, state[x])
  }

  /** A failure has left nothing pending that it leads to. */
  ghost predicate FailuresMarked(cfg: Config, state: States) {
    forall f, d :: f in state && state[f].Failed? && d in state && DependsOn(cfg.phases, f, d) ==> !state[d].Pending?
  }

  ghost predicate OnPlan(cfg: Config, s: State, n: string, ended: set<string>, fails: set<string>) {
    && Inv(cfg, s) && Eager(cfg, s) && s.stage != Holding
    && AllFit(cfg, s.state, n, ended, fails) && FailuresMarked(cfg, s.state)
  }

  lemma FreeTurn(cfg: Config, s: State)
    requires Free(cfg)
    ensures TurnOf(cfg, s).stage != Holding
  {
    hide LaunchAll, Todo;
  }

  lemma StepNeverHolds(cfg: Config, s: State, step: Step)
    requires Free(cfg) && Enabled(s, step) && s.stage != Holding
    ensures Apply(cfg, s, step).stage != Holding
  {
    hide Guests, Names, Free, TurnOf, FailedStates, NewlySkipped;
    match step
    case Boot => FreeTurn(cfg, s);
    case Wake => FreeTurn(cfg, s.(changed := false));
    case Begin(x) =>
    case End(x, ok) =>
  }

  lemma EndFits(cfg: Config, s: State, x: string, ok: bool, n: string, ended: set<string>, fails: set<string>)
    requires x in s.running && x in s.state && x in ended && fails <= ended && ok == (x !in fails)
    requires AllFit(cfg, s.state, n, ended, fails)
    ensures AllFit(cfg, EndState(cfg, s, x, ok).state, n, ended, fails)
  {
    var later := EndState(cfg, s, x, ok).state;
    hide EndState;
    forall d | d in later ensures Fits(cfg, n, ended, fails, d, later[d]) {
      EndTouches(cfg, s, x, ok, d);
      if d != x && later[d] != s.state[d] {
        assert DependsOn(cfg.phases, x, d);
        hide DependsOn;
        assert Taken(cfg, fails, d);
      }
    }
  }

  lemma EndMarks(cfg: Config, s: State, x: string, ok: bool)
    requires x in s.running && x in s.state && s.state.Keys == Names(cfg.phases) && FailuresMarked(cfg, s.state)
    ensures FailuresMarked(cfg, EndState(cfg, s, x, ok).state)
  {
    var later := EndState(cfg, s, x, ok).state;
    EndTouches(cfg, s, x, ok, x);
    hide EndState;
    forall f, d | f in later && later[f].Failed? && d in later && DependsOn(cfg.phases, f, d)
      ensures !later[d].Pending?
    {
      EndTouches(cfg, s, x, ok, f);
      EndTouches(cfg, s, x, ok, d);
    }
  }

  lemma StepStaysOnPlan(cfg: Config, s: State, step: Step, n: string, ended: set<string>, fails: set<string>)
    requires Tasks(cfg, s.state, s.running, s.begun) && Enabled(s, step)
    requires Allowed(step, n, ended, fails) && fails <= ended
    requires AllFit(cfg, s.state, n, ended, fails) && FailuresMarked(cfg, s.state)
    ensures var t := Apply(cfg, s, step); AllFit(cfg, t.state, n, ended, fails) && FailuresMarked(cfg, t.state)
  {
    hide TurnOf, EndState, Guests, Names, Known, Fits, DependsOn;
    match step
    case Boot => TurnTouches(cfg, s);
    case Wake => TurnTouches(cfg, s.(changed := false));
    case Continue => TurnTouches(cfg, s.(log := s.log + [Resumed]));
    case Begin(x) =>
      assert Fits(cfg, n, ended, fails, x, Running) by { RunningFits(cfg, n, ended, fails, x); }
    case End(x, ok) =>
      EndFits(cfg, s, x, ok, n, ended, fails);
      EndMarks(cfg, s, x, ok);
  }

  lemma RunningFits(cfg: Config, n: string, ended: set<string>, fails: set<string>, x: string)
    requires x == n || x in ended
    ensures Fits(cfg, n, ended, fails, x, Running)
  {
  }

  lemma PlanGoesOn(cfg: Config, s: State, step: Step, n: string, ended: set<string>, fails: set<string>)
    requires WellFormed(cfg) && Free(cfg) && OnPlan(cfg, s, n, ended, fails) && Enabled(s, step)
    requires Allowed(step, n, ended, fails) && fails <= ended
    ensures OnPlan(cfg, Apply(cfg, s, step), n, ended, fails)
    ensures Measure(cfg, Apply(cfg, s, step)) < Measure(cfg, s)
  {
    hide Eager, AllFit, FailuresMarked, Measure, Apply, Enabled, Free, Allowed, Inv;
    TasksOf(cfg, s);
    StepLowers(cfg, s, step);
    StepKeeps(cfg, s, step);
    StepKeepsEager(cfg, s, step);
    StepNeverHolds(cfg, s, step);
    StepStaysOnPlan(cfg, s, step, n, ended, fails);
  }

  /** Whatever is allowed is let happen until nothing more can. */
  lemma RunUntilQuiet(cfg: Config, s: State, n: string, ended: set<string>, fails: set<string>)
    returns (steps: seq<Step>, t: State)
    requires WellFormed(cfg) && Free(cfg) && OnPlan(cfg, s, n, ended, fails) && fails <= ended
    ensures Execute(cfg, s, steps) == Some(t) && AllAllowed(steps, n, ended, fails) && OnPlan(cfg, t, n, ended, fails)
    ensures forall step :: Allowed(step, n, ended, fails) ==> !Enabled(t, step)
    decreases Measure(cfg, s)
  {
    hide OnPlan, WellFormed, Apply, Enabled, Measure, Allowed, Free;
    if step :| Allowed(step, n, ended, fails) && Enabled(s, step) {
      PlanGoesOn(cfg, s, step, n, ended, fails);
      var u := Apply(cfg, s, step);
      var more;
      more, t := RunUntilQuiet(cfg, u, n, ended, fails);
      steps := [step] + more;
      assert steps[1..] == more;
    } else {
      steps, t := [], s;
    }
  }

  /** Nothing allowed can happen any more: the tasks there are neither of `n`, but for its end, nor of `ended`. */
  ghost predicate Quiet(s: State, n: string, ended: set<string>) {
    && (forall x :: x in s.running && (x == n || x in ended) ==> x == n && x in s.begun)
    && (s.stage == Done || (s.stage == Waiting && !s.changed))
  }

  lemma IsQuiet(cfg: Config, s: State, n: string, ended: set<string>, fails: set<string>)
    requires OnPlan(cfg, s, n, ended, fails) && n !in ended
    requires forall step :: Allowed(step, n, ended, fails) ==> !Enabled(s, step)
    ensures Quiet(s, n, ended)
  {
    hide Inv, Eager, AllFit, FailuresMarked;
    forall x | x in s.running && (x == n || x in ended) ensures x == n && x in s.begun {
      assert x !in s.begun ==> !Enabled(s, Begin(x));
      assert x in ended ==> !Enabled(s, End(x, x !in fails));
    }
    assert !Enabled(s, Boot) && !Enabled(s, Wake);
  }

  /** In a quiet state a phase whose predecessors are all answered has been started. */
  lemma AnsweredIsStarted(cfg: Config, s: State, n: string, ended: set<string>, p: Phase)
    requires var own := OwnGuests(cfg);
      Inv(own, s) && Eager(own, s) && Quiet(s, n, ended) && p in own.phases && Answered(p, s.state)
    ensures p.name in s.state && (p.name in s.running || !s.state[p.name].Pending?)
  {
    var own := OwnGuests(cfg);
    hide Exclusive, HoldersExact, OwnGuests, Eager;
    assert p.name in Names(own.phases);
    if p.name !in s.running && s.state[p.name].Pending? {
      assert p in Ready(own.phases, s.state);
      OwnGuestsStart(cfg, s, p);
    }
  }

  /** What `x` names is answered once the phases of lower rank have come as far as they may. */
  lemma ClearedIsAnswered(
    cfg: Config, s: State, rank: map<string, nat>, n: string, ended: set<string>, fails: set<string>,
    x: string, a: string)
    requires Ranked(cfg.phases, rank) && AfterClosed(cfg.phases)
    requires Tasks(cfg, s.state, s.running, s.begun)
    requires AllFit(cfg, s.state, n, ended, fails) && FailuresMarked(cfg, s.state)
    requires Cleared(cfg, ended, fails, n) && Cleared(cfg, ended, fails, x) && fails <= ended
    requires forall y :: y in ended ==> Cleared(cfg, ended, fails, y)
    requires x in rank && forall y :: y in ended && y in rank && rank[y] < rank[x] ==>
      y in s.state && (s.state[y].Passed? || s.state[y].Failed?)
    requires Named(cfg.phases, a, x)
    ensures a in s.state && !Unfinished(s.state[a])
  {
    assert a in s.state && a in rank && rank[a] < rank[x];
    hide Named, Names, Known, Ranked, AfterClosed;
    assert Fits(cfg, n, ended, fails, a, s.state[a]);
    if a in cfg.selected && a !in ended {
      assert Taken(cfg, fails, a);
      var f :| f in fails && DependsOn(cfg.phases, f, a);
      ChainRanks(cfg, rank, f, a);
      assert Fits(cfg, n, ended, fails, f, s.state[f]);
    }
  }

  lemma ChainRanks(cfg: Config, rank: map<string, nat>, f: string, a: string)
    requires Ranked(cfg.phases, rank) && DependsOn(cfg.phases, f, a)
    ensures f in rank && a in rank && rank[f] < rank[a]
  {
    var path :| Leads(cfg.phases, f, path, a);
    ChainRises(cfg.phases, rank, path);
  }

  /** By then what can end has ended, and both phases of the opening have been started. */
  lemma {:induction false} PlanIsDone(
    cfg: Config, s: State, rank: map<string, nat>, n: string, m: string, ended: set<string>, fails: set<string>,
    x: string)
    requires var own := OwnGuests(cfg);
      && Ranked(own.phases, rank) && AfterClosed(own.phases) && DistinctNames(own.phases)
      && Opening(own, n, m, ended, fails) && OnPlan(own, s, n, ended, fails) && Quiet(s, n, ended)
      && x in rank && (x == n || x == m || x in ended)
    ensures x in s.state && (x in s.running || !s.state[x].Pending?)
    ensures x in ended ==> s.state[x].Passed? || s.state[x].Failed?
    decreases rank[x]
  {
    var own := OwnGuests(cfg);
    assert Cleared(own, ended, fails, x);
    hide OwnGuests, DependsOn, Taken;
    var p :| p in own.phases && p.name == x;
    forall y | y in ended && y in rank && rank[y] < rank[x]
      ensures y in s.state && (s.state[y].Passed? || s.state[y].Failed?)
    {
      PlanIsDone(cfg, s, rank, n, m, ended, fails, y);
    }
    TasksOf(own, s);
    hide Quiet, Inv, Eager;
    forall a | a in p.after ensures !Unfinished(StateOf(s.state, a)) {
      ClearedIsAnswered(own, s, rank, n, ended, fails, x, a);
    }
    AnsweredIsStarted(cfg, s, n, ended, p);
    ClearedUnskipped(own, s, n, ended, fails, x);
    QuietEnded(own, s, n, ended, x);
  }

  lemma ClearedUnskipped(cfg: Config, s: State, n: string, ended: set<string>, fails: set<string>, x: string)
    requires AllFit(cfg, s.state, n, ended, fails) && Cleared(cfg, ended, fails, x) && x in s.state
    ensures !s.state[x].Skipped?
  {
    assert Fits(cfg, n, ended, fails, x, s.state[x]);
  }

  lemma QuietEnded(cfg: Config, s: State, n: string, ended: set<string>, x: string)
    requires Tasks(cfg, s.state, s.running, s.begun) && Quiet(s, n, ended) && n !in ended
    requires x in s.state && x in cfg.selected && !s.state[x].Skipped? && (x in s.running || !s.state[x].Pending?)
    ensures x in ended ==> s.state[x].Passed? || s.state[x].Failed?
  {
    hide Known, Names;
  }

  lemma StartsOnPlan(cfg: Config, n: string, ended: set<string>, fails: set<string>)
    ensures OnPlan(cfg, Initial(cfg), n, ended, fails)
  {
    InitialInv(cfg);
  }

  /** So `n` is running, `m` is a task and pending. */
  lemma BothUnderWay(cfg: Config, s: State, n: string, m: string, ended: set<string>, fails: set<string>)
    requires Opening(cfg, n, m, ended, fails) && n != m && Tasks(cfg, s.state, s.running, s.begun)
    requires AllFit(cfg, s.state, n, ended, fails) && Quiet(s, n, ended)
    requires n in s.state && (n in s.running || !s.state[n].Pending?)
    requires m in s.state && (m in s.running || !s.state[m].Pending?)
    ensures n in s.begun && n in s.running && m in s.running && m !in s.begun && s.state[m].Pending?
  {
    ClearedUnskipped(cfg, s, n, ended, fails, n);
    ClearedUnskipped(cfg, s, n, ended, fails, m);
    assert Fits(cfg, n, ended, fails, n, s.state[n]) && Fits(cfg, n, ended, fails, m, s.state[m]);
    hide Known, Names, Cleared, DependsOn;
  }

  lemma OpeningEnds(cfg: Config, n: string, m: string, ended: set<string>, fails: set<string>)
    requires Acyclic(cfg.phases) && Opening(cfg, n, m, ended, fails)
    ensures n != m && m in DependentsOf(n, cfg.phases) && fails <= ended <= Names(cfg.phases)
    ensures n in Names(cfg.phases) && m in Names(cfg.phases)
  {
    NotOwnDependent(cfg.phases, n, m);
  }

  /**
    An opening is no matter of luck: with a guest to each phase there is a run in which `n` is running
    and `m`, which depends on it, in `running` and still pending in its first drain.
  */
  lemma OpeningIsReached(cfg: Config, n: string, m: string, ended: set<string>, fails: set<string>)
    returns (steps: seq<Step>, s: State)
    requires WellFormed(cfg) && Opening(cfg, n, m, ended, fails)
    ensures var own := OwnGuests(cfg);
      && WellFormed(own) && SameGraph(cfg, own) && Reaches(own, steps, s) && AllAllowed(steps, n, ended, fails)
      && n in s.begun && n in s.running && m in s.running && m !in s.begun && StateOf(s.state, m).Pending?
      && m in DependentsOf(n, own.phases)
  {
    var own := OwnGuests(cfg);
    OwnIsWellFormed(cfg);
    OwnPhases(cfg);
    SameOpenings(cfg, own);
    var rank :| Ranked(own.phases, rank);
    StartsOnPlan(own, n, ended, fails);
    assert Free(own) && n !in ended && fails <= ended;
    assert n in rank && m in rank;
    OpeningEnds(own, n, m, ended, fails);
    hide Execute, Eager, Ranked, DependentsOf, SameGraph, AllAllowed, Allowed, Exclusive, HoldersExact, AllFit;
    hide FailuresMarked, Quiet, Opening, Stages, OwnGuests, Free, Names, Acyclic, NodesKnown;
    steps, s := RunUntilQuiet(own, Initial(own), n, ended, fails);
    IsQuiet(own, s, n, ended, fails);
    PlanIsDone(cfg, s, rank, n, m, ended, fails, n);
    PlanIsDone(cfg, s, rank, n, m, ended, fails, m);
    BothUnderWay(own, s, n, m, ended, fails);
  }

  // ── two runs that end differently ─────────────────────────────────

  /** Exactly `fails` would fail. */
  function AllBut(cfg: Config, fails: set<string>): map<string, bool> {
    map x | x in Names(cfg.phases) :: x !in fails
  }

  lemma StepKeepsPassed(cfg: Config, s: State, step: Step, m: string)
    requires Tasks(cfg, s.state, s.running, s.begun) && Enabled(s, step) && StateOf(s.state, m).Passed?
    ensures StateOf(Apply(cfg, s, step).state, m).Passed?
  {
    match step
    case Boot => TurnTouches(cfg, s);
    case Wake => TurnTouches(cfg, s.(changed := false));
    case Continue => TurnTouches(cfg, s.(log := s.log + [Resumed]));
    case Begin(x) => hide Guests, Names;
    case End(x, ok) => hide DependentsOf, Guests, Names;
    hide TurnOf;
  }

  lemma OneMoreOn(cfg: Config, s: State, outcome: map<string, bool>, m: string) returns (step: Step)
    requires WellFormed(cfg) && Inv(cfg, s) && s.stage != Done
    ensures Enabled(s, step) && EndsAs(step, outcome)
    ensures var t := Apply(cfg, s, step);
      Inv(cfg, t) && Measure(cfg, t) < Measure(cfg, s) && (StateOf(s.state, m).Passed? ==> StateOf(t.state, m).Passed?)
  {
    step := SomethingEnabled(cfg, s);
    if step.End? {
      step := End(step.name, Would(outcome, step.name));
    }
    StepKeeps(cfg, s, step);
    StepLowers(cfg, s, step);
    if StateOf(s.state, m).Passed? {
      StepKeepsPassed(cfg, s, step, m);
    }
    hide Inv, WellFormed, Apply, Measure;
  }

  /** Any run can be brought to its end, each phase ending as `outcome` says. */
  lemma FinishRun(cfg: Config, s: State, outcome: map<string, bool>, m: string) returns (steps: seq<Step>, t: State)
    requires WellFormed(cfg) && Inv(cfg, s)
    ensures Execute(cfg, s, steps) == Some(t) && t.stage == Done && Follows(steps, outcome)
    ensures StateOf(s.state, m).Passed? ==> StateOf(t.state, m).Passed?
    decreases Measure(cfg, s)
  {
    hide Inv, WellFormed, Apply, Enabled, Measure, StateOf, EndsAs;
    if s.stage == Done {
      steps, t := [], s;
    } else {
      var step := OneMoreOn(cfg, s, outcome, m);
      var more;
      more, t := FinishRun(cfg, Apply(cfg, s, step), outcome, m);
      steps := [step] + more;
      assert steps[1..] == more;
    }
  }

  lemma FollowsConcat(a: seq<Step>, b: seq<Step>, outcome: map<string, bool>)
    requires Follows(a, outcome) && Follows(b, outcome)
    ensures Follows(a + b, outcome)
  {
  }

  /** A finished run of the graph, in which the phases end as `outcome` says. */
  ghost predicate Finishes(cfg: Config, steps: seq<Step>, s: State, outcome: map<string, bool>) {
    WellFormed(cfg) && Reaches(cfg, steps, s) && s.stage == Done && Follows(steps, outcome)
  }

  lemma EndSkips(own: Config, s: State, n: string, m: string)
    requires Tasks(own, s.state, s.running, s.begun) && n in s.begun && m in s.running && m !in s.begun
    requires StateOf(s.state, m).Pending? && m in DependentsOf(n, own.phases)
    ensures var t := EndState(own, s, n, false);
      m in t.running && m !in t.begun && m in t.state && t.state[m].Skipped?
  {
    hide DependentsOf, Guests, Names;
  }

  lemma SkippedState(own: Config, r: State, n: string, m: string)
    requires Inv(own, r) && n in r.begun && m in r.running && m !in r.begun
    requires StateOf(r.state, m).Pending? && m in DependentsOf(n, own.phases)
    ensures n in r.running
    ensures var s := EndState(own, r, n, false);
      && m in s.running && m !in s.begun && m in s.state && s.state[m].Skipped? && StateOf(s.state, m).Skipped?
  {
    TasksOf(own, r);
    hide Inv, DependentsOf, EndState;
    EndSkips(own, r, n, m);
  }

  /** `n` fails while `m` is started: `m` is skipped, begins all the same, and passes. */
  lemma SkippedAndPassed(own: Config, s: State, n: string, m: string) returns (u: State)
    requires WellFormed(own) && Inv(own, s) && n in s.begun && m in s.running && m !in s.begun
    requires StateOf(s.state, m).Pending? && m in DependentsOf(n, own.phases)
    ensures var failed := EndState(own, s, n, false);
      m in failed.running && m in failed.state && failed.state[m].Skipped?
    ensures Execute(own, s, [End(n, false), Begin(m), End(m, true)]) == Some(u)
    ensures Inv(own, u) && StateOf(u.state, m).Passed?
  {
    hide DependentsOf, WellFormed, Inv, EndState, Apply, Enabled, StateOf, Execute;
    SkippedState(own, s, n, m);
    AfterFailure(own, s, n);
    var failed := EndState(own, s, n, false);
    u := BeginsAndPasses(own, failed, m);
    ThenRuns(own, s, End(n, false), failed, [Begin(m), End(m, true)], u);
    assert [End(n, false), Begin(m), End(m, true)] == [End(n, false)] + [Begin(m), End(m, true)];
  }

  lemma AfterFailure(own: Config, s: State, n: string)
    requires WellFormed(own) && Inv(own, s) && n in s.begun
    ensures n in s.running && Enabled(s, End(n, false)) && Inv(own, Apply(own, s, End(n, false)))
    ensures Apply(own, s, End(n, false)) == EndState(own, s, n, false)
  {
    TasksOf(own, s);
    hide Inv, EndState, Known, Names;
    StepKeeps(own, s, End(n, false));
  }

  lemma ThenRuns(cfg: Config, s: State, step: Step, t: State, rest: seq<Step>, u: State)
    requires Enabled(s, step) && Apply(cfg, s, step) == t && Execute(cfg, t, rest) == Some(u)
    ensures Execute(cfg, s, [step] + rest) == Some(u)
  {
    hide Apply, Enabled;
    assert ([step] + rest)[1..] == rest;
  }

  lemma BeginsAndPasses(own: Config, s: State, m: string) returns (u: State)
    requires WellFormed(own) && Inv(own, s) && m in s.running && m !in s.begun
    ensures Execute(own, s, [Begin(m), End(m, true)]) == Some(u) && Inv(own, u) && StateOf(u.state, m).Passed?
  {
    hide WellFormed, Inv, EndState, BeginState, Apply, StateOf;
    var begun := AfterBegin(own, s, m);
    u := AfterPass(own, begun, m);
    ExecuteOne(own, begun, End(m, true));
    ThenRuns(own, s, Begin(m), begun, [End(m, true)], u);
    assert [Begin(m), End(m, true)] == [Begin(m)] + [End(m, true)];
  }

  lemma AfterBegin(own: Config, s: State, m: string) returns (t: State)
    requires WellFormed(own) && Inv(own, s) && m in s.running && m !in s.begun
    ensures Enabled(s, Begin(m)) && t == Apply(own, s, Begin(m)) && Inv(own, t) && m in t.begun && m in t.running
  {
    StepKeeps(own, s, Begin(m));
    t := BeginState(own, s, m);
    hide WellFormed, Inv, Guests;
  }

  lemma AfterPass(own: Config, s: State, m: string) returns (t: State)
    requires WellFormed(own) && Inv(own, s) && m in s.begun && m in s.running
    ensures Enabled(s, End(m, true)) && t == Apply(own, s, End(m, true)) && Inv(own, t) && StateOf(t.state, m).Passed?
  {
    StepKeeps(own, s, End(m, true));
    t := EndState(own, s, m, true);
    hide WellFormed, Inv, Guests, FailedStates, NewlySkipped;
  }

  /** The plan's steps are of a run in which exactly `fails` and then `n` fail. */
  lemma PlanFollows(cfg: Config, steps: seq<Step>, n: string, m: string, ended: set<string>, fails: set<string>)
    requires AllAllowed(steps, n, ended, fails) && ended <= Names(cfg.phases) && m in Names(cfg.phases)
    requires n !in ended && fails <= ended && m !in ended && n != m
    ensures Follows(steps, AllBut(cfg, fails + {n}))
    ensures Follows([End(n, false), Begin(m), End(m, true)], AllBut(cfg, fails + {n}))
  {
    hide Names;
    var outcome := AllBut(cfg, fails + {n});
    forall i | 0 <= i < |steps| ensures EndsAs(steps[i], outcome) {
      assert Allowed(steps[i], n, ended, fails);
    }
    assert Would(outcome, m) && !Would(outcome, n);
  }

  lemma ThreeRuns(cfg: Config, a: seq<Step>, r: State, b: seq<Step>, u: State, c: seq<Step>, t: State,
                  outcome: map<string, bool>)
    requires Reaches(cfg, a, r) && Execute(cfg, r, b) == Some(u) && Execute(cfg, u, c) == Some(t)
    requires Follows(a, outcome) && Follows(b, outcome) && Follows(c, outcome)
    ensures Reaches(cfg, a + b + c, t) && Follows(a + b + c, outcome)
  {
    ExecuteConcat(cfg, Initial(cfg), a, r, b);
    ExecuteConcat(cfg, Initial(cfg), a + b, u, c);
    FollowsConcat(a, b, outcome);
    FollowsConcat(a + b, c, outcome);
    hide Execute, Initial, Follows;
  }

  /** So with a guest to each phase, in parallel, `m` can pass though `n`, which it depends on, fails. */
  lemma ParallelPasses(cfg: Config, n: string, m: string, ended: set<string>, fails: set<string>)
    returns (broken: seq<Step>, s: State, steps: seq<Step>, t: State)
    requires WellFormed(cfg) && Opening(cfg, n, m, ended, fails)
    ensures var own := OwnGuests(cfg);
      && SameGraph(cfg, own) && Finishes(own, steps, t, AllBut(cfg, fails + {n})) && StateOf(t.state, m).Passed?
      && WellFormed(own) && Reaches(own, broken, s) && m in s.running && StateOf(s.state, m).Skipped?
  {
    var own, outcome := OwnGuests(cfg), AllBut(cfg, fails + {n});
    OpeningEnds(cfg, n, m, ended, fails);
    assert n !in ended && m !in ended && fails <= ended;
    hide WellFormed, Inv, DependentsOf, EndState, SameGraph, Opening, OwnGuests, AllBut, AllAllowed, Reaches;
    hide Execute, Follows, StateOf;
    var early, r := OpeningIsReached(cfg, n, m, ended, fails);
    PlanFollows(cfg, early, n, m, ended, fails);
    ReachableInv(own, early, r);
    FailureReached(own, early, r, n);
    var u := SkippedAndPassed(own, r, n, m);
    var last;
    last, t := FinishRun(own, u, outcome, m);
    ThreeRuns(own, early, r, [End(n, false), Begin(m), End(m, true)], u, last, t, outcome);
    steps := early + [End(n, false), Begin(m), End(m, true)] + last;
    s := EndState(own, r, n, false);
    broken := early + [End(n, false)];
    SkippedState(own, r, n, m);
  }

  lemma FailureReached(own: Config, early: seq<Step>, r: State, n: string)
    requires Reaches(own, early, r) && n in r.begun && n in r.running
    ensures Reaches(own, early + [End(n, false)], EndState(own, r, n, false))
  {
    hide EndState, Execute;
    OneMoreReached(own, early, r, End(n, false));
    hide Reaches;
  }

  lemma OneMoreReached(cfg: Config, steps: seq<Step>, s: State, step: Step)
    requires Reaches(cfg, steps, s) && Enabled(s, step)
    ensures Reaches(cfg, steps + [step], Apply(cfg, s, step))
  {
    ExecuteConcat(cfg, Initial(cfg), steps, s, [step]);
    ExecuteOne(cfg, s, step);
    hide Execute, Apply;
  }

  /** The same spec, one phase at a time. */
  function OneByOne(cfg: Config): Config {
    cfg.(breaks := {}, breakOnFailure := false, serial := true)
  }

  /** Along a chain in a sorted list, the later comes later. */
  lemma {:induction false} ChainInOrder(phases: seq<Phase>, n: string, path: seq<string>, m: string, j: nat)
    returns (i: nat)
    requires DistinctNames(phases) && Sorted(phases) && Leads(phases, n, path, m)
    requires j < |phases| && phases[j].name == m
    ensures i < j && phases[i].name == n
    decreases |path|
  {
    var last := |path| - 2;
    var a := path[last];
    assert Needs(phases, path[last], path[last + 1]);
    var p :| p in phases && p.name == m && !p.always && a in p.after;
    SameNameSamePhase(phases, p, phases[j]);
    assert a in Names(phases[..j]);
    var q :| q in phases[..j] && q.name == a;
    var k :| 0 <= k < j && phases[..j][k] == q;
    if |path| == 2 {
      i := k;
    } else {
      var front := path[..|path| - 1];
      assert Leads(phases, n, front, a);
      i := ChainInOrder(phases, n, front, a, k);
    }
  }

  /** The plain loop has `n` fail before it comes to `m`, if nothing before `n` skips that. */
  lemma {:induction false} PlainSkipsDependent(
    phases: seq<Phase>, k: nat, state: States, outcome: map<string, bool>, i: nat, j: nat)
    requires DistinctNames(phases) && k <= i < j < |phases| && phases[j].name in DependentsOf(phases[i].name, phases)
    requires forall x :: k <= x < |phases| ==> phases[x].name in state
    requires state[phases[i].name].Pending? && (state[phases[j].name].Pending? || state[phases[j].name].Skipped?)
    requires forall x :: k <= x < i ==>
      Would(outcome, phases[x].name) || phases[i].name !in DependentsOf(phases[x].name, phases)
    requires !Would(outcome, phases[i].name)
    ensures StateOf(ScheduleSerial.Plain(phases, k, state, outcome).1, phases[j].name).Skipped?
    decreases |phases| - k
  {
    hide DependentsOf, ScheduleSerial.Plain, ScheduleSerial.After;
    var n, first, later := phases[k].name, phases[i].name, phases[j].name;
    PlainTurn(phases, k, state, outcome);
    if k == i {
      var next := ScheduleSerial.After(phases, state, n, false);
      AfterIs(phases, state, n, false, later);
      ScheduleSerial.PlainKeeps(phases, k + 1, next, outcome, later);
    } else if StateOf(state, n).Pending? {
      AfterIs(phases, state, n, Would(outcome, n), first);
      AfterIs(phases, state, n, Would(outcome, n), later);
      PlainSkipsDependent(phases, k + 1, ScheduleSerial.After(phases, state, n, Would(outcome, n)), outcome, i, j);
    } else {
      PlainSkipsDependent(phases, k + 1, state, outcome, i, j);
    }
  }

  lemma AfterIs(phases: seq<Phase>, state: States, n: string, ok: bool, m: string)
    requires n in state && m in state && n != m
    ensures var next := ScheduleSerial.After(phases, state, n, ok);
      && next.Keys == state.Keys
      && next[m] == if !ok && m in DependentsOf(n, phases) && state[m].Pending? then Skipped else state[m]
  {
    hide DependentsOf;
  }

  /** One turn of the plain loop. */
  lemma PlainTurn(phases: seq<Phase>, k: nat, state: States, outcome: map<string, bool>)
    requires k < |phases|
    ensures var n := phases[k].name;
      var next :=
        if StateOf(state, n).Pending? then ScheduleSerial.After(phases, state, n, Would(outcome, n)) else state;
      ScheduleSerial.Plain(phases, k, state, outcome).1 == ScheduleSerial.Plain(phases, k + 1, next, outcome).1
  {
    hide ScheduleSerial.After;
  }

  lemma OneIsWellFormed(cfg: Config)
    requires WellFormed(cfg)
    ensures WellFormed(OneByOne(cfg))
  {
    hide DistinctNames, AfterClosed, Acyclic;
  }

  /** One phase at a time, `m` is skipped: `n` has failed before `m` is come to. */
  lemma SerialSkips(cfg: Config, n: string, m: string, ended: set<string>, fails: set<string>)
    returns (steps: seq<Step>, t: State)
    requires WellFormed(cfg) && Sorted(cfg.phases) && Opening(cfg, n, m, ended, fails)
    ensures SameGraph(cfg, OneByOne(cfg)) && Finishes(OneByOne(cfg), steps, t, AllBut(cfg, fails + {n}))
    ensures StateOf(t.state, m).Skipped?
  {
    var one, outcome := OneByOne(cfg), AllBut(cfg, fails + {n});
    hide Inv, WellFormed, Opening, Execute, Follows, Sorted, AllBut, Names;
    OneIsWellFormed(cfg);
    InitialInv(one);
    steps, t := FinishRun(one, Initial(one), outcome, m);
    ScheduleSerial.SerialRefinement(one, steps, t, outcome);
    PlainEnds(cfg, n, m, ended, fails);
  }

  lemma PlainEnds(cfg: Config, n: string, m: string, ended: set<string>, fails: set<string>)
    requires WellFormed(cfg) && Sorted(cfg.phases) && Opening(cfg, n, m, ended, fails)
    ensures var plain := ScheduleSerial.Plain(cfg.phases, 0, Initial(cfg).state, AllBut(cfg, fails + {n}));
      StateOf(plain.1, m).Skipped?
  {
    OpeningEnds(cfg, n, m, ended, fails);
    var i, j := OpeningInOrder(cfg, n, m, ended, fails);
    assert n in cfg.selected && m in cfg.selected && !Would(AllBut(cfg, fails + {n}), n);
    hide DependentsOf, Acyclic, AfterClosed, NodesKnown, Opening, Sorted;
    assert forall x :: 0 <= x < |cfg.phases| ==> cfg.phases[x].name in Names(cfg.phases);
    PlainSkipsDependent(cfg.phases, 0, Initial(cfg).state, AllBut(cfg, fails + {n}), i, j);
  }

  lemma OpeningInOrder(cfg: Config, n: string, m: string, ended: set<string>, fails: set<string>)
    returns (i: nat, j: nat)
    requires WellFormed(cfg) && Sorted(cfg.phases) && Opening(cfg, n, m, ended, fails)
    ensures i < j < |cfg.phases| && cfg.phases[i].name == n && cfg.phases[j].name == m
    ensures forall x :: 0 <= x < i ==>
      Would(AllBut(cfg, fails + {n}), cfg.phases[x].name) || n !in DependentsOf(cfg.phases[x].name, cfg.phases)
  {
    var path :| Leads(cfg.phases, n, path, m);
    var p :| p in cfg.phases && p.name == m;
    j :| 0 <= j < |cfg.phases| && cfg.phases[j] == p;
    i := ChainInOrder(cfg.phases, n, path, m, j);
    hide Leads, Acyclic, Sorted, AfterClosed, NodesKnown;
    forall x | 0 <= x < i
      ensures Would(AllBut(cfg, fails + {n}), cfg.phases[x].name) || n !in DependentsOf(cfg.phases[x].name, cfg.phases)
    {
      assert cfg.phases[x] in cfg.phases && cfg.phases[x].name != n;
      assert !Taken(cfg, fails, n);
    }
  }

  // ── the opening that needs no failure ─────────────────────────────

  /** `m` would be skipped for `n`, but nothing makes it wait for `n`: every chain has a deselected phase. */
  ghost predicate LoneGap(cfg: Config, n: string, m: string) {
    n in cfg.selected && m in cfg.selected && DependsOn(cfg.phases, n, m) && !Waits(cfg, n, m)
  }

  /** The selected phases that `n` or `m` waits for. */
  ghost function Awaited(cfg: Config, n: string, m: string): set<string> {
    set x | x in Names(cfg.phases) && (Waits(cfg, x, n) || Waits(cfg, x, m))
  }

  lemma AwaitedCleared(cfg: Config, n: string, m: string, x: string)
    requires WellFormed(cfg) && LoneGap(cfg, n, m) && x in Names(cfg.phases) && x in cfg.selected
    requires x == n || x == m || Waits(cfg, x, n) || Waits(cfg, x, m)
    ensures Cleared(cfg, Awaited(cfg, n, m), {}, x)
  {
    hide Names, Waits;
    forall a | a in cfg.selected && Named(cfg.phases, a, x) ensures a in Awaited(cfg, n, m) {
      assert a in Names(cfg.phases);
      if x == n || Waits(cfg, x, n) {
        WaitsFirst(cfg, a, x, n);
      } else {
        WaitsFirst(cfg, a, x, m);
      }
    }
  }

  /** A lone gap opens once what the two wait for has ended. */
  lemma LoneGapOpens(cfg: Config, n: string, m: string)
    requires WellFormed(cfg) && LoneGap(cfg, n, m)
    ensures Opening(cfg, n, m, Awaited(cfg, n, m), {})
    ensures !Firm(cfg)
  {
    var ended := Awaited(cfg, n, m);
    DependsOnNamed(cfg.phases, n, m);
    NotBothWays(cfg, n, m);
    NotOwnWait(cfg, n);
    NotOwnWait(cfg, m);
    AwaitedCleared(cfg, n, m, n);
    AwaitedCleared(cfg, n, m, m);
    forall x | x in ended ensures Cleared(cfg, ended, {}, x) {
      WaitsSelected(cfg, x);
      AwaitedCleared(cfg, n, m, x);
    }
    hide WellFormed, Waits, Cleared, DependsOn;
    assert Opening(cfg, n, m, ended, {});
  }

  lemma NotOwnWait(cfg: Config, n: string)
    requires Acyclic(cfg.phases)
    ensures !Waits(cfg, n, n)
  {
    var rank :| Ranked(cfg.phases, rank);
    if Waits(cfg, n, n) {
      WaitsRises(cfg, rank, n, n);
    }
  }

  lemma WaitsSelected(cfg: Config, x: string)
    ensures forall m :: Waits(cfg, x, m) ==> x in cfg.selected
  {
  }

  /** A phase that runs whatever happened is waited for by no selected phase: it cleans up at the end. */
  ghost predicate AlwaysLast(cfg: Config) {
    forall p, q :: p in cfg.phases && q in cfg.phases && p.name in q.after ==>
      p.name in cfg.selected && q.name in cfg.selected ==> !p.always
  }

  lemma {:induction false} WaitIsChain(cfg: Config, n: string, path: seq<string>, m: string)
    requires DistinctNames(cfg.phases) && AlwaysLast(cfg) && WaitPath(cfg, n, path, m)
    requires exists p :: p in cfg.phases && p.name == m && !p.always
    ensures SelectedChain(cfg, n, path, m)
  {
    forall i | 0 <= i < |path| - 1 ensures Needs(cfg.phases, path[i], path[i + 1]) {
      assert Named(cfg.phases, path[i], path[i + 1]);
      var p :| p in cfg.phases && p.name == path[i + 1] && path[i] in p.after;
      if i + 1 < |path| - 1 {
        var next := i + 1;
        assert Named(cfg.phases, path[next], path[next + 1]);
        var q :| q in cfg.phases && q.name == path[next + 1] && path[next] in q.after;
        assert p.name in q.after;
      } else {
        var q :| q in cfg.phases && q.name == m && !q.always;
        SameNameSamePhase(cfg.phases, p, q);
      }
    }
  }

  lemma ChainIsWait(cfg: Config, n: string, path: seq<string>, m: string)
    requires SelectedChain(cfg, n, path, m)
    ensures WaitPath(cfg, n, path, m)
  {
    forall i | 0 <= i < |path| - 1 ensures Named(cfg.phases, path[i], path[i + 1]) {
      assert Needs(cfg.phases, path[i], path[i + 1]);
    }
  }

  /** A linked selection has no lone gap; and one without a lone gap is linked, if `always` phases come last. */
  lemma LinkedOrLoneGap(cfg: Config)
    requires WellFormed(cfg)
    ensures Linked(cfg) ==> forall n, m :: !LoneGap(cfg, n, m)
    ensures AlwaysLast(cfg) && (forall n, m :: !LoneGap(cfg, n, m)) ==> Linked(cfg)
  {
    forall n, m, path | SelectedChain(cfg, n, path, m) ensures Waits(cfg, n, m) {
      ChainIsWait(cfg, n, path, m);
    }
    if AlwaysLast(cfg) && forall n, m :: !LoneGap(cfg, n, m) {
      forall n, m | n in cfg.selected && m in cfg.selected && DependsOn(cfg.phases, n, m)
        ensures exists path :: SelectedChain(cfg, n, path, m)
      {
        assert !LoneGap(cfg, n, m);
        var path :| WaitPath(cfg, n, path, m);
        var chain :| Leads(cfg.phases, n, chain, m);
        var last := |chain| - 2;
        assert Needs(cfg.phases, chain[last], chain[last + 1]);
        WaitIsChain(cfg, n, path, m);
      }
    }
  }

  // ── exactly when ──────────────────────────────────────────────────

  /** However the guests are dealt out, and with any breakpoints, equal outcomes give equal states. */
  ghost predicate Independent(cfg: Config) {
    forall a, x, s, b, y, t, outcome ::
      SameGraph(cfg, a) && Finishes(a, x, s, outcome) && SameGraph(cfg, b) && Finishes(b, y, t, outcome) ==>
        s.state == t.state
  }

  /** However the guests are dealt out, no failure marks a phase already in `running`. */
  ghost predicate SparesLaunched(cfg: Config) {
    forall a, x, s, m :: SameGraph(cfg, a) && WellFormed(a) && Reaches(a, x, s) && m in s.running ==>
      !StateOf(s.state, m).Skipped?
  }

  lemma FirmSuffices(cfg: Config)
    requires Firm(cfg)
    ensures Independent(cfg) && SparesLaunched(cfg)
  {
    hide Firm, Reaches, WellFormed, Follows, Opening;
    forall a, x, s, b, y, t, outcome |
      SameGraph(cfg, a) && Finishes(a, x, s, outcome) && SameGraph(cfg, b) && Finishes(b, y, t, outcome)
      ensures s.state == t.state
    {
      SameOpenings(cfg, a);
      SameGraphs(cfg, a, b);
      ScheduleIndependence(a, x, s, b, y, t, outcome);
    }
    forall a, x, s, m | SameGraph(cfg, a) && WellFormed(a) && Reaches(a, x, s) && m in s.running
      ensures !StateOf(s.state, m).Skipped?
    {
      SameOpenings(cfg, a);
      TaskUnskipped(a, x, s, m);
    }
  }

  lemma TaskUnskipped(cfg: Config, steps: seq<Step>, s: State, m: string)
    requires WellFormed(cfg) && Firm(cfg) && Reaches(cfg, steps, s) && m in s.running
    ensures !StateOf(s.state, m).Skipped?
  {
    ReachableTidy(cfg, steps, s);
    hide Reaches, WellFormed, Firm;
    StartedUnskipped(cfg, s, m);
  }

  lemma SameGraphs(cfg: Config, a: Config, b: Config)
    requires SameGraph(cfg, a) && SameGraph(cfg, b)
    ensures SameGraph(a, b)
  {
  }

  /** An opening breaks both promises. */
  lemma OpeningBreaks(cfg: Config, n: string, m: string, ended: set<string>, fails: set<string>)
    requires WellFormed(cfg) && Opening(cfg, n, m, ended, fails)
    ensures !SparesLaunched(cfg)
    ensures Sorted(cfg.phases) ==> !Independent(cfg)
  {
    hide Finishes, SameGraph, WellFormed, Opening, Reaches, OwnGuests, Sorted, AllBut, OneByOne;
    var broken, s, steps, t := ParallelPasses(cfg, n, m, ended, fails);
    if Sorted(cfg.phases) {
      var other, u := SerialSkips(cfg, n, m, ended, fails);
      assert t.state != u.state;
    }
    assert Reaches(OwnGuests(cfg), broken, s);
  }

  /**
    What `--only` may leave out, exactly: failures spare what is launched, and for the list Nix hands
    over final states depend on outcomes alone, if and only if the selection is firm. Where `always`
    phases come last that is to be linked.
  */
  lemma OnlyExactly(cfg: Config)
    requires WellFormed(cfg)
    ensures Firm(cfg) <==> SparesLaunched(cfg)
    ensures Sorted(cfg.phases) ==> (Firm(cfg) <==> Independent(cfg))
    ensures AlwaysLast(cfg) ==> (Firm(cfg) <==> Linked(cfg))
  {
    hide Opening, SparesLaunched, Independent, Linked, LoneGap, AlwaysLast, WellFormed, Sorted;
    if Firm(cfg) {
      FirmSuffices(cfg);
    } else {
      var n, m, ended, fails :| Opening(cfg, n, m, ended, fails);
      OpeningBreaks(cfg, n, m, ended, fails);
    }
    if Linked(cfg) {
      LinkedIsFirm(cfg);
    } else {
      LinkedOrLoneGap(cfg);
      if n, m :| LoneGap(cfg, n, m) {
        LoneGapOpens(cfg, n, m);
      }
    }
  }

  // ── instances ─────────────────────────────────────────────────────

  lemma LastWait(cfg: Config, n: string, path: seq<string>, m: string)
    requires WaitPath(cfg, n, path, m)
    ensures Named(cfg.phases, path[|path| - 2], m) && path[|path| - 2] in cfg.selected
  {
    var last := |path| - 2;
    assert Named(cfg.phases, path[last], path[last + 1]);
  }

  /** The least there is: `c` needs `b`, `b` needs `a`, and `b` is not asked for. */
  function Gap(a: string, b: string, c: string): Config {
    Config([Phase(a, [], [], false, false), Phase(b, [a], [], false, false), Phase(c, [b], [], false, false)],
           {}, {a, c}, {}, false, false)
  }

  lemma GapIsWellFormed(a: string, b: string, c: string)
    requires a != b && b != c && a != c
    ensures WellFormed(Gap(a, b, c)) && Sorted(Gap(a, b, c).phases)
  {
    var phases := Gap(a, b, c).phases;
    assert phases[0] in phases[..1] && phases[1] in phases[..2];
    SortedIsAcyclic(phases);
  }

  lemma GapIsLone(a: string, b: string, c: string)
    requires a != b && b != c && a != c
    ensures WellFormed(Gap(a, b, c)) && Sorted(Gap(a, b, c).phases) && LoneGap(Gap(a, b, c), a, c)
  {
    var cfg := Gap(a, b, c);
    var phases := cfg.phases;
    assert phases[0] in phases && phases[1] in phases && phases[2] in phases;
    GapIsWellFormed(a, b, c);
    hide Sorted, WellFormed;
    assert Needs(phases, a, b) && Needs(phases, b, c);
    assert Leads(phases, a, [a, b, c], c);
    forall path ensures !WaitPath(cfg, a, path, c) {
      if WaitPath(cfg, a, path, c) {
        LastWait(cfg, a, path, c);
      }
    }
  }

  /**
    Whatever the names: a run in which `a` fails and `c`, in `running`, is skipped; and two finished
    runs with the same outcomes, `c` passing in one and skipped in the other.
  */
  lemma OnlySkipsALaunchedPhase(a: string, b: string, c: string)
    returns (broken: seq<Step>, s: State, beside: seq<Step>, t: State, inTurn: seq<Step>, u: State)
    requires a != b && b != c && a != c
    ensures var cfg := Gap(a, b, c);
      var own, one := OwnGuests(cfg), OneByOne(cfg);
      && WellFormed(own) && Reaches(own, broken, s) && c in s.running && StateOf(s.state, c).Skipped?
      && SameGraph(cfg, own) && Finishes(own, beside, t, AllBut(cfg, {a})) && StateOf(t.state, c).Passed?
      && SameGraph(cfg, one) && Finishes(one, inTurn, u, AllBut(cfg, {a})) && StateOf(u.state, c).Skipped?
  {
    var cfg := Gap(a, b, c);
    hide Gap, Finishes, SameGraph, WellFormed, LoneGap, Reaches, OwnGuests, OneByOne, AllBut, Sorted, Opening;
    hide Awaited, Firm, StateOf;
    GapIsLone(a, b, c);
    LoneGapOpens(cfg, a, c);
    assert {} + {a} == {a};
    var ended := Awaited(cfg, a, c);
    broken, s, beside, t := ParallelPasses(cfg, a, c, ended, {});
    inTurn, u := SerialSkips(cfg, a, c, ended, {});
  }

  /** The names of the next spec's phases. */
  datatype Cast = Cast(n: string, f: string, x: string, c: string, b: string, m: string)
  {
    predicate Apart() {
      && n != f && n != x && n != c && n != b && n != m && f != x && f != c && f != b && f != m
      && x != c && x != b && x != m && c != b && c != m && b != m
    }

    function Order(): seq<string> {
      [n, f, x, c, b, m]
    }

    /** `m` waits for `n` only by way of `c`, which comes after `x`; and `x` after `n`, and after `f` if `also`. */
    function After(also: bool, name: string): seq<string> {
      if name == x then if also then [n, f] else [n]
      else if name == c then [x]
      else if name == b then [n]
      else if name == m then [b, c]
      else []
    }
  }

  /** `c` is an `always` phase, and `b`, which names `n` and is named by `m`, is not asked for. */
  function Cleanup(k: Cast, also: bool): Config {
    Config(seq(6, i requires 0 <= i < 6 =>
             Phase(k.Order()[i], k.After(also, k.Order()[i]), [], k.Order()[i] == k.c, false)),
           {}, {k.n, k.f, k.x, k.c, k.m}, {}, false, false)
  }

  lemma CleanupPhases(k: Cast, also: bool)
    ensures var phases := Cleanup(k, also).phases;
      && (forall p :: p in phases ==> p == Phase(p.name, k.After(also, p.name), [], p.name == k.c, false))
      && (forall d :: d in Names(phases) <==> d in k.Order())
  {
    var phases := Cleanup(k, also).phases;
    assert |k.Order()| == 6;
    hide Cast.After, Cast.Order;
    forall d | d in k.Order() ensures d in Names(phases) {
      var i :| 0 <= i < |k.Order()| && k.Order()[i] == d;
      assert phases[i] in phases && phases[i].name == d;
    }
    forall p | p in phases ensures p.name in k.Order() {
      var i :| 0 <= i < |phases| && phases[i] == p;
    }
  }

  lemma OrderHolds(k: Cast, d: string)
    ensures d in k.Order() <==> d in {k.n, k.f, k.x, k.c, k.b, k.m}
  {
    assert k.Order()[0] == k.n && k.Order()[1] == k.f && k.Order()[2] == k.x;
    assert k.Order()[3] == k.c && k.Order()[4] == k.b && k.Order()[5] == k.m;
  }

  /** One link. */
  lemma CleanupNames(k: Cast, also: bool, p: string, d: string)
    ensures var phases := Cleanup(k, also).phases;
      && (Named(phases, p, d) <==> d in {k.n, k.f, k.x, k.c, k.b, k.m} && p in k.After(also, d))
      && (Needs(phases, p, d) <==> Named(phases, p, d) && d != k.c)
  {
    var phases := Cleanup(k, also).phases;
    CleanupPhases(k, also);
    OrderHolds(k, d);
    hide Cleanup, Cast.After, Cast.Order;
    if d in Names(phases) {
      var q :| q in phases && q.name == d;
    }
  }

  lemma OrderApart(k: Cast, i: nat, j: nat)
    requires k.Apart() && i < j < 6
    ensures k.Order()[i] != k.Order()[j]
  {
  }

  /** What a phase names comes before it in the list, and ranks below it. */
  lemma AfterComesBefore(k: Cast, also: bool, j: nat, a: string)
    requires k.Apart() && j < 6 && a in k.After(also, k.Order()[j])
    ensures exists i :: 0 <= i < j && k.Order()[i] == a
  {
    assert j == 2 || j == 3 || j == 4 || j == 5;
    assert k.Order()[0] == k.n && k.Order()[1] == k.f && k.Order()[2] == k.x;
    assert k.Order()[3] == k.c && k.Order()[4] == k.b;
  }

  lemma CleanupSorted(k: Cast, also: bool)
    requires k.Apart()
    ensures DistinctNames(Cleanup(k, also).phases) && Sorted(Cleanup(k, also).phases)
  {
    var phases := Cleanup(k, also).phases;
    assert |k.Order()| == 6;
    hide Cast.After, Cast.Order, Cast.Apart;
    forall i, j | 0 <= i < j < |phases| ensures phases[i].name != phases[j].name {
      OrderApart(k, i, j);
    }
    forall j, a | 0 <= j < |phases| && a in phases[j].after ensures a in Names(phases[..j]) {
      AfterComesBefore(k, also, j, a);
      var i :| 0 <= i < j && k.Order()[i] == a;
      assert phases[i] in phases[..j];
    }
  }

  lemma CleanupIsWellFormed(k: Cast, also: bool)
    requires k.Apart()
    ensures WellFormed(Cleanup(k, also)) && Sorted(Cleanup(k, also).phases)
  {
    CleanupSorted(k, also);
    SortedIsAcyclic(Cleanup(k, also).phases);
    CleanupPhases(k, also);
  }

  /** What leads to what, by one link. */
  lemma CleanupLinks(k: Cast, also: bool, p: string, d: string)
    requires k.Apart() && Needs(Cleanup(k, also).phases, p, d)
    ensures (d == k.x && (p == k.n || (also && p == k.f))) || (d == k.b && p == k.n)
         || (d == k.m && (p == k.b || p == k.c))
  {
    CleanupNames(k, also, p, d);
    hide Cleanup, Needs, Named, Cast.Order;
  }

  lemma CleanupChains(k: Cast, also: bool, p: string, d: string)
    requires k.Apart() && DependsOn(Cleanup(k, also).phases, p, d)
    ensures d in {k.x, k.b, k.m}
    ensures p == k.n || (p == k.f && also && d == k.x) || p == k.b || (p == k.c && d == k.m)
  {
    var phases := Cleanup(k, also).phases;
    hide Cleanup, Needs, Cast.After, Cast.Order;
    var path :| Leads(phases, p, path, d);
    var last := |path| - 2;
    assert Needs(phases, path[0], path[0 + 1]) && Needs(phases, path[last], path[last + 1]);
    CleanupLinks(k, also, p, path[1]);
    CleanupLinks(k, also, path[last], d);
    if p == k.f || p == k.c {
      CleanupEnds(k, also, p, path);
    }
  }

  /** From `f` one gets to `x` and no further; from `c` to `m`. */
  lemma CleanupEnds(k: Cast, also: bool, p: string, path: seq<string>)
    requires k.Apart() && Chain(Cleanup(k, also).phases, path) && |path| >= 2 && path[0] == p
    requires p == k.f || p == k.c
    ensures path[|path| - 1] in (if p == k.f then {k.f, k.x} else {k.c, k.m})
  {
    var phases := Cleanup(k, also).phases;
    hide Cleanup, Chain, Needs, Cast.Order;
    var found := if p == k.f then {k.f, k.x} else {k.c, k.m};
    forall before, later | before in found && Needs(phases, before, later) ensures later in found {
      CleanupLinks(k, also, before, later);
    }
    ClosedHoldsChain(phases, found, path);
  }

  lemma CleanupSelected(k: Cast, also: bool)
    ensures Cleanup(k, also).selected == {k.n, k.f, k.x, k.c, k.m}
    ensures forall d :: d in {k.n, k.f, k.x, k.c, k.m, k.b} ==> d in Names(Cleanup(k, also).phases)
  {
    CleanupPhases(k, also);
    hide Cast.After, Cast.Order;
    forall d | d in {k.n, k.f, k.x, k.c, k.m, k.b} ensures d in Names(Cleanup(k, also).phases) {
      OrderHolds(k, d);
    }
  }

  lemma CleanupTaken(k: Cast, d: string)
    requires k.Apart()
    ensures Taken(Cleanup(k, true), {k.f}, d) <==> d == k.x
  {
    var cfg := Cleanup(k, true);
    CleanupSelected(k, true);
    CleanupNames(k, true, k.f, k.x);
    hide Cleanup, Cast.Order, Needs, Named, Names;
    if Taken(cfg, {k.f}, d) {
      CleanupChains(k, true, k.f, d);
    }
    assert Leads(cfg.phases, k.f, [k.f, k.x], k.x);
  }

  lemma CleanupCleared(k: Cast, y: string)
    requires k.Apart() && y in {k.n, k.f, k.c, k.m}
    ensures Cleared(Cleanup(k, true), {k.f, k.c}, {k.f}, y)
  {
    var cfg := Cleanup(k, true);
    CleanupSelected(k, true);
    CleanupTaken(k, y);
    hide Cleanup, Cast.Order, Names, Taken, Named;
    forall a | a in cfg.selected && Named(cfg.phases, a, y)
      ensures a in {k.f, k.c} || Taken(cfg, {k.f}, a)
    {
      CleanupNames(k, true, a, y);
      CleanupTaken(k, a);
    }
  }

  lemma CleanupOpens(k: Cast)
    requires k.Apart()
    ensures Opening(Cleanup(k, true), k.n, k.m, {k.f, k.c}, {k.f})
  {
    CleanupReaches(k, true);
    CleanupCleared(k, k.n);
    CleanupCleared(k, k.m);
    CleanupCleared(k, k.f);
    CleanupCleared(k, k.c);
    hide Cleanup, Cleared, DependsOn;
  }

  /** `m` depends on `n`, through what was left out. */
  lemma CleanupReaches(k: Cast, also: bool)
    requires k.Apart()
    ensures DependsOn(Cleanup(k, also).phases, k.n, k.m)
  {
    CleanupSelected(k, also);
    CleanupNames(k, also, k.n, k.b);
    CleanupNames(k, also, k.b, k.m);
    hide Cleanup, Cast.Order;
    assert Leads(Cleanup(k, also).phases, k.n, [k.n, k.b, k.m], k.m);
  }

  lemma CleanupWaits(k: Cast, p: string, d: string)
    requires k.Apart()
    ensures !LoneGap(Cleanup(k, true), p, d)
  {
    var cfg := Cleanup(k, true);
    CleanupSelected(k, true);
    CleanupNames(k, true, k.n, k.x);
    CleanupNames(k, true, k.f, k.x);
    CleanupNames(k, true, k.x, k.c);
    CleanupNames(k, true, k.c, k.m);
    hide Cleanup, Cast.Order, Named, Names, DependsOn;
    assert WaitPath(cfg, k.n, [k.n, k.x], k.x) && WaitPath(cfg, k.f, [k.f, k.x], k.x);
    assert WaitPath(cfg, k.c, [k.c, k.m], k.m);
    assert WaitPath(cfg, k.n, [k.n, k.x, k.c, k.m], k.m);
    if LoneGap(cfg, p, d) {
      CleanupChains(k, true, p, d);
    }
  }

  /**
    Whatever the names: `f` fails and skips `x`, so `c` runs while `n` still does, and then `m` is
    started, is skipped as `n` fails, and passes. Yet `m` waits for `n`, and there is no lone gap.
  */
  lemma FailureLetsItThrough(k: Cast) returns (broken: seq<Step>, s: State, steps: seq<Step>, t: State)
    requires k.Apart()
    ensures var cfg := Cleanup(k, true);
      && WellFormed(cfg) && Opening(cfg, k.n, k.m, {k.f, k.c}, {k.f}) && (forall p, d :: !LoneGap(cfg, p, d))
      && Reaches(OwnGuests(cfg), broken, s) && k.m in s.running && StateOf(s.state, k.m).Skipped?
      && Finishes(OwnGuests(cfg), steps, t, AllBut(cfg, {k.f, k.n})) && StateOf(t.state, k.m).Passed?
  {
    var cfg := Cleanup(k, true);
    hide Cleanup, Finishes, WellFormed, Opening, Reaches, OwnGuests, AllBut, LoneGap, StateOf, SameGraph, Sorted;
    CleanupIsWellFormed(k, true);
    CleanupOpens(k);
    forall p, d ensures !LoneGap(cfg, p, d) {
      CleanupWaits(k, p, d);
    }
    assert {k.f} + {k.n} == {k.f, k.n};
    hide Cast.Apart;
    broken, s, steps, t := ParallelPasses(cfg, k.n, k.m, {k.f, k.c}, {k.f});
  }

  /** Where `x` does not name `f`, nothing can get `c` going while `n` runs: firm, though not linked. */
  lemma FirmThoughNotLinked(k: Cast)
    requires k.Apart()
    ensures WellFormed(Cleanup(k, false)) && Firm(Cleanup(k, false)) && !Linked(Cleanup(k, false))
  {
    var cfg := Cleanup(k, false);
    CleanupIsWellFormed(k, false);
    CleanupReaches(k, false);
    CleanupSelected(k, false);
    hide Cleanup, WellFormed, Cast.Order, Names;
    forall p, d, ended, fails ensures !Opening(cfg, p, d, ended, fails) {
      CleanupStays(k, p, d, ended, fails);
    }
    forall path ensures !SelectedChain(cfg, k.n, path, k.m) {
      CleanupUnlinked(k, path);
    }
    hide Opening, SelectedChain, DependsOn;
  }

  lemma CleanupUnlinked(k: Cast, path: seq<string>)
    requires k.Apart()
    ensures !SelectedChain(Cleanup(k, false), k.n, path, k.m)
  {
    var cfg := Cleanup(k, false);
    CleanupSelected(k, false);
    hide Cleanup, Cast.Order, Names, Needs;
    if SelectedChain(cfg, k.n, path, k.m) {
      var last := |path| - 2;
      assert Needs(cfg.phases, path[last], path[last + 1]);
      CleanupLinks(k, false, path[last], k.m);
      var before := last - 1;
      assert Needs(cfg.phases, path[before], path[before + 1]);
      CleanupLinks(k, false, path[before], k.c);
    }
  }

  /** Nothing but `n` and `b` leads to `x`, and nothing to `c`: neither is answered before `n` has ended. */
  lemma CleanupStays(k: Cast, p: string, d: string, ended: set<string>, fails: set<string>)
    requires k.Apart()
    ensures !Opening(Cleanup(k, false), p, d, ended, fails)
  {
    var cfg := Cleanup(k, false);
    CleanupSelected(k, false);
    CleanupNames(k, false, k.n, k.x);
    CleanupNames(k, false, k.x, k.c);
    CleanupNames(k, false, k.c, k.m);
    hide Cleanup, Cast.Order, Names, Named, Needs;
    if Opening(cfg, p, d, ended, fails) {
      CleanupChains(k, false, p, d);
      forall y | Taken(cfg, fails, y) ensures y in {k.x, k.b, k.m} && (k.n in fails || (k.c in fails && y == k.m)) {
        var g :| g in fails && DependsOn(cfg.phases, g, y);
        CleanupChains(k, false, g, y);
        assert Cleared(cfg, ended, fails, g);
      }
      hide Taken, DependsOn;
    }
  }
}
