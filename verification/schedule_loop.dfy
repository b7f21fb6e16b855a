/**
  The session's books and the scheduler's loop in the form the program has them: objects whose
  methods update their fields. Each method is one stretch between awaits, and is proved to make
  the state machine's own step.
*/
module ScheduleLoop {
  import opened Options
  import opened Phases
  import opened Schedule
  import opened ScheduleSafety
  import opened ScheduleOutcome
  import opened ScheduleProgress

  /** The states once the pending ones among `done` are skipped. */
  function MarkedBy(state: States, done: set<string>): States {
    map m | m in state :: if m in done && state[m].Pending? then Skipped else state[m]
  }

  function PendingIn(state: States, done: set<string>): set<string> {
    set m | m in state && m in done && state[m].Pending?
  }

  lemma MarkOneMore(state: States, done: set<string>, n: string)
    requires n !in done
    ensures var marked := MarkedBy(state, done);
      && MarkedBy(state, done + {n}) == (if n in marked && marked[n].Pending? then marked[n := Skipped] else marked)
      && PendingIn(state, done + {n}) == PendingIn(state, done) + if n in marked && marked[n].Pending? then {n} else {}
  {
  }

  lemma FailureMarks(phases: seq<Phase>, state: States, n: string)
    ensures FailedStates(phases, state, n) == MarkedBy(state[n := Failed], DependentsOf(n, phases))
    ensures NewlySkipped(phases, state, n) == PendingIn(state[n := Failed], DependentsOf(n, phases))
  {
  }

  lemma HoldOneMore(holders: map<string, string>, guests: set<string>, g: string, n: string)
    ensures (holders + (map h | h in guests :: n))[g := n] == holders + (map h | h in guests + {g} :: n)
  {
  }

  /** The part of `Session` (pkgs/uml/uml/session.py) a phase's task writes to. */
  class Session {
    const cfg: Config
    var state: States
    var holders: map<string, string>
    var log: seq<Note>

    constructor (cfg: Config)
      ensures this.cfg == cfg && state == Initial(cfg).state && holders == map[] && log == []
    {
      this.cfg := cfg;
      state := Initial(cfg).state;
      holders := map[];
      log := [];
    }

    /** Past the first drain: the phase is running, and holds its guests. */
    method Start(p: Phase)
      modifies this
      ensures state == old(state)[p.name := Running]
      ensures forall g :: g in p.nodes || (p.nodes == [] && g in cfg.machines) ==> g in holders && holders[g] == p.name
      ensures forall g :: g !in p.nodes && !(p.nodes == [] && g in cfg.machines) ==>
        (g in holders <==> g in old(holders)) && (g in holders ==> holders[g] == old(holders)[g])
      ensures holders == old(holders) + (map g | g in Guests(cfg, p) :: p.name)
      ensures log == old(log) + [Started(p.name)]
    {
      state := state[p.name := Running];
      var guests := Guests(cfg, p);
      var rest := guests;
      GuestsAre(cfg, p);
      hide Guests;
      assert holders == holders + (map g | g in guests - rest :: p.name);
      while rest != {}
        invariant rest <= guests && state == old(state)[p.name := Running] && log == old(log)
        invariant holders == old(holders) + (map g | g in guests - rest :: p.name)
        decreases rest
      {
        var g :| g in rest;
        HoldOneMore(old(holders), guests - rest, g, p.name);
        assert guests - (rest - {g}) == (guests - rest) + {g};
        holders := holders[g := p.name];
        rest := rest - {g};
      }
      assert guests - rest == guests;
      log := log + [Started(p.name)];
    }

    /** `_release`: the guests belong to nobody again. */
    method Release(guests: set<string>)
      modifies this`holders
      ensures holders == old(holders) - guests
    {
      var rest := guests;
      while rest != {}
        invariant rest <= guests && holders == old(holders) - (guests - rest)
        decreases rest
      {
        var g :| g in rest;
        holders := holders - {g};
        rest := rest - {g};
      }
    }

    /** Of the phases named, those still pending are skipped, whatever order they come in. */
    method SkipPending(found: set<string>) returns (skipped: set<string>)
      modifies this`state
      ensures state == MarkedBy(old(state), found) && skipped == PendingIn(old(state), found)
    {
      var rest := found;
      skipped := {};
      assert state == MarkedBy(state, {}) && skipped == PendingIn(state, {});
      while rest != {}
        invariant rest <= found
        invariant state == MarkedBy(old(state), found - rest) && skipped == PendingIn(old(state), found - rest)
        decreases rest
      {
        var n :| n in rest;
        MarkOneMore(old(state), found - rest, n);
        assert found - (rest - {n}) == (found - rest) + {n};
        rest := rest - {n};
        hide MarkedBy, PendingIn;
        if n in state && state[n].Pending? {
          state := state[n := Skipped];
          skipped := skipped + {n};
        }
      }
      assert found - rest == found;
    }

    /** The failure branch, in one stretch: the phase, then everything pending that depends on it. */
    method Fail(p: Phase)
      modifies this
      ensures state == FailedStates(cfg.phases, old(state), p.name)
      ensures forall g :: g in holders <==>
        g in old(holders) && g !in p.nodes && !(p.nodes == [] && g in cfg.machines)
      ensures holders == old(holders) - Guests(cfg, p)
      ensures log == old(log) + [Ended(p.name, false), Marked(NewlySkipped(cfg.phases, old(state), p.name), p.name)]
    {
      FailureMarks(cfg.phases, state, p.name);
      GuestsAre(cfg, p);
      hide *;
      state := state[p.name := Failed];
      log := log + [Ended(p.name, false)];
      var found := Dependents(p.name, cfg.phases);
      var skipped := SkipPending(found);
      log := log + [Marked(skipped, p.name)];
      Release(Guests(cfg, p));
    }

    method Pass(p: Phase)
      modifies this
      ensures state == old(state)[p.name := Passed]
      ensures forall g :: g in holders <==>
        g in old(holders) && g !in p.nodes && !(p.nodes == [] && g in cfg.machines)
      ensures holders == old(holders) - Guests(cfg, p)
      ensures log == old(log) + [Ended(p.name, true)]
    {
      GuestsAre(cfg, p);
      hide Guests;
      Release(Guests(cfg, p));
      state := state[p.name := Passed];
      log := log + [Ended(p.name, true)];
    }
  }

  /** `_schedule`'s locals, and `one` (pkgs/uml/uml/cli.py:352-395). */
  class Scheduler {
    const cfg: Config
    const session: Session
    var running: map<string, Phase>
    var begun: set<string>
    var failed: seq<string>
    var pausedBefore: set<string>
    var changed: bool
    var stage: Stage

    ghost predicate Valid()
      reads this, session
    {
      session.cfg == cfg
    }

    function View(): State
      reads this, session
    {
      State(session.state, session.holders, running, begun, failed, pausedBefore, changed, stage, session.log)
    }

    constructor (session: Session)
      requires session.state == Initial(session.cfg).state && session.holders == map[] && session.log == []
      ensures Valid() && this.session == session && cfg == session.cfg && View() == Initial(cfg)
    {
      cfg := session.cfg;
      this.session := session;
      running, begun, failed, pausedBefore, changed, stage := map[], {}, [], {}, false, Booted;
    }

    /** One turn: find what is ready, pause if something asks for it, otherwise start what fits. */
    method Turn()
      requires Valid()
      modifies this, session
      ensures Valid() && View() == TurnOf(cfg, old(View()))
    {
      var candidates := CandidatesOf(cfg.phases, session.state, running);
      var reason: Option<Reason> := None;
      if cfg.Controlled() {
        var stops := StopsOf(candidates, cfg.breaks - pausedBefore);
        if cfg.breakOnFailure && failed != [] {
          reason := Some(AfterFailed(failed));
        } else if stops != [] {
          reason := Some(Before(stops[0].name));
        }
      }
      assert reason == ReasonFor(cfg, View()) && candidates == Candidates(cfg, View());
      hide ReasonFor, Candidates, LaunchAll;
      if reason.Some? {
        if running == map[] {
          Pause(reason.value);
          return;
        }
      } else {
        var todo := ChooseLaunchable(candidates, running.Values, cfg.machines);
        if cfg.serial {
          todo := if running == map[] && todo != [] then todo[..1] else [];
        }
        assert todo == Todo(cfg, View());
        hide Todo;
        Launch(todo);
      }
      stage := if running == map[] then Done else Waiting;
    }

    /** What is said and noted of a pause, before it is waited for. */
    method Pause(reason: Reason)
      requires Valid()
      modifies this, session
      ensures Valid() && View() == old(View()).(
        pausedBefore := if reason.Before? then old(pausedBefore) + {reason.name} else old(pausedBefore),
        failed := [], stage := Holding, log := old(session.log) + [Paused(reason)])
    {
      if reason.Before? {
        pausedBefore := pausedBefore + {reason.name};
      }
      failed := [];
      session.log := session.log + [Paused(reason)];
      stage := Holding;
    }

    method Launch(todo: seq<Phase>)
      requires Valid()
      modifies this, session
      ensures Valid() && View() == LaunchAll(old(View()), todo)
    {
      for i := 0 to |todo|
        invariant Valid() && LaunchAll(View(), todo[i..]) == LaunchAll(old(View()), todo)
      {
        assert todo[i..][0] == todo[i] && todo[i..][1..] == todo[i + 1..];
        running := running[todo[i].name := todo[i]];
        session.log := session.log + [Launched(todo[i].name)];
      }
      assert todo[|todo|..] == [];
    }

    /** Whatever may happen next happens: the loop's turn, a pause continued, a task going on. */
    method Advance(step: Step)
      requires Valid() && Enabled(View(), step)
      requires forall n :: n in running ==> running[n].name == n && n in session.state
      modifies this, session
      ensures Valid() && View() == Apply(cfg, old(View()), step)
    {
      match step
      case Boot => Turn();
      case Wake =>
        changed := false;
        Turn();
      case Continue =>
        session.log := session.log + [Resumed];
        Turn();
      case Begin(n) =>
        session.Start(running[n]);
        begun := begun + {n};
      case End(n, ok) =>
        if ok {
          session.Pass(running[n]);
        } else {
          session.Fail(running[n]);
          failed := failed + [n];
        }
        running := running - {n};
        begun := begun - {n};
        changed := true;
    }
  }

  lemma FollowsOneMore(steps: seq<Step>, step: Step, outcome: map<string, bool>)
    requires Follows(steps, outcome)
    requires EndsAs(step, outcome)
    ensures Follows(steps + [step], outcome)
  {
  }

  /** A run with one more step is a run, closer to its end. */
  lemma OneMoreStep(cfg: Config, steps: seq<Step>, s: State, step: Step, outcome: map<string, bool>)
    requires NodesKnown(cfg) && Inv(cfg, s) && Reaches(cfg, steps, s) && Follows(steps, outcome) && Enabled(s, step)
    requires EndsAs(step, outcome)
    ensures var t := Apply(cfg, s, step);
      && Inv(cfg, t) && Reaches(cfg, steps + [step], t) && Follows(steps + [step], outcome)
      && Measure(cfg, t) < Measure(cfg, s)
  {
    StepLowers(cfg, s, step);
    StepKeeps(cfg, s, step);
    hide Apply, Inv, Measure, Enabled, Initial, Execute;
    ExecuteConcat(cfg, Initial(cfg), steps, s, [step]);
    ExecuteOne(cfg, s, step);
    FollowsOneMore(steps, step, outcome);
    hide *;
  }

  lemma RunningNamed(cfg: Config, s: State)
    requires Inv(cfg, s)
    ensures forall n :: n in s.running ==> s.running[n].name == n && n in s.state
    ensures Stages(cfg, s)
  {
  }

  lemma StartsWell(cfg: Config, outcome: map<string, bool>)
    ensures Inv(cfg, Initial(cfg)) && Reaches(cfg, [], Initial(cfg)) && Follows([], outcome)
  {
    InitialInv(cfg);
  }

  /** A step a scheduler of tasks may take: its own choice if that is possible, ending as `outcome` says. */
  method Choose(cfg: Config, s: State, wish: Step, outcome: map<string, bool>) returns (step: Step)
    requires Stages(cfg, s) && s.stage != Done
    ensures Enabled(s, step) && EndsAs(step, outcome)
    ensures Enabled(s, wish) && EndsAs(wish, outcome) ==> step == wish
  {
    if Enabled(s, wish) {
      step := wish;
    } else if s.stage == Booted {
      step := Boot;
    } else if s.stage == Holding {
      step := Continue;
    } else if s.changed {
      step := Wake;
    } else {
      var n :| n in s.running.Keys;
      step := if n in s.begun then End(n, true) else Begin(n);
    }
    if step.End? {
      step := End(step.name, Would(outcome, step.name));
    }
  }

  lemma DriveConcludes(cfg: Config, steps: seq<Step>, s: State, outcome: map<string, bool>)
    requires WellFormed(cfg) && Firm(cfg)
    requires Reaches(cfg, steps, s) && s.stage == Done && Follows(steps, outcome)
    ensures s.state == map n | n in Names(cfg.phases) :: Fate(cfg, outcome, n)
    ensures Linked(cfg) ==> forall rank :: Ranked(cfg.phases, rank) ==>
      s.state == map n | n in Names(cfg.phases) :: Verdict(cfg, rank, outcome, n)
    ensures Succeeded(s.state) <==> AllWould(cfg, outcome)
  {
    SucceedsExactly(cfg, steps, s, outcome);
    AllFates(cfg, steps, s, outcome);
    hide Reaches, Follows, Linked, Firm, Fate, Verdict, Ranked, Names, Succeeded, AllWould;
    if Linked(cfg) {
      forall rank | Ranked(cfg.phases, rank)
        ensures s.state == map n | n in Names(cfg.phases) :: Verdict(cfg, rank, outcome, n)
      {
        AllVerdicts(cfg, rank, outcome);
      }
    }
  }

  /** What is wished for comes next wherever it can, with the outcome its phase is to have. */
  ghost predicate AsWished(cfg: Config, steps: seq<Step>, wishes: (nat, State) -> Step, outcome: map<string, bool>) {
    forall k: nat, s :: k < |steps| && Reaches(cfg, steps[..k], s) ==>
      Enabled(s, wishes(k, s)) && EndsAs(wishes(k, s), outcome) ==> steps[k] == wishes(k, s)
  }

  lemma WishedOnce(cfg: Config, steps: seq<Step>, s: State, step: Step, wishes: (nat, State) -> Step,
                   outcome: map<string, bool>)
    requires AsWished(cfg, steps, wishes, outcome) && Reaches(cfg, steps, s)
    requires Enabled(s, wishes(|steps|, s)) && EndsAs(wishes(|steps|, s), outcome) ==> step == wishes(|steps|, s)
    ensures AsWished(cfg, steps + [step], wishes, outcome)
  {
    hide Execute, Enabled, EndsAs;
    var more := steps + [step];
    forall k: nat, t | k < |more| && Reaches(cfg, more[..k], t)
      ensures Enabled(t, wishes(k, t)) && EndsAs(wishes(k, t), outcome) ==> more[k] == wishes(k, t)
    {
      if k < |steps| {
        assert more[..k] == steps[..k];
      } else {
        assert more[..k] == steps;
        assert t == s;
      }
    }
  }

  /** One step more, the one that is wished for where it can come. */
  method GoOn(cfg: Config, loop: Scheduler, wish: Step, outcome: map<string, bool>,
              ghost wishes: (nat, State) -> Step, ghost steps: seq<Step>)
    returns (ghost longer: seq<Step>)
    requires WellFormed(cfg) && loop.Valid() && loop.cfg == cfg && loop.stage != Done
    requires Inv(cfg, loop.View()) && Reaches(cfg, steps, loop.View()) && Follows(steps, outcome)
    requires AsWished(cfg, steps, wishes, outcome) && wish == wishes(|steps|, loop.View())
    modifies loop, loop.session
    ensures loop.Valid() && loop.cfg == cfg
    ensures Inv(cfg, loop.View()) && Reaches(cfg, longer, loop.View()) && Follows(longer, outcome)
    ensures AsWished(cfg, longer, wishes, outcome) && |longer| == |steps| + 1
    ensures Measure(cfg, loop.View()) < Measure(cfg, old(loop.View()))
  {
    hide AsWished, EndsAs, Inv, Reaches, Follows, Measure, Apply, DistinctNames, AfterClosed, Acyclic, NodesKnown,
         Enabled;
    RunningNamed(cfg, loop.View());
    var step := Choose(cfg, loop.View(), wish, outcome);
    WishedOnce(cfg, steps, loop.View(), step, wishes, outcome);
    OneMoreStep(cfg, steps, loop.View(), step, outcome);
    loop.Advance(step);
    longer := steps + [step];
  }

  /** Runs the loop and its tasks to the end, in whatever order `wishes` asks for. */
  method RunToEnd(cfg: Config, wishes: (nat, State) -> Step, outcome: map<string, bool>)
    returns (loop: Scheduler, ghost steps: seq<Step>)
    requires WellFormed(cfg)
    ensures loop.stage == Done && Reaches(cfg, steps, loop.View()) && Follows(steps, outcome)
    ensures AsWished(cfg, steps, wishes, outcome)
  {
    var session := new Session(cfg);
    loop := new Scheduler(session);
    steps := [];
    var i := 0;
    StartsWell(cfg, outcome);
    hide AsWished, Inv, Reaches, Follows, Measure, Initial, WellFormed;
    while loop.stage != Done
      invariant loop.Valid() && loop.cfg == cfg && fresh(loop) && fresh(loop.session)
      invariant Inv(cfg, loop.View()) && Reaches(cfg, steps, loop.View()) && Follows(steps, outcome)
      invariant i == |steps| && AsWished(cfg, steps, wishes, outcome)
      decreases Measure(cfg, loop.View())
    {
      steps := GoOn(cfg, loop, wishes(i, loop.View()), outcome, wishes, steps);
      i := i + 1;
    }
  }

  /**
    A whole drive, under any order `wishes` can think of: it halts, each phase has its fate, and the
    verdict goes with that.
  */
  method Drive(cfg: Config, wishes: (nat, State) -> Step, outcome: map<string, bool>)
    returns (final: States, passed: bool)
    requires WellFormed(cfg) && Firm(cfg)
    ensures final == map n | n in Names(cfg.phases) :: Fate(cfg, outcome, n)
    ensures Linked(cfg) ==> forall rank :: Ranked(cfg.phases, rank) ==>
      final == map n | n in Names(cfg.phases) :: Verdict(cfg, rank, outcome, n)
    ensures passed <==> AllWould(cfg, outcome)
  {
    var loop, steps := RunToEnd(cfg, wishes, outcome);
    DriveConcludes(cfg, steps, loop.View(), outcome);
    final := loop.session.state;
    passed := Succeeded(final);
    hide Reaches, Follows, Ranked, Fate, Verdict, Succeeded, WellFormed, Firm, Linked, Names, AllWould;
  }
}
