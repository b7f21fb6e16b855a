/**
  What a started phase had behind it, whatever was selected. A failure is found to reach a phase
  already started only by chains through a phase `--only` left out.
*/
module ScheduleWaits {
  import opened Options
  import opened Phases
  import opened Schedule
  import opened ScheduleSafety

  // ── waiting ───────────────────────────────────────────────────────

  ghost predicate Named(phases: seq<Phase>, before: string, later: string) {
    exists p :: p in phases && p.name == later && before in p.after
  }

  /** Selected phases, each of which names the one before it: the later wait for the earlier to end. */
  ghost predicate WaitPath(cfg: Config, n: string, path: seq<string>, m: string) {
    && |path| >= 2 && path[0] == n && path[|path| - 1] == m
    && (forall i :: 0 <= i < |path| ==> path[i] in cfg.selected)
    && forall i :: 0 <= i < |path| - 1 ==> Named(cfg.phases, path[i], path[i + 1])
  }

  ghost predicate Waits(cfg: Config, n: string, m: string) {
    exists path :: WaitPath(cfg, n, path, m)
  }

  lemma WaitsFirst(cfg: Config, n: string, x: string, m: string)
    requires n in cfg.selected && x in cfg.selected && Named(cfg.phases, n, x) && (x == m || Waits(cfg, x, m))
    ensures Waits(cfg, n, m)
  {
    if x == m {
      assert WaitPath(cfg, n, [n, m], m);
    } else {
      var path :| WaitPath(cfg, x, path, m);
      var longer := [n] + path;
      forall i | 0 <= i < |longer| - 1 ensures Named(cfg.phases, longer[i], longer[i + 1]) {
        if i > 0 { assert Named(cfg.phases, path[i - 1], path[i - 1 + 1]); }
      }
      assert WaitPath(cfg, n, longer, m);
    }
  }

  lemma {:induction false} WaitRises(cfg: Config, rank: map<string, nat>, n: string, path: seq<string>, m: string)
    requires Ranked(cfg.phases, rank) && WaitPath(cfg, n, path, m)
    ensures n in rank && m in rank && rank[n] < rank[m]
    decreases |path|
  {
    assert Named(cfg.phases, path[0], path[0 + 1]);
    if |path| > 2 {
      var rest := path[1..];
      forall i | 0 <= i < |rest| - 1 ensures Named(cfg.phases, rest[i], rest[i + 1]) {
        var next := i + 1;
        assert Named(cfg.phases, path[next], path[next + 1]);
      }
      assert WaitPath(cfg, path[1], rest, m);
      WaitRises(cfg, rank, path[1], rest, m);
    }
  }

  lemma WaitsRises(cfg: Config, rank: map<string, nat>, n: string, m: string)
    requires Ranked(cfg.phases, rank) && Waits(cfg, n, m)
    ensures n in rank && m in rank && rank[n] < rank[m]
  {
    var path :| WaitPath(cfg, n, path, m);
    WaitRises(cfg, rank, n, path, m);
  }

  // ── what a started phase had behind it ────────────────────────────

  /** A phase whose dependents nobody has an answer for. */
  predicate Bad(st: PhaseState) {
    st.Failed? || st.Skipped?
  }

  predicate HasStarted(state: States, running: map<string, Phase>, n: string) {
    n in running || var st := StateOf(state, n); st.Running? || st.Passed? || st.Failed?
  }

  /** Nothing that needs a failed or skipped phase is anything but skipped. */
  ghost predicate SkipClosed(cfg: Config, state: States) {
    forall p, a :: p in cfg.phases && !p.always && p.name in cfg.selected && a in p.after && Bad(StateOf(state, a)) ==>
      StateOf(state, p.name).Skipped?
  }

  /** What a started phase named has passed, or was not asked for; unless it runs whatever happened. */
  ghost predicate GoodAfter(cfg: Config, state: States, running: map<string, Phase>) {
    forall p, a :: p in cfg.phases && !p.always && HasStarted(state, running, p.name) && a in p.after ==>
      StateOf(state, a).Passed? || StateOf(state, a).Deselected?
  }

  lemma LaunchedWereReady(cfg: Config, s: State, n: string)
    requires n in Names(Todo(cfg, s))
    ensures StateOf(s.state, n).Pending? && exists p :: p in cfg.phases && p.name == n && Answered(p, s.state)
  {
    TodoFacts(cfg, s);
    CandidateFacts(cfg, s);
    var p :| p in Todo(cfg, s) && p.name == n;
    assert p in cfg.phases && Answered(p, s.state);
  }

  lemma LaunchKeepsGood(cfg: Config, s: State)
    requires DistinctNames(cfg.phases) && Tasks(cfg, s.state, s.running, s.begun)
    requires GoodAfter(cfg, s.state, s.running) && SkipClosed(cfg, s.state)
    ensures GoodAfter(cfg, s.state, LaunchAll(s, Todo(cfg, s)).running)
  {
    var todo := Todo(cfg, s);
    var t := LaunchAll(s, todo);
    LaunchEffect(s, todo);
    hide LaunchAll, Todo;
    forall p, a | p in cfg.phases && !p.always && HasStarted(s.state, t.running, p.name) && a in p.after
      ensures StateOf(s.state, a).Passed? || StateOf(s.state, a).Deselected?
    {
      if p.name in Names(todo) {
        LaunchedWereReady(cfg, s, p.name);
        var q :| q in cfg.phases && q.name == p.name && Answered(q, s.state);
        SameNameSamePhase(cfg.phases, p, q);
        assert !Bad(StateOf(s.state, a));
      } else {
        assert HasStarted(s.state, s.running, p.name);
      }
    }
  }

  lemma TurnKeepsGood(cfg: Config, s: State)
    requires DistinctNames(cfg.phases) && Tasks(cfg, s.state, s.running, s.begun)
    requires GoodAfter(cfg, s.state, s.running) && SkipClosed(cfg, s.state)
    ensures var t := TurnOf(cfg, s); GoodAfter(cfg, t.state, t.running) && SkipClosed(cfg, t.state)
  {
    LaunchKeepsGood(cfg, s);
    LaunchEffect(s, Todo(cfg, s));
    hide LaunchAll, GoodAfter, SkipClosed, Todo, ReasonFor;
  }

  lemma BeginKeepsGood(cfg: Config, s: State, n: string)
    requires Tasks(cfg, s.state, s.running, s.begun) && n in s.running && n !in s.begun
    requires GoodAfter(cfg, s.state, s.running) && SkipClosed(cfg, s.state)
    ensures var t := BeginState(cfg, s, n); GoodAfter(cfg, t.state, t.running) && SkipClosed(cfg, t.state)
  {
    var t := BeginState(cfg, s, n);
    hide Guests, Names;
    forall p, a | p in cfg.phases && !p.always && p.name in cfg.selected && a in p.after && Bad(StateOf(t.state, a))
      ensures StateOf(t.state, p.name).Skipped?
    {
      assert Bad(StateOf(s.state, a));
      assert p.name == n ==> HasStarted(s.state, s.running, n);
    }
    forall p, a | p in cfg.phases && !p.always && HasStarted(t.state, t.running, p.name) && a in p.after
      ensures StateOf(t.state, a).Passed? || StateOf(t.state, a).Deselected?
    {
      assert HasStarted(s.state, s.running, p.name);
      assert StateOf(s.state, a).Passed? || StateOf(s.state, a).Deselected?;
    }
  }

  lemma PassKeepsGood(cfg: Config, s: State, n: string)
    requires Tasks(cfg, s.state, s.running, s.begun) && n in s.begun
    requires GoodAfter(cfg, s.state, s.running) && SkipClosed(cfg, s.state)
    ensures var t := EndState(cfg, s, n, true); GoodAfter(cfg, t.state, t.running) && SkipClosed(cfg, t.state)
  {
    var t := EndState(cfg, s, n, true);
    hide Guests, Names;
    assert HasStarted(s.state, s.running, n) && StateOf(s.state, n).Running?;
    forall p, a | p in cfg.phases && !p.always && HasStarted(t.state, t.running, p.name) && a in p.after
      ensures StateOf(t.state, a).Passed? || StateOf(t.state, a).Deselected?
    {
      assert HasStarted(s.state, s.running, p.name);
      assert StateOf(s.state, a).Passed? || StateOf(s.state, a).Deselected?;
    }
    forall p, a | p in cfg.phases && !p.always && p.name in cfg.selected && a in p.after && Bad(StateOf(t.state, a))
      ensures StateOf(t.state, p.name).Skipped?
    {
      assert Bad(StateOf(s.state, a));
    }
  }

  lemma NotOwnDependent(phases: seq<Phase>, n: string, d: string)
    requires Acyclic(phases)
    ensures DependsOn(phases, n, d) ==> n != d
  {
    if DependsOn(phases, n, d) {
      var rank :| Ranked(phases, rank);
      var path :| Leads(phases, n, path, d);
      ChainRises(phases, rank, path);
    }
  }

  lemma FailKeepsGood(cfg: Config, s: State, n: string)
    requires Acyclic(cfg.phases) && Tasks(cfg, s.state, s.running, s.begun) && n in s.begun
    requires GoodAfter(cfg, s.state, s.running) && SkipClosed(cfg, s.state)
    ensures var t := EndState(cfg, s, n, false); GoodAfter(cfg, t.state, t.running) && SkipClosed(cfg, t.state)
  {
    var t := EndState(cfg, s, n, false);
    hide Guests;
    forall p, a | p in cfg.phases && !p.always && p.name in cfg.selected && a in p.after && Bad(StateOf(t.state, a))
      ensures StateOf(t.state, p.name).Skipped?
    {
      assert p.name in Names(cfg.phases);
      if Bad(StateOf(s.state, a)) {
        assert s.state[p.name].Skipped?;
      } else {
        assert a == n || a in DependentsOf(n, cfg.phases);
        assert Needs(cfg.phases, a, p.name);
        ExtendChain(cfg.phases, n, a, p.name);
        NotOwnDependent(cfg.phases, n, p.name);
        assert !HasStarted(s.state, s.running, p.name);
        assert p.name in DependentsOf(n, cfg.phases);
      }
    }
    FailStartsNothing(cfg, s, n);
  }

  lemma FailStartsNothing(cfg: Config, s: State, n: string)
    requires Tasks(cfg, s.state, s.running, s.begun) && n in s.begun && GoodAfter(cfg, s.state, s.running)
    ensures var t := EndState(cfg, s, n, false); GoodAfter(cfg, t.state, t.running)
  {
    var t := EndState(cfg, s, n, false);
    hide Guests, DependentsOf, Names;
    forall p, a | p in cfg.phases && !p.always && HasStarted(t.state, t.running, p.name) && a in p.after
      ensures StateOf(t.state, a).Passed? || StateOf(t.state, a).Deselected?
    {
      assert HasStarted(s.state, s.running, p.name);
      assert StateOf(s.state, a).Passed? || StateOf(s.state, a).Deselected?;
    }
  }

  lemma StepKeepsGood(cfg: Config, s: State, step: Step)
    requires WellFormed(cfg) && Tasks(cfg, s.state, s.running, s.begun) && Enabled(s, step)
    requires GoodAfter(cfg, s.state, s.running) && SkipClosed(cfg, s.state)
    ensures var t := Apply(cfg, s, step); GoodAfter(cfg, t.state, t.running) && SkipClosed(cfg, t.state)
  {
    match step
    case Boot => TurnKeepsGood(cfg, s);
    case Wake => TurnKeepsGood(cfg, s.(changed := false));
    case Continue => TurnKeepsGood(cfg, s.(log := s.log + [Resumed]));
    case Begin(n) => BeginKeepsGood(cfg, s, n);
    case End(n, ok) => if ok { PassKeepsGood(cfg, s, n); } else { FailKeepsGood(cfg, s, n); }
    hide GoodAfter, SkipClosed, TurnOf, BeginState, EndState;
  }

  lemma {:induction false} RunKeepsGood(cfg: Config, s: State, steps: seq<Step>, t: State)
    requires WellFormed(cfg) && Inv(cfg, s) && GoodAfter(cfg, s.state, s.running) && SkipClosed(cfg, s.state)
    requires Execute(cfg, s, steps) == Some(t)
    ensures Inv(cfg, t) && GoodAfter(cfg, t.state, t.running) && SkipClosed(cfg, t.state)
    decreases |steps|
  {
    if steps != [] {
      StepKeeps(cfg, s, steps[0]);
      StepKeepsGood(cfg, s, steps[0]);
      hide GoodAfter, SkipClosed, Apply, Enabled, WellFormed;
      RunKeepsGood(cfg, Apply(cfg, s, steps[0]), steps[1..], t);
    }
  }

  /** Back along a chain from a started phase: passed, passed, and then either not asked for or the start. */
  lemma {:induction false} BackToGap(cfg: Config, s: State, n: string, path: seq<string>, m: string) returns (i: nat)
    requires Tasks(cfg, s.state, s.running, s.begun) && GoodAfter(cfg, s.state, s.running)
    requires n in s.begun && HasStarted(s.state, s.running, m) && Leads(cfg.phases, n, path, m)
    ensures 0 < i < |path| - 1 && path[i] !in cfg.selected
    decreases |path|
  {
    var a := path[|path| - 2];
    assert Needs(cfg.phases, a, m);
    var p :| p in cfg.phases && p.name == m && !p.always && a in p.after;
    assert StateOf(s.state, a).Passed? || StateOf(s.state, a).Deselected?;
    if StateOf(s.state, a).Deselected? {
      i := |path| - 2;
    } else {
      assert |path| > 2;
      var front := path[..|path| - 1];
      assert Leads(cfg.phases, n, front, a);
      i := BackToGap(cfg, s, n, front, a);
    }
  }

  lemma ReachableGood(cfg: Config, steps: seq<Step>, s: State)
    requires WellFormed(cfg) && Reaches(cfg, steps, s)
    ensures Inv(cfg, s) && GoodAfter(cfg, s.state, s.running) && SkipClosed(cfg, s.state)
  {
    InitialInv(cfg);
    RunKeepsGood(cfg, Initial(cfg), steps, s);
  }

  /**
    Whatever is selected, and whatever has happened: a phase that has been started is a dependent of
    one still running only by chains through a phase `--only` left out.
  */
  lemma OnlyThroughTheGap(cfg: Config, steps: seq<Step>, s: State, n: string, path: seq<string>, m: string)
    returns (i: nat)
    requires WellFormed(cfg) && Reaches(cfg, steps, s)
    requires n in s.begun && m in s.running && Leads(cfg.phases, n, path, m)
    ensures 0 < i < |path| - 1 && path[i] !in cfg.selected
  {
    ReachableGood(cfg, steps, s);
    i := BackToGap(cfg, s, n, path, m);
  }
}
