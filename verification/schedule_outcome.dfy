/**
  What a run comes to. Every interleaving, any guest assignment, serial or parallel, with any
  breakpoints, ends in the same state map: a phase is skipped exactly when one that would fail leads
  to it. With `--only` that is so for the selections called firm below.
*/
module ScheduleOutcome {
  import opened Options
  import opened Phases
  import opened Schedule
  import opened ScheduleSafety
  import opened ScheduleWaits

  // ── what can be known of a selection before the run ───────────────

  /** A chain of selected phases from first to last. */
  ghost predicate SelectedChain(cfg: Config, n: string, path: seq<string>, m: string) {
    Leads(cfg.phases, n, path, m) && forall i :: 0 <= i < |path| ==> path[i] in cfg.selected
  }

  /**
    What a caller can check of `--only` before the run: where one selected phase depends on another
    at all, it does by selected phases alone. Without `--only` it always holds.
  */
  ghost predicate Linked(cfg: Config) {
    forall n, m :: n in cfg.selected && m in cfg.selected && DependsOn(cfg.phases, n, m) ==>
      exists path :: SelectedChain(cfg, n, path, m)
  }

  lemma AllSelectedIsLinked(cfg: Config)
    requires Names(cfg.phases) <= cfg.selected
    ensures Linked(cfg)
  {
    forall n, m | n in cfg.selected && m in cfg.selected && DependsOn(cfg.phases, n, m)
      ensures exists path :: SelectedChain(cfg, n, path, m)
    {
      var path :| Leads(cfg.phases, n, path, m);
      forall i | 0 <= i < |path| ensures path[i] in cfg.selected {
        if i > 0 {
          var before := i - 1;
          assert Needs(cfg.phases, path[before], path[before + 1]);
        }
      }
      assert SelectedChain(cfg, n, path, m);
    }
  }

  /** One phase asked for is linked, whatever it comes after. */
  lemma OneSelectedIsLinked(cfg: Config, n: string)
    requires cfg.selected == {n} && Acyclic(cfg.phases)
    ensures Linked(cfg)
  {
    if DependsOn(cfg.phases, n, n) {
      NotOwnDependent(cfg.phases, n, n);
    }
  }

  /** Some failure among `fails` skips `d`. */
  ghost predicate Taken(cfg: Config, fails: set<string>, d: string) {
    exists f :: f in fails && DependsOn(cfg.phases, f, d)
  }

  /** With `ended` over and `fails` failed nothing skips `x`, and every selected phase it names has its answer. */
  ghost predicate Cleared(cfg: Config, ended: set<string>, fails: set<string>, x: string) {
    && x in Names(cfg.phases) && x in cfg.selected && !Taken(cfg, fails, x)
    && forall a :: a in cfg.selected && Named(cfg.phases, a, x) ==> a in ended || Taken(cfg, fails, a)
  }

  /**
    `m` depends on `n`, and both may be under way at once: some phases can end, some of them failing,
    until nothing either of the two waits for is left.
  */
  ghost predicate Opening(cfg: Config, n: string, m: string, ended: set<string>, fails: set<string>) {
    && DependsOn(cfg.phases, n, m) && n !in ended && m !in ended && fails <= ended
    && Cleared(cfg, ended, fails, n) && Cleared(cfg, ended, fails, m)
    && forall x :: x in ended ==> Cleared(cfg, ended, fails, x)
  }

  /** No failure can overtake what depends on it. */
  ghost predicate Firm(cfg: Config) {
    forall n, m, ended, fails :: !Opening(cfg, n, m, ended, fails)
  }

  /** Back along a selected chain everything has ended, up to where the chain begins. */
  lemma {:induction false} NoChainToCleared(
    cfg: Config, n: string, ended: set<string>, fails: set<string>, path: seq<string>, x: string)
    requires n !in ended && Cleared(cfg, ended, fails, n) && Cleared(cfg, ended, fails, x)
    requires forall y :: y in ended ==> Cleared(cfg, ended, fails, y)
    ensures !SelectedChain(cfg, n, path, x)
    decreases |path|
  {
    hide Names;
    if SelectedChain(cfg, n, path, x) {
      var last := |path| - 2;
      var a := path[last];
      assert Needs(cfg.phases, path[last], path[last + 1]);
      assert Named(cfg.phases, a, x);
      if Taken(cfg, fails, a) {
        var f :| f in fails && DependsOn(cfg.phases, f, a);
        ExtendChain(cfg.phases, f, a, x);
        assert false;
      }
      var front := path[..|path| - 1];
      assert |front| > 1;
      assert SelectedChain(cfg, n, front, a);
      NoChainToCleared(cfg, n, ended, fails, front, a);
    }
  }

  lemma LinkedIsFirm(cfg: Config)
    requires Linked(cfg)
    ensures Firm(cfg)
  {
    forall n, m, ended, fails ensures !Opening(cfg, n, m, ended, fails) {
      if Opening(cfg, n, m, ended, fails) {
        var path :| SelectedChain(cfg, n, path, m);
        NoChainToCleared(cfg, n, ended, fails, path, m);
      }
    }
  }

  // ── what holds all along a firm selection ─────────────────────────

  ghost function FailedSet(state: States): set<string> {
    set f | f in state && state[f].Failed?
  }

  /** What a started phase named has its answer. */
  ghost predicate Behind(cfg: Config, state: States, running: map<string, Phase>) {
    forall x, a :: HasStarted(state, running, x) && Named(cfg.phases, a, x) ==> !Unfinished(StateOf(state, a))
  }

  /** What a started phase depends on has passed, if it was asked for. */
  ghost predicate Ordered(cfg: Config, state: States, running: map<string, Phase>) {
    forall n, x :: n in cfg.selected && HasStarted(state, running, x) && DependsOn(cfg.phases, n, x) ==>
      StateOf(state, n).Passed?
  }

  ghost predicate SkipExact(cfg: Config, state: States) {
    forall d :: d in state && d in cfg.selected ==> (state[d].Skipped? <==> Taken(cfg, FailedSet(state), d))
  }

  ghost predicate Tidy(cfg: Config, state: States, running: map<string, Phase>) {
    Behind(cfg, state, running) && Ordered(cfg, state, running) && SkipExact(cfg, state)
  }

  /** Neither a started task nor what it ended as is SKIPPED. */
  lemma StartedUnskipped(cfg: Config, s: State, x: string)
    requires Tasks(cfg, s.state, s.running, s.begun) && Tidy(cfg, s.state, s.running)
    requires HasStarted(s.state, s.running, x)
    ensures x in s.state && x in cfg.selected && !s.state[x].Skipped? && !Taken(cfg, FailedSet(s.state), x)
  {
    hide DependsOn, Behind, Names, Known;
    forall f | f in FailedSet(s.state) ensures !DependsOn(cfg.phases, f, x) {
      assert !StateOf(s.state, f).Passed?;
    }
  }

  /** What has ended by now, and what `n` still waits for and no failure so far has skipped. */
  ghost function EndedOrWanted(cfg: Config, s: State, n: string): set<string> {
    set x | x in s.state && x in cfg.selected && x != n && !Taken(cfg, FailedSet(s.state), x)
      && (HasStarted(s.state, s.running, x) || Waits(cfg, x, n))
  }

  /** All of that may end before `n`: what each of those names is among them too, or skipped. */
  lemma WantedCleared(cfg: Config, s: State, n: string, x: string)
    requires AfterClosed(cfg.phases) && Acyclic(cfg.phases)
    requires Tasks(cfg, s.state, s.running, s.begun) && Tidy(cfg, s.state, s.running)
    requires n in s.state && n in cfg.selected && Unfinished(s.state[n])
    requires x in s.state && x in cfg.selected && !Taken(cfg, FailedSet(s.state), x)
    requires HasStarted(s.state, s.running, x) || x == n || Waits(cfg, x, n)
      || forall a :: Named(cfg.phases, a, x) ==> !Unfinished(StateOf(s.state, a))
    ensures Cleared(cfg, EndedOrWanted(cfg, s, n), FailedSet(s.state), x)
  {
    var ended, fails := EndedOrWanted(cfg, s, n), FailedSet(s.state);
    forall a | a in cfg.selected && Named(cfg.phases, a, x) && !Taken(cfg, fails, a) ensures a in ended {
      assert a in s.state;
      hide DependsOn, Taken, Named, Names, AfterClosed, Known, Ordered;
      if HasStarted(s.state, s.running, x) || !Unfinished(s.state[a]) {
        assert !Unfinished(StateOf(s.state, a)) && !s.state[a].Skipped?;
        assert HasStarted(s.state, s.running, a);
      } else {
        WaitsFirst(cfg, a, x, n);
        var rank :| Ranked(cfg.phases, rank);
        WaitsRises(cfg, rank, a, n);
      }
    }
  }

  /** Where a phase can be started, everything selected that it depends on has passed. */
  lemma ReadyHasPassed(cfg: Config, s: State, n: string, m: string)
    requires WellFormed(cfg) && Firm(cfg)
    requires Tasks(cfg, s.state, s.running, s.begun) && Tidy(cfg, s.state, s.running)
    requires m in s.state && s.state[m].Pending? && m !in s.running
    requires forall a :: Named(cfg.phases, a, m) ==> !Unfinished(StateOf(s.state, a))
    requires n in cfg.selected && DependsOn(cfg.phases, n, m)
    ensures StateOf(s.state, n).Passed?
  {
    var fails := FailedSet(s.state);
    DependsOnNamed(cfg.phases, n, m);
    assert m in cfg.selected && !Taken(cfg, fails, m);
    if s.state[n].Skipped? {
      var f :| f in fails && DependsOn(cfg.phases, f, n);
      JoinChains(cfg.phases, f, n, m);
      assert false;
    } else if Unfinished(s.state[n]) {
      OpensHere(cfg, s, n, m);
    }
  }

  lemma OpensHere(cfg: Config, s: State, n: string, m: string)
    requires WellFormed(cfg)
    requires Tasks(cfg, s.state, s.running, s.begun) && Tidy(cfg, s.state, s.running)
    requires m in s.state && s.state[m].Pending? && m !in s.running && m in cfg.selected
    requires forall a :: Named(cfg.phases, a, m) ==> !Unfinished(StateOf(s.state, a))
    requires n in s.state && n in cfg.selected && DependsOn(cfg.phases, n, m) && Unfinished(s.state[n])
    ensures Opening(cfg, n, m, EndedOrWanted(cfg, s, n), FailedSet(s.state))
  {
    var ended, fails := EndedOrWanted(cfg, s, n), FailedSet(s.state);
    WantedCleared(cfg, s, n, n);
    WantedCleared(cfg, s, n, m);
    forall x | x in ended ensures Cleared(cfg, ended, fails, x) {
      WantedCleared(cfg, s, n, x);
    }
    forall f | f in fails ensures f in ended {
      StartedUnskipped(cfg, s, f);
    }
    if m in ended {
      NotBothWays(cfg, n, m);
    }
  }

  /** Nothing waits for what depends on it. */
  lemma NotBothWays(cfg: Config, n: string, m: string)
    requires Acyclic(cfg.phases) && DependsOn(cfg.phases, n, m)
    ensures !Waits(cfg, m, n) && n != m
  {
    var rank :| Ranked(cfg.phases, rank);
    var path :| Leads(cfg.phases, n, path, m);
    ChainRises(cfg.phases, rank, path);
    if Waits(cfg, m, n) {
      WaitsRises(cfg, rank, m, n);
    }
  }

  // ── every step keeps it ───────────────────────────────────────────

  lemma NamedIs(cfg: Config, a: string, p: Phase)
    requires DistinctNames(cfg.phases) && p in cfg.phases && Named(cfg.phases, a, p.name)
    ensures a in p.after
  {
    var q :| q in cfg.phases && q.name == p.name && a in q.after;
    SameNameSamePhase(cfg.phases, p, q);
  }

  /** What a turn starts had every answer it waits for. */
  lemma LaunchedAnswered(cfg: Config, s: State, m: string)
    requires DistinctNames(cfg.phases) && m in Names(Todo(cfg, s))
    ensures StateOf(s.state, m).Pending? && m !in s.running
    ensures forall a :: Named(cfg.phases, a, m) ==> !Unfinished(StateOf(s.state, a))
  {
    TodoFacts(cfg, s);
    CandidateFacts(cfg, s);
    var p :| p in Todo(cfg, s) && p.name == m;
    assert p in Candidates(cfg, s);
    forall a | Named(cfg.phases, a, m) ensures !Unfinished(StateOf(s.state, a)) {
      NamedIs(cfg, a, p);
    }
  }

  lemma LaunchKeepsTidy(cfg: Config, s: State)
    requires WellFormed(cfg) && Firm(cfg)
    requires Tasks(cfg, s.state, s.running, s.begun) && Tidy(cfg, s.state, s.running)
    ensures Tidy(cfg, s.state, LaunchAll(s, Todo(cfg, s)).running)
  {
    var todo := Todo(cfg, s);
    var t := LaunchAll(s, todo);
    LaunchEffect(s, todo);
    hide LaunchAll, Todo, Named, DependsOn, Taken, Firm;
    forall x | HasStarted(s.state, t.running, x) && !HasStarted(s.state, s.running, x)
      ensures x in s.state && s.state[x].Pending? && x !in s.running
      ensures forall a :: Named(cfg.phases, a, x) ==> !Unfinished(StateOf(s.state, a))
    {
      assert x in Names(todo);
      LaunchedAnswered(cfg, s, x);
      TodoKnown(cfg, s, x);
    }
    hide Names, Known, SkipExact;
    forall n, x | n in cfg.selected && HasStarted(s.state, t.running, x) && DependsOn(cfg.phases, n, x)
      ensures StateOf(s.state, n).Passed?
    {
      if !HasStarted(s.state, s.running, x) {
        ReadyHasPassed(cfg, s, n, x);
      }
    }
  }

  lemma TodoKnown(cfg: Config, s: State, m: string)
    requires m in Names(Todo(cfg, s))
    ensures m in Names(cfg.phases)
  {
    TodoFacts(cfg, s);
    CandidateFacts(cfg, s);
    var p :| p in Todo(cfg, s) && p.name == m;
    assert p in Candidates(cfg, s) && p in cfg.phases;
  }

  lemma TurnKeepsTidy(cfg: Config, s: State)
    requires WellFormed(cfg) && Firm(cfg)
    requires Tasks(cfg, s.state, s.running, s.begun) && Tidy(cfg, s.state, s.running)
    ensures var t := TurnOf(cfg, s); Tidy(cfg, t.state, t.running)
  {
    LaunchKeepsTidy(cfg, s);
    LaunchEffect(s, Todo(cfg, s));
    hide LaunchAll, Tidy, Todo, ReasonFor;
  }

  /** A step that fails nothing, starts nothing new and takes no answer back. */
  lemma TidyCarries(cfg: Config, state: States, running: map<string, Phase>, later: States, left: map<string, Phase>)
    requires Tidy(cfg, state, running) && later.Keys == state.Keys
    requires forall x :: HasStarted(later, left, x) ==> HasStarted(state, running, x)
    requires forall x :: Unfinished(StateOf(later, x)) ==> Unfinished(StateOf(state, x))
    requires forall x :: StateOf(state, x).Passed? ==> StateOf(later, x).Passed?
    requires forall x :: StateOf(later, x).Skipped? == StateOf(state, x).Skipped?
    requires forall x :: StateOf(later, x).Failed? == StateOf(state, x).Failed?
    ensures Tidy(cfg, later, left)
  {
    hide Named, DependsOn, HasStarted;
    assert FailedSet(later) == FailedSet(state) by {
      forall f ensures f in FailedSet(later) <==> f in FailedSet(state) {
        assert StateOf(later, f).Failed? == StateOf(state, f).Failed?;
      }
    }
    hide FailedSet;
    forall d | d in later && d in cfg.selected
      ensures later[d].Skipped? <==> Taken(cfg, FailedSet(later), d)
    {
      assert StateOf(later, d).Skipped? == StateOf(state, d).Skipped?;
    }
  }

  lemma BeginKeepsTidy(cfg: Config, s: State, n: string)
    requires Tasks(cfg, s.state, s.running, s.begun) && Tidy(cfg, s.state, s.running)
    requires n in s.running && n !in s.begun
    ensures var t := BeginState(cfg, s, n); Tidy(cfg, t.state, t.running)
  {
    var t := BeginState(cfg, s, n);
    StartedUnskipped(cfg, s, n);
    assert s.state[n].Pending?;
    hide Guests, Names, Tidy;
    TidyCarries(cfg, s.state, s.running, t.state, t.running);
  }

  lemma PassKeepsTidy(cfg: Config, s: State, n: string)
    requires Tasks(cfg, s.state, s.running, s.begun) && Tidy(cfg, s.state, s.running) && n in s.begun
    ensures var t := EndState(cfg, s, n, true); Tidy(cfg, t.state, t.running)
  {
    var t := EndState(cfg, s, n, true);
    assert StateOf(s.state, n).Running?;
    hide Guests, Names, Tidy, FailedStates, NewlySkipped;
    TidyCarries(cfg, s.state, s.running, t.state, t.running);
  }

  /** What a failure makes of the states, where it finds no dependent started. */
  lemma FailedExactly(cfg: Config, s: State, n: string, d: string)
    requires Acyclic(cfg.phases) && Tasks(cfg, s.state, s.running, s.begun) && Tidy(cfg, s.state, s.running)
    requires n in s.begun
    ensures EndState(cfg, s, n, false).state.Keys == s.state.Keys
    ensures d in s.state ==>
      EndState(cfg, s, n, false).state[d] == (
        if d == n then Failed
        else if d in cfg.selected && DependsOn(cfg.phases, n, d) then Skipped
        else s.state[d])
  {
    var t := EndState(cfg, s, n, false);
    assert n in s.state && s.state[n].Running? && n in cfg.selected;
    if d in s.state && DependsOn(cfg.phases, n, d) {
      assert !HasStarted(s.state, s.running, d);
    }
    hide DependsOn, Tidy, Known, Guests;
  }

  lemma FailedAre(cfg: Config, s: State, n: string)
    requires Acyclic(cfg.phases) && Tasks(cfg, s.state, s.running, s.begun) && Tidy(cfg, s.state, s.running)
    requires n in s.begun
    ensures FailedSet(EndState(cfg, s, n, false).state) == FailedSet(s.state) + {n}
  {
    var t := EndState(cfg, s, n, false);
    forall f ensures f in FailedSet(t.state) <==> f in FailedSet(s.state) + {n} {
      FailedExactly(cfg, s, n, f);
      hide EndState, DependsOn;
      if f in FailedSet(s.state) {
        DependentUnstarted(cfg, s, n, f);
      }
    }
  }

  lemma DependentUnstarted(cfg: Config, s: State, n: string, d: string)
    requires Tasks(cfg, s.state, s.running, s.begun) && Tidy(cfg, s.state, s.running)
    requires n in s.begun && HasStarted(s.state, s.running, d)
    ensures !DependsOn(cfg.phases, n, d)
  {
    assert StateOf(s.state, n).Running? && n in cfg.selected;
    hide Known, Behind, SkipExact;
  }

  lemma FailKeepsSkipExact(cfg: Config, s: State, n: string)
    requires Acyclic(cfg.phases) && Tasks(cfg, s.state, s.running, s.begun) && Tidy(cfg, s.state, s.running)
    requires n in s.begun
    ensures SkipExact(cfg, EndState(cfg, s, n, false).state)
  {
    var t := EndState(cfg, s, n, false);
    FailedAre(cfg, s, n);
    hide EndState, DependsOn, FailedSet;
    forall d | d in t.state && d in cfg.selected
      ensures t.state[d].Skipped? <==> Taken(cfg, FailedSet(t.state), d)
    {
      FailedExactly(cfg, s, n, d);
      TakenOneMore(cfg, FailedSet(s.state), n, d);
      if d == n {
        StartedUnskipped(cfg, s, n);
        NotOwnDependent(cfg.phases, n, n);
        assert !DependsOn(cfg.phases, n, n);
      }
    }
  }

  lemma TakenOneMore(cfg: Config, fails: set<string>, n: string, d: string)
    ensures Taken(cfg, fails + {n}, d) <==> Taken(cfg, fails, d) || DependsOn(cfg.phases, n, d)
  {
    if DependsOn(cfg.phases, n, d) {
      assert n in fails + {n};
    }
  }

  lemma FailKeepsOrder(cfg: Config, s: State, n: string)
    requires Acyclic(cfg.phases) && Tasks(cfg, s.state, s.running, s.begun) && Tidy(cfg, s.state, s.running)
    requires n in s.begun
    ensures var t := EndState(cfg, s, n, false); Behind(cfg, t.state, t.running) && Ordered(cfg, t.state, t.running)
  {
    var t := EndState(cfg, s, n, false);
    EndLeaves(cfg, s, n, false);
    hide EndState, DependsOn, Named, SkipExact, Known, Names;
    forall x
      ensures HasStarted(t.state, t.running, x) ==> HasStarted(s.state, s.running, x)
      ensures Unfinished(StateOf(t.state, x)) ==> Unfinished(StateOf(s.state, x))
      ensures StateOf(s.state, x).Passed? ==> StateOf(t.state, x).Passed?
    {
      EndTouches(cfg, s, n, false, x);
    }
    hide HasStarted, StateOf, Unfinished;
  }

  lemma FailKeepsTidy(cfg: Config, s: State, n: string)
    requires Acyclic(cfg.phases) && Tasks(cfg, s.state, s.running, s.begun) && Tidy(cfg, s.state, s.running)
    requires n in s.begun
    ensures var t := EndState(cfg, s, n, false); Tidy(cfg, t.state, t.running)
  {
    FailKeepsSkipExact(cfg, s, n);
    FailKeepsOrder(cfg, s, n);
    hide EndState, Behind, Ordered, SkipExact;
  }

  lemma StepKeepsTidy(cfg: Config, s: State, step: Step)
    requires WellFormed(cfg) && Firm(cfg) && Enabled(s, step)
    requires Tasks(cfg, s.state, s.running, s.begun) && Tidy(cfg, s.state, s.running)
    ensures var t := Apply(cfg, s, step); Tidy(cfg, t.state, t.running)
  {
    hide Tidy, TurnOf, BeginState, EndState, Firm;
    match step
    case Boot => TurnKeepsTidy(cfg, s);
    case Wake => TurnKeepsTidy(cfg, s.(changed := false));
    case Continue => TurnKeepsTidy(cfg, s.(log := s.log + [Resumed]));
    case Begin(n) => BeginKeepsTidy(cfg, s, n);
    case End(n, ok) => if ok { PassKeepsTidy(cfg, s, n); } else { FailKeepsTidy(cfg, s, n); }
  }

  lemma {:induction false} RunKeepsTidy(cfg: Config, s: State, steps: seq<Step>, t: State)
    requires WellFormed(cfg) && Firm(cfg) && Inv(cfg, s) && Tidy(cfg, s.state, s.running)
    requires Execute(cfg, s, steps) == Some(t)
    ensures Inv(cfg, t) && Tidy(cfg, t.state, t.running)
    decreases |steps|
  {
    hide Tidy, Apply, Enabled, Firm, Inv, DistinctNames, AfterClosed, Acyclic, NodesKnown;
    if steps != [] {
      TasksOf(cfg, s);
      StepKeeps(cfg, s, steps[0]);
      StepKeepsTidy(cfg, s, steps[0]);
      RunKeepsTidy(cfg, Apply(cfg, s, steps[0]), steps[1..], t);
    }
  }

  lemma TasksOf(cfg: Config, s: State)
    requires Inv(cfg, s)
    ensures Tasks(cfg, s.state, s.running, s.begun)
  {
  }

  lemma InitialTidy(cfg: Config)
    ensures Tidy(cfg, Initial(cfg).state, map[])
  {
  }

  lemma ReachableTidy(cfg: Config, steps: seq<Step>, s: State)
    requires WellFormed(cfg) && Firm(cfg) && Reaches(cfg, steps, s)
    ensures Inv(cfg, s) && Tidy(cfg, s.state, s.running)
  {
    InitialInv(cfg);
    InitialTidy(cfg);
    hide Tidy, Inv, Firm, WellFormed, Execute;
    RunKeepsTidy(cfg, Initial(cfg), steps, s);
  }

  // ── the theorems ──────────────────────────────────────────────────

  /** No failure can skip a phase that `_schedule` has put in `running`, however far its task has got. */
  lemma FailureSparesLaunched(cfg: Config, steps: seq<Step>, s: State, n: string, m: string)
    requires WellFormed(cfg) && Firm(cfg) && Reaches(cfg, steps, s)
    requires n in s.begun && m in s.running
    ensures m !in DependentsOf(n, cfg.phases) && !StateOf(s.state, m).Skipped?
  {
    ReachableTidy(cfg, steps, s);
    hide Execute, WellFormed, Firm;
    DependentUnstarted(cfg, s, n, m);
    StartedUnskipped(cfg, s, m);
  }

  /** In every reachable state the skipped phases are exactly those a chain leads to from a failed one. */
  lemma SkippedExactly(cfg: Config, steps: seq<Step>, s: State, d: string)
    requires WellFormed(cfg) && Firm(cfg) && Reaches(cfg, steps, s)
    requires d in s.state && d in cfg.selected
    ensures s.state[d].Skipped? <==>
      exists f :: f in s.state && s.state[f].Failed? && DependsOn(cfg.phases, f, d)
  {
    ReachableTidy(cfg, steps, s);
    hide Execute, Firm, WellFormed, Behind, Ordered, Inv;
    assert Taken(cfg, FailedSet(s.state), d) <==>
           exists f :: f in s.state && s.state[f].Failed? && DependsOn(cfg.phases, f, d)
    by {
      if f :| f in s.state && s.state[f].Failed? && DependsOn(cfg.phases, f, d) {
        assert f in FailedSet(s.state);
      }
    }
  }

  /** How phase `n` would do, given the chance. */
  predicate Would(outcome: map<string, bool>, n: string) {
    n in outcome && outcome[n]
  }

  /** A phase that ends, ends as `outcome` says. */
  predicate EndsAs(step: Step, outcome: map<string, bool>) {
    step.End? ==> step.ok == Would(outcome, step.name)
  }

  predicate Follows(steps: seq<Step>, outcome: map<string, bool>) {
    forall i :: 0 <= i < |steps| ==> EndsAs(steps[i], outcome)
  }

  /** The selected phases that would fail. */
  ghost function Failing(cfg: Config, outcome: map<string, bool>): set<string> {
    set f | f in Names(cfg.phases) && f in cfg.selected && !Would(outcome, f)
  }

  /** What a phase comes to: skipped if any that would fail leads to it, else what it would do itself. */
  ghost function Fate(cfg: Config, outcome: map<string, bool>, n: string): PhaseState {
    if n !in cfg.selected then Deselected
    else if Taken(cfg, Failing(cfg, outcome), n) then Skipped
    else if Would(outcome, n) then Passed
    else Failed
  }

  ghost function PhaseNamed(phases: seq<Phase>, n: string): (p: Phase)
    requires n in Names(phases)
    ensures p in phases && p.name == n
  {
    var p :| p in phases && p.name == n;
    p
  }

  /** The same, if the selection is linked, as a recursion over `after` alone: no chains, no deselected phases. */
  ghost function Verdict(cfg: Config, rank: map<string, nat>, outcome: map<string, bool>, n: string): PhaseState
    requires AfterClosed(cfg.phases) && Ranked(cfg.phases, rank) && n in Names(cfg.phases)
    decreases rank[n]
  {
    var p := PhaseNamed(cfg.phases, n);
    if n !in cfg.selected then Deselected
    else if !p.always && (exists a :: a in p.after && Bad(Verdict(cfg, rank, outcome, a))) then Skipped
    else if Would(outcome, n) then Passed
    else Failed
  }

  lemma BadSkips(cfg: Config, outcome: map<string, bool>, a: string, n: string)
    requires AfterClosed(cfg.phases) && Needs(cfg.phases, a, n) && Bad(Fate(cfg, outcome, a))
    ensures Taken(cfg, Failing(cfg, outcome), n)
  {
    var fails := Failing(cfg, outcome);
    if Taken(cfg, fails, a) {
      var f :| f in fails && DependsOn(cfg.phases, f, a);
      ExtendChain(cfg.phases, f, a, n);
    } else {
      assert a in fails;
      ExtendChain(cfg.phases, a, a, n);
    }
  }

  /** Down a selected chain from a phase that would fail, the phase before the last comes to no good. */
  lemma SkipIsCaused(cfg: Config, outcome: map<string, bool>, n: string) returns (a: string)
    requires Linked(cfg) && n in cfg.selected && Taken(cfg, Failing(cfg, outcome), n)
    ensures Needs(cfg.phases, a, n) && Bad(Fate(cfg, outcome, a))
  {
    var fails := Failing(cfg, outcome);
    var f :| f in fails && DependsOn(cfg.phases, f, n);
    var path :| SelectedChain(cfg, f, path, n);
    var last := |path| - 2;
    a := path[last];
    assert Needs(cfg.phases, path[last], path[last + 1]);
    if last > 0 {
      var front := path[..|path| - 1];
      assert Leads(cfg.phases, f, front, a);
      assert Taken(cfg, fails, a);
    }
  }

  lemma {:induction false} VerdictIsFate(cfg: Config, rank: map<string, nat>, outcome: map<string, bool>, n: string)
    requires Linked(cfg) && DistinctNames(cfg.phases) && AfterClosed(cfg.phases) && Ranked(cfg.phases, rank)
    requires n in Names(cfg.phases)
    ensures Verdict(cfg, rank, outcome, n) == Fate(cfg, outcome, n)
    decreases rank[n]
  {
    var p := PhaseNamed(cfg.phases, n);
    forall a | a in p.after ensures Verdict(cfg, rank, outcome, a) == Fate(cfg, outcome, a) {
      VerdictIsFate(cfg, rank, outcome, a);
    }
    hide Linked, Taken, Failing;
    if n in cfg.selected {
      if a :| a in p.after && !p.always && Bad(Verdict(cfg, rank, outcome, a)) {
        assert Needs(cfg.phases, a, n);
        BadSkips(cfg, outcome, a, n);
      }
      if Taken(cfg, Failing(cfg, outcome), n) {
        var a := SkipIsCaused(cfg, outcome, n);
        var q :| q in cfg.phases && q.name == n && !q.always && a in q.after;
        SameNameSamePhase(cfg.phases, p, q);
        assert Bad(Verdict(cfg, rank, outcome, a));
      }
    }
  }

  ghost predicate OutcomeKept(state: States, outcome: map<string, bool>) {
    && (forall n :: n in state && state[n].Passed? ==> Would(outcome, n))
    && (forall n :: n in state && state[n].Failed? ==> !Would(outcome, n))
  }

  lemma {:induction false} RunKeepsOutcome(cfg: Config, s: State, steps: seq<Step>, t: State,
      outcome: map<string, bool>)
    requires Follows(steps, outcome) && OutcomeKept(s.state, outcome) && Execute(cfg, s, steps) == Some(t)
    ensures OutcomeKept(t.state, outcome)
    decreases |steps|
  {
    hide OutcomeKept, Apply, EndsAs;
    if steps != [] {
      StepKeepsOutcome(cfg, s, steps[0], outcome);
      RunKeepsOutcome(cfg, Apply(cfg, s, steps[0]), steps[1..], t, outcome);
    }
  }

  lemma StepKeepsOutcome(cfg: Config, s: State, step: Step, outcome: map<string, bool>)
    requires Enabled(s, step) && OutcomeKept(s.state, outcome) && EndsAs(step, outcome)
    ensures OutcomeKept(Apply(cfg, s, step).state, outcome)
  {
    hide TurnOf, Guests, Names, DependentsOf;
    match step
    case Boot => TurnTouches(cfg, s);
    case Wake => TurnTouches(cfg, s.(changed := false));
    case Continue => TurnTouches(cfg, s.(log := s.log + [Resumed]));
    case Begin(n) =>
    case End(n, ok) =>
  }

  lemma ReachableOutcome(cfg: Config, steps: seq<Step>, s: State, outcome: map<string, bool>)
    requires Reaches(cfg, steps, s) && Follows(steps, outcome)
    ensures OutcomeKept(s.state, outcome)
  {
    RunKeepsOutcome(cfg, Initial(cfg), steps, s, outcome);
  }

  /** Past its loop the scheduler has left no phase without an answer. */
  lemma {:induction false} NothingPending(cfg: Config, s: State, rank: map<string, nat>, n: string)
    requires AfterClosed(cfg.phases) && Ranked(cfg.phases, rank) && Inv(cfg, s) && s.stage == Done
    requires n in Names(cfg.phases)
    ensures !Unfinished(s.state[n])
    decreases rank[n]
  {
    var p :| p in cfg.phases && p.name == n;
    forall a | a in p.after ensures !Unfinished(StateOf(s.state, a)) {
      NothingPending(cfg, s, rank, a);
    }
    hide Exclusive, HoldersExact;
    assert p !in Ready(cfg.phases, s.state);
    assert Answered(p, s.state);
  }

  lemma AllAnswered(cfg: Config, s: State)
    requires AfterClosed(cfg.phases) && Acyclic(cfg.phases) && Inv(cfg, s) && s.stage == Done
    ensures Tasks(cfg, s.state, s.running, s.begun)
    ensures forall n :: n in s.state ==> !Unfinished(s.state[n])
  {
    var rank :| Ranked(cfg.phases, rank);
    forall n | n in s.state ensures !Unfinished(s.state[n]) {
      NothingPending(cfg, s, rank, n);
    }
    hide Exclusive, HoldersExact, Stages, Ranked, AfterClosed;
  }

  lemma EndsAsFate(cfg: Config, s: State, outcome: map<string, bool>, n: string)
    requires AfterClosed(cfg.phases) && Tasks(cfg, s.state, s.running, s.begun)
    requires forall m :: m in s.state ==> !Unfinished(s.state[m])
    requires SkipExact(cfg, s.state) && OutcomeKept(s.state, outcome)
    requires n in s.state
    ensures s.state[n] == Fate(cfg, outcome, n)
  {
    var fails, failed := Failing(cfg, outcome), FailedSet(s.state);
    hide DependsOn, Known;
    if n in cfg.selected && Taken(cfg, failed, n) {
      var f :| f in failed && DependsOn(cfg.phases, f, n);
      assert f in fails;
    }
    if n in cfg.selected && Taken(cfg, fails, n) {
      var f :| f in fails && DependsOn(cfg.phases, f, n);
      if s.state[f].Failed? {
        assert f in failed;
      } else {
        assert s.state[f].Skipped?;
        var g :| g in failed && DependsOn(cfg.phases, g, f);
        JoinChains(cfg.phases, g, f, n);
      }
    }
  }

  lemma AllFates(cfg: Config, steps: seq<Step>, s: State, outcome: map<string, bool>)
    requires WellFormed(cfg) && Firm(cfg)
    requires Reaches(cfg, steps, s) && s.stage == Done && Follows(steps, outcome)
    ensures s.state == map n | n in Names(cfg.phases) :: Fate(cfg, outcome, n)
  {
    ReachableTidy(cfg, steps, s);
    ReachableOutcome(cfg, steps, s, outcome);
    AllAnswered(cfg, s);
    assert s.state.Keys == Names(cfg.phases) && AfterClosed(cfg.phases);
    hide Firm, WellFormed, Reaches, Follows, Inv, Fate, OutcomeKept, SkipExact, Behind, Ordered, Tasks, AfterClosed;
    forall n | n in s.state ensures s.state[n] == Fate(cfg, outcome, n) {
      EndsAsFate(cfg, s, outcome, n);
    }
    hide Names;
  }

  lemma AllVerdicts(cfg: Config, rank: map<string, nat>, outcome: map<string, bool>)
    requires Linked(cfg) && DistinctNames(cfg.phases) && AfterClosed(cfg.phases) && Ranked(cfg.phases, rank)
    ensures (map n | n in Names(cfg.phases) :: Fate(cfg, outcome, n))
         == (map n | n in Names(cfg.phases) :: Verdict(cfg, rank, outcome, n))
  {
    hide Linked, DistinctNames, AfterClosed, Ranked, Names, Fate, Verdict;
    forall n | n in Names(cfg.phases) ensures Verdict(cfg, rank, outcome, n) == Fate(cfg, outcome, n) {
      VerdictIsFate(cfg, rank, outcome, n);
    }
  }

  /**
    A finished run's states, whatever the interleaving was: each phase has its fate. Where the selection
    is linked that is the recursion over `after`.
  */
  lemma FinalStates(cfg: Config, steps: seq<Step>, s: State, rank: map<string, nat>, outcome: map<string, bool>)
    requires WellFormed(cfg) && Firm(cfg) && Ranked(cfg.phases, rank)
    requires Reaches(cfg, steps, s) && s.stage == Done && Follows(steps, outcome)
    ensures s.state == map n | n in Names(cfg.phases) :: Fate(cfg, outcome, n)
    ensures Linked(cfg) ==> s.state == map n | n in Names(cfg.phases) :: Verdict(cfg, rank, outcome, n)
  {
    hide Reaches, Follows, Firm, Linked, Ranked, Names, Fate, Verdict;
    AllFates(cfg, steps, s, outcome);
    if Linked(cfg) {
      AllVerdicts(cfg, rank, outcome);
    }
  }

  /** The same phases as far as `after`, `always` and `--only` go; guests, pytest, breaks and serial may differ. */
  ghost predicate SameGraph(cfg: Config, other: Config) {
    && cfg.selected == other.selected
    && |cfg.phases| == |other.phases|
    && forall i :: 0 <= i < |cfg.phases| ==>
         var p, q := cfg.phases[i], other.phases[i];
         p.name == q.name && p.after == q.after && p.always == q.always
  }

  lemma SameNeeds(cfg: Config, other: Config)
    requires SameGraph(cfg, other)
    ensures forall a, b :: Needs(cfg.phases, a, b) <==> Needs(other.phases, a, b)
    ensures forall a, b :: Named(cfg.phases, a, b) <==> Named(other.phases, a, b)
    ensures Names(cfg.phases) == Names(other.phases)
  {
    forall p | p in cfg.phases
      ensures exists q :: q in other.phases && p.name == q.name && p.after == q.after && p.always == q.always
    {
      var i :| 0 <= i < |cfg.phases| && cfg.phases[i] == p;
      assert other.phases[i] in other.phases;
    }
    forall q | q in other.phases
      ensures exists p :: p in cfg.phases && p.name == q.name && p.after == q.after && p.always == q.always
    {
      var i :| 0 <= i < |other.phases| && other.phases[i] == q;
      assert cfg.phases[i] in cfg.phases;
    }
  }

  lemma SameChains(cfg: Config, other: Config)
    requires SameGraph(cfg, other)
    ensures forall n, path, m :: Leads(cfg.phases, n, path, m) <==> Leads(other.phases, n, path, m)
    ensures forall n, m :: DependsOn(cfg.phases, n, m) <==> DependsOn(other.phases, n, m)
  {
    SameNeeds(cfg, other);
    hide Needs, Named;
    forall n, path, m ensures Leads(cfg.phases, n, path, m) <==> Leads(other.phases, n, path, m) {
    }
    hide Leads;
    forall n, m ensures DependsOn(cfg.phases, n, m) <==> DependsOn(other.phases, n, m) {
      if path :| Leads(cfg.phases, n, path, m) {
        assert Leads(other.phases, n, path, m);
      }
      if path :| Leads(other.phases, n, path, m) {
        assert Leads(cfg.phases, n, path, m);
      }
    }
  }

  lemma SameTaken(cfg: Config, other: Config)
    requires SameGraph(cfg, other)
    ensures forall fails, d :: Taken(cfg, fails, d) <==> Taken(other, fails, d)
  {
    SameChains(cfg, other);
    hide DependsOn, Leads;
  }

  lemma SameOpenings(cfg: Config, other: Config)
    requires SameGraph(cfg, other)
    ensures forall n, m, ended, fails :: Opening(cfg, n, m, ended, fails) <==> Opening(other, n, m, ended, fails)
    ensures Firm(cfg) <==> Firm(other)
  {
    SameNeeds(cfg, other);
    SameChains(cfg, other);
    SameTaken(cfg, other);
    hide Needs, Named, DependsOn, Leads, Taken, Names, SameGraph;
    assert cfg.selected == other.selected by { SameSelected(cfg, other); }
    forall ended, fails, x ensures Cleared(cfg, ended, fails, x) <==> Cleared(other, ended, fails, x) {
    }
    hide Cleared;
  }

  lemma SameSelected(cfg: Config, other: Config)
    requires SameGraph(cfg, other)
    ensures cfg.selected == other.selected
  {
  }

  lemma GraphCarries(cfg: Config, other: Config, rank: map<string, nat>)
    requires SameGraph(cfg, other) && Ranked(cfg.phases, rank)
    ensures Names(cfg.phases) == Names(other.phases) && Ranked(other.phases, rank)
  {
    SameNeeds(cfg, other);
    hide Needs, Named;
    forall q | q in other.phases
      ensures exists p :: p in cfg.phases && p.name == q.name && p.after == q.after
    {
      var i :| 0 <= i < |other.phases| && other.phases[i] == q;
      assert cfg.phases[i] in cfg.phases;
    }
  }

  lemma SameFates(cfg: Config, other: Config, outcome: map<string, bool>)
    requires SameGraph(cfg, other)
    ensures Names(cfg.phases) == Names(other.phases)
    ensures forall n :: Fate(cfg, outcome, n) == Fate(other, outcome, n)
  {
    SameNeeds(cfg, other);
    SameTaken(cfg, other);
    SameSelected(cfg, other);
    hide Taken, Names, SameGraph;
    assert Failing(cfg, outcome) == Failing(other, outcome);
  }

  /**
    Two finished runs of one graph, each phase doing what it does, end in the same states: whichever
    guests the phases were given, serial or not, with any breakpoints, in any interleaving.
  */
  lemma ScheduleIndependence(cfg: Config, steps: seq<Step>, s: State,
                             other: Config, otherSteps: seq<Step>, t: State, outcome: map<string, bool>)
    requires WellFormed(cfg) && WellFormed(other) && Firm(cfg) && SameGraph(cfg, other)
    requires Reaches(cfg, steps, s) && s.stage == Done && Follows(steps, outcome)
    requires Reaches(other, otherSteps, t) && t.stage == Done && Follows(otherSteps, outcome)
    ensures s.state == t.state
  {
    SameOpenings(cfg, other);
    hide Reaches, WellFormed, SameGraph, Firm, Follows, Fate, Opening;
    AllFates(cfg, steps, s, outcome);
    AllFates(other, otherSteps, t, outcome);
    SameFates(cfg, other, outcome);
    hide Names;
  }

  /** Where every selected phase would pass nothing fails, and so nothing is skipped. */
  ghost predicate NothingBad(state: States) {
    forall n :: n in state ==> !Bad(state[n])
  }

  lemma {:induction false} PassingRunStaysGood(cfg: Config, s: State, steps: seq<Step>, t: State)
    requires Execute(cfg, s, steps) == Some(t) && NothingBad(s.state)
    requires forall i :: 0 <= i < |steps| && steps[i].End? ==> steps[i].ok
    ensures NothingBad(t.state)
    decreases |steps|
  {
    if steps != [] {
      var u := Apply(cfg, s, steps[0]);
      StepStaysGood(cfg, s, steps[0]);
      assert forall i :: 0 <= i < |steps[1..]| ==> steps[1..][i] == steps[i + 1];
      hide NothingBad, Apply;
      PassingRunStaysGood(cfg, u, steps[1..], t);
    }
  }

  lemma StepStaysGood(cfg: Config, s: State, step: Step)
    requires Enabled(s, step) && NothingBad(s.state) && (step.End? ==> step.ok)
    ensures NothingBad(Apply(cfg, s, step).state)
  {
    match step
    case Boot => TurnTouches(cfg, s);
    case Wake => TurnTouches(cfg, s.(changed := false));
    case Continue => TurnTouches(cfg, s.(log := s.log + [Resumed]));
    case Begin(n) => hide Guests, Names;
    case End(n, ok) => hide FailedStates, Guests, Names;
    hide TurnOf;
  }

  /** Only selected phases end. */
  lemma {:induction false} EndsAreSelected(cfg: Config, s: State, steps: seq<Step>, t: State, i: nat)
    requires NodesKnown(cfg) && Inv(cfg, s) && Execute(cfg, s, steps) == Some(t)
    requires i < |steps| && steps[i].End?
    ensures steps[i].name in Names(cfg.phases) && steps[i].name in cfg.selected
    decreases |steps|
  {
    if i > 0 {
      StepKeeps(cfg, s, steps[0]);
      hide Inv, Apply, Enabled, Names;
      EndsAreSelected(cfg, Apply(cfg, s, steps[0]), steps[1..], t, i - 1);
    }
  }

  /** At any moment a run has passed exactly if every selected phase has: not before it has begun, nor halfway. */
  lemma PassedExactly(cfg: Config, steps: seq<Step>, s: State)
    requires WellFormed(cfg) && Reaches(cfg, steps, s)
    ensures Succeeded(s.state) <==>
      forall n :: n in Names(cfg.phases) && n in cfg.selected ==> n in s.state && s.state[n].Passed?
  {
    ReachableInv(cfg, steps, s);
    hide Execute, Names, Known;
  }

  /** Every selected phase would pass. */
  predicate AllWould(cfg: Config, outcome: map<string, bool>) {
    forall n :: n in Names(cfg.phases) && n in cfg.selected ==> Would(outcome, n)
  }

  lemma WouldSucceed(cfg: Config, steps: seq<Step>, s: State, outcome: map<string, bool>)
    requires WellFormed(cfg) && Reaches(cfg, steps, s) && Follows(steps, outcome) && AllWould(cfg, outcome)
    ensures NothingBad(s.state)
  {
    InitialInv(cfg);
    hide Inv, NothingBad, DistinctNames, AfterClosed, Acyclic, NodesKnown, Names;
    forall i | 0 <= i < |steps| && steps[i].End? ensures steps[i].ok {
      EndsAreSelected(cfg, Initial(cfg), steps, s, i);
      assert EndsAs(steps[i], outcome);
    }
    hide Execute, Follows, AllWould;
    InitiallyGood(cfg);
    PassingRunStaysGood(cfg, Initial(cfg), steps, s);
  }

  lemma InitiallyGood(cfg: Config)
    ensures NothingBad(Initial(cfg).state)
  {
  }

  /** The run succeeds exactly when every selected phase would, whatever is selected. */
  lemma SucceedsExactly(cfg: Config, steps: seq<Step>, s: State, outcome: map<string, bool>)
    requires WellFormed(cfg) && Reaches(cfg, steps, s) && s.stage == Done && Follows(steps, outcome)
    ensures Succeeded(s.state) <==> AllWould(cfg, outcome)
  {
    ReachableInv(cfg, steps, s);
    ReachableOutcome(cfg, steps, s, outcome);
    AllAnswered(cfg, s);
    if AllWould(cfg, outcome) {
      WouldSucceed(cfg, steps, s, outcome);
    }
    hide Inv, WellFormed, Execute, Follows, Known, Names;
    if !AllWould(cfg, outcome) {
      var n :| n in Names(cfg.phases) && n in cfg.selected && !Would(outcome, n);
      assert n in s.state && !(s.state[n].Passed? || s.state[n].Deselected?);
    }
  }
}
