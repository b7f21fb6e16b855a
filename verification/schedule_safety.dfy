/** What every step of every run keeps: exclusive guests, exact attribution, no lost wake-up. */
module ScheduleSafety {
  import opened Options
  import opened Phases
  import opened Schedule

  lemma LaunchKeepsTasks(cfg: Config, s: State)
    requires Tasks(cfg, s.state, s.running, s.begun)
    ensures Tasks(cfg, s.state, LaunchAll(s, Todo(cfg, s)).running, s.begun)
  {
    LaunchEffect(s, Todo(cfg, s));
    TodoFacts(cfg, s);
    CandidateFacts(cfg, s);
  }

  lemma MoreKeepsExclusive(cfg: Config, running: map<string, Phase>, more: map<string, Phase>, todo: seq<Phase>)
    requires Exclusive(cfg, running)
    requires more.Keys == running.Keys + Names(todo)
    requires forall n :: n in running && n !in Names(todo) ==> more[n] == running[n]
    requires forall n :: n in Names(todo) ==> more[n] in todo && more[n].name == n
    requires forall p, q :: p in todo && q in running.Values ==> Claims(p, cfg.machines) !! Claims(q, cfg.machines)
    requires forall i, j :: 0 <= i < j < |todo| ==> Claims(todo[i], cfg.machines) !! Claims(todo[j], cfg.machines)
    ensures Exclusive(cfg, more)
  {
    hide Claims;
    forall m, n | m in more && n in more && m != n
      ensures Claims(more[m], cfg.machines) !! Claims(more[n], cfg.machines)
    {
      var p, q := more[m], more[n];
      if m in Names(todo) && n in Names(todo) {
        var i :| 0 <= i < |todo| && todo[i] == p;
        var j :| 0 <= j < |todo| && todo[j] == q;
        if i < j {} else {}
      } else if m in Names(todo) {
        assert n in running && q in running.Values;
      } else if n in Names(todo) {
        assert m in running && p in running.Values;
      }
    }
  }

  lemma LaunchKeepsExclusive(cfg: Config, s: State)
    requires Exclusive(cfg, s.running)
    ensures Exclusive(cfg, LaunchAll(s, Todo(cfg, s)).running)
  {
    LaunchEffect(s, Todo(cfg, s));
    TodoFacts(cfg, s);
    hide LaunchAll, Todo, Claims, Exclusive, Names;
    MoreKeepsExclusive(cfg, s.running, LaunchAll(s, Todo(cfg, s)).running, Todo(cfg, s));
  }

  lemma LaunchKeepsHolders(cfg: Config, s: State)
    requires HoldersExact(cfg, s.holders, s.running, s.begun) && s.begun <= s.running.Keys
    ensures HoldersExact(cfg, s.holders, LaunchAll(s, Todo(cfg, s)).running, s.begun)
  {
    LaunchEffect(s, Todo(cfg, s));
    TodoFacts(cfg, s);
    CandidateFacts(cfg, s);
    assert forall n :: n in Names(Todo(cfg, s)) ==> n !in s.running;
  }

  /** Past its loop nothing runs and nothing is ready: the greedy choice never leaves quiet guests idle. */
  lemma TurnStages(cfg: Config, s: State)
    ensures Stages(cfg, TurnOf(cfg, s))
  {
    LaunchEffect(s, Todo(cfg, s));
    TodoFacts(cfg, s);
    CandidateFacts(cfg, s);
  }

  lemma TurnKeeps(cfg: Config, s: State)
    requires Tasks(cfg, s.state, s.running, s.begun) && Exclusive(cfg, s.running)
    requires HoldersExact(cfg, s.holders, s.running, s.begun)
    ensures Inv(cfg, TurnOf(cfg, s))
  {
    LaunchKeepsTasks(cfg, s);
    LaunchKeepsExclusive(cfg, s);
    LaunchKeepsHolders(cfg, s);
    TurnStages(cfg, s);
    LaunchEffect(s, Todo(cfg, s));
    hide LaunchAll, Tasks, Exclusive, HoldersExact, Stages, Todo, ReasonFor;
  }

  lemma GuestsWithinClaims(cfg: Config, p: Phase)
    requires NodesKnown(cfg) && p in cfg.phases
    ensures Guests(cfg, p) <= Claims(p, cfg.machines)
  {
  }

  /** What two running phases are attributed by is apart because what they claim is. */
  lemma GuestsApart(cfg: Config, running: map<string, Phase>, m: string, n: string)
    requires NodesKnown(cfg) && Known(cfg, running) && Exclusive(cfg, running)
    requires m in running && n in running && m != n
    ensures Guests(cfg, running[m]) !! Guests(cfg, running[n])
  {
    GuestsWithinClaims(cfg, running[m]);
    GuestsWithinClaims(cfg, running[n]);
  }

  /** Who holds a guest once `n` has begun: `n`, if it uses it, else who did. */
  lemma BeginHolds(cfg: Config, s: State, n: string, g: string)
    requires n in s.running
    ensures var t := BeginState(cfg, s, n);
      && (g in t.holders <==> g in Guests(cfg, s.running[n]) || g in s.holders)
      && (g in t.holders ==> t.holders[g] == if g in Guests(cfg, s.running[n]) then n else s.holders[g])
      && t.running == s.running && t.begun == s.begun + {n}
  {
    hide Guests;
  }

  lemma BeginKeepsHolders(cfg: Config, s: State, n: string)
    requires NodesKnown(cfg) && Known(cfg, s.running) && Exclusive(cfg, s.running)
    requires HoldersExact(cfg, s.holders, s.running, s.begun)
    requires n in s.running && n !in s.begun
    ensures var t := BeginState(cfg, s, n); HoldersExact(cfg, t.holders, t.running, t.begun)
  {
    var t := BeginState(cfg, s, n);
    assert t.running == s.running && t.begun == s.begun + {n} by { BeginHolds(cfg, s, n, n); }
    hide BeginState, Claims, Known, Guests, Exclusive, NodesKnown;
    forall g | g in t.holders
      ensures t.holders[g] in t.begun && t.holders[g] in t.running && g in Guests(cfg, t.running[t.holders[g]])
    {
      BeginHolds(cfg, s, n, g);
    }
    forall m, g | m in t.begun && m in t.running && g in Guests(cfg, t.running[m])
      ensures g in t.holders && t.holders[g] == m
    {
      BeginHolds(cfg, s, n, g);
      if m != n {
        GuestsApart(cfg, s.running, m, n);
      }
    }
  }

  /** What ending a phase does to the states: the phase itself, and on a failure what was pending. */
  lemma EndTouches(cfg: Config, s: State, n: string, ok: bool, m: string)
    requires n in s.running && n in s.state
    ensures var later := EndState(cfg, s, n, ok).state;
      && later.Keys == s.state.Keys && later[n] == (if ok then Passed else Failed)
      && (m in s.state && m != n ==>
            later[m] == if !ok && m in DependentsOf(n, cfg.phases) && s.state[m].Pending? then Skipped else s.state[m])
  {
    hide DependentsOf, Guests, NewlySkipped;
  }

  lemma EndLeaves(cfg: Config, s: State, n: string, ok: bool)
    requires n in s.running
    ensures var t := EndState(cfg, s, n, ok); t.running == s.running - {n} && t.begun == s.begun - {n}
  {
    hide FailedStates, Guests, NewlySkipped;
  }

  lemma EndKeepsBegun(cfg: Config, s: State, n: string, ok: bool)
    requires n in s.running && n in s.begun && BegunRun(s.state, s.begun)
    ensures BegunRun(EndState(cfg, s, n, ok).state, s.begun - {n})
  {
    var later := EndState(cfg, s, n, ok).state;
    hide EndState;
    forall m ensures m in s.begun - {n} <==> m in later && later[m].Running? {
      EndTouches(cfg, s, n, ok, m);
    }
  }

  lemma EndKeepsOthers(cfg: Config, s: State, n: string, ok: bool)
    requires n in s.running && n in s.begun && n in s.state && OthersWait(s.state, s.running, s.begun)
    ensures OthersWait(EndState(cfg, s, n, ok).state, s.running - {n}, s.begun - {n})
  {
    var later := EndState(cfg, s, n, ok).state;
    hide EndState;
    forall m | m in s.running - {n} && m !in s.begun - {n}
      ensures m in later && (later[m].Pending? || later[m].Skipped?)
    {
      EndTouches(cfg, s, n, ok, m);
    }
  }

  lemma EndKeepsAsked(cfg: Config, s: State, n: string, ok: bool)
    requires n in s.running && n in s.state && s.state[n].Running? && Asked(cfg, s.state)
    ensures Asked(cfg, EndState(cfg, s, n, ok).state)
  {
    var later := EndState(cfg, s, n, ok).state;
    hide EndState;
    EndTouches(cfg, s, n, ok, n);
    forall m | m in later
      ensures !later[m].Interrupted? && (later[m].Deselected? <==> m !in cfg.selected)
    {
      EndTouches(cfg, s, n, ok, m);
    }
  }

  lemma EndKeepsTasks(cfg: Config, s: State, n: string, ok: bool)
    requires Tasks(cfg, s.state, s.running, s.begun) && n in s.begun
    ensures var t := EndState(cfg, s, n, ok); Tasks(cfg, t.state, t.running, t.begun)
  {
    EndTouches(cfg, s, n, ok, n);
    EndLeaves(cfg, s, n, ok);
    EndKeepsBegun(cfg, s, n, ok);
    EndKeepsOthers(cfg, s, n, ok);
    EndKeepsAsked(cfg, s, n, ok);
    hide EndState, BegunRun, OthersWait, Asked, Names;
  }

  lemma EndKeepsHolders(cfg: Config, s: State, n: string, ok: bool)
    requires NodesKnown(cfg) && Known(cfg, s.running) && Exclusive(cfg, s.running)
    requires HoldersExact(cfg, s.holders, s.running, s.begun) && n in s.begun && n in s.running
    ensures var t := EndState(cfg, s, n, ok); HoldersExact(cfg, t.holders, t.running, t.begun)
  {
    var t := EndState(cfg, s, n, ok);
    forall m, g | m in t.begun && m in t.running && g in Guests(cfg, t.running[m])
      ensures g in t.holders && t.holders[g] == m
    {
      GuestsApart(cfg, s.running, m, n);
      assert g !in Guests(cfg, s.running[n]);
    }
    forall g | g in t.holders
      ensures t.holders[g] in t.begun && t.holders[g] in t.running && g in Guests(cfg, t.running[t.holders[g]])
    {
      assert g in s.holders && g !in Guests(cfg, s.running[n]);
    }
  }

  lemma BeginKeepsTasks(cfg: Config, s: State, n: string)
    requires Tasks(cfg, s.state, s.running, s.begun) && n in s.running && n !in s.begun
    ensures var t := BeginState(cfg, s, n); Tasks(cfg, t.state, t.running, t.begun)
  {
    var t := BeginState(cfg, s, n);
    hide Guests, Names, Known;
    assert t.running == s.running && t.begun == s.begun + {n} && t.state == s.state[n := Running];
    hide BeginState;
  }

  lemma BeginKeepsStages(cfg: Config, s: State, n: string)
    requires Stages(cfg, s) && n in s.running
    ensures Stages(cfg, BeginState(cfg, s, n))
  {
    hide Guests, Ready;
  }

  lemma BeginKeeps(cfg: Config, s: State, n: string)
    requires NodesKnown(cfg) && Inv(cfg, s) && n in s.running && n !in s.begun
    ensures Inv(cfg, BeginState(cfg, s, n))
  {
    BeginKeepsTasks(cfg, s, n);
    BeginKeepsHolders(cfg, s, n);
    BeginKeepsStages(cfg, s, n);
    assert BeginState(cfg, s, n).running == s.running by { hide Inv, Guests; }
    hide BeginState, HoldersExact, Exclusive, Stages;
  }

  lemma EndKeeps(cfg: Config, s: State, n: string, ok: bool)
    requires NodesKnown(cfg) && Inv(cfg, s) && n in s.begun
    ensures Inv(cfg, EndState(cfg, s, n, ok))
  {
    EndKeepsTasks(cfg, s, n, ok);
    EndKeepsHolders(cfg, s, n, ok);
    hide HoldersExact, Tasks;
  }

  lemma StepKeeps(cfg: Config, s: State, step: Step)
    requires NodesKnown(cfg) && Inv(cfg, s) && Enabled(s, step)
    ensures Inv(cfg, Apply(cfg, s, step))
  {
    hide TurnOf, BeginState, EndState;
    match step
    case Boot => TurnKeeps(cfg, s);
    case Wake => TurnKeeps(cfg, s.(changed := false));
    case Continue => TurnKeeps(cfg, s.(log := s.log + [Resumed]));
    case Begin(n) => BeginKeeps(cfg, s, n);
    case End(n, ok) => EndKeeps(cfg, s, n, ok);
  }

  lemma {:induction false} RunKeeps(cfg: Config, s: State, steps: seq<Step>, t: State)
    requires NodesKnown(cfg) && Inv(cfg, s) && Execute(cfg, s, steps) == Some(t)
    ensures Inv(cfg, t)
    decreases |steps|
  {
    if steps != [] {
      StepKeeps(cfg, s, steps[0]);
      RunKeeps(cfg, Apply(cfg, s, steps[0]), steps[1..], t);
    }
  }

  lemma ReachableInv(cfg: Config, steps: seq<Step>, s: State)
    requires WellFormed(cfg) && Reaches(cfg, steps, s)
    ensures Inv(cfg, s)
  {
    InitialInv(cfg);
    RunKeeps(cfg, Initial(cfg), steps, s);
  }

  // ── the theorems ──────────────────────────────────────────────────

  /** No guest is ever in the hands of two running phases; who claims them all has the run to itself. */
  lemma MutualExclusion(cfg: Config, steps: seq<Step>, s: State)
    requires WellFormed(cfg) && Reaches(cfg, steps, s)
    ensures forall m, n :: m in s.running && n in s.running && m != n ==>
      Claims(s.running[m], cfg.machines) !! Claims(s.running[n], cfg.machines)
    ensures cfg.machines != {} ==>
      forall n :: n in s.running && (s.running[n].pytest || s.running[n].nodes == []) ==> s.running.Keys == {n}
    ensures cfg.machines != {} ==>
      forall m, n :: m in s.running && n in s.running && m != n ==> !Clash(s.running[m], s.running[n])
  {
    ReachableInv(cfg, steps, s);
    if cfg.machines != {} {
      NoClash(cfg, s.running);
      forall n | n in s.running && (s.running[n].pytest || s.running[n].nodes == [])
        ensures s.running.Keys == {n}
      {
        assert forall m :: m in s.running ==> m == n;
      }
    }
  }

  lemma NoClash(cfg: Config, running: map<string, Phase>)
    requires NodesKnown(cfg) && Known(cfg, running) && Exclusive(cfg, running) && cfg.machines != {}
    ensures forall m, n :: m in running && n in running && m != n ==> !Clash(running[m], running[n])
  {
    hide Claims, Clash;
    forall m, n | m in running && n in running && m != n ensures !Clash(running[m], running[n]) {
      ClaimsMeet(running[m], running[n], cfg.machines);
    }
  }

  /** A guest's commands and journal lines are filed under the phase that is running and names it, or
      names none, and under no other. */
  lemma AttributionExact(cfg: Config, steps: seq<Step>, s: State, g: string, n: string)
    requires WellFormed(cfg) && Reaches(cfg, steps, s)
    ensures (g in s.holders && s.holders[g] == n) <==>
      && n in s.state && s.state[n].Running? && n in s.running
      && (g in s.running[n].nodes || (s.running[n].nodes == [] && g in cfg.machines))
  {
    ReachableInv(cfg, steps, s);
    hide Execute, Guests, Exclusive, Stages;
    if n in s.running {
      GuestsAre(cfg, s.running[n]);
    }
    if g in s.holders {
      GuestsAre(cfg, s.running[s.holders[g]]);
    }
  }

  /** A ready phase that shares a guest with what ran before the turn shares it with what runs after. */
  lemma StillHeld(cfg: Config, s: State, p: Phase)
    requires Claims(p, cfg.machines) * Held(s.running.Values, cfg.machines) != {}
    ensures var running := LaunchAll(s, Todo(cfg, s)).running;
      exists n :: n in running && Claims(p, cfg.machines) * Claims(running[n], cfg.machines) != {}
  {
    var running := LaunchAll(s, Todo(cfg, s)).running;
    LaunchEffect(s, Todo(cfg, s));
    TodoFacts(cfg, s);
    CandidateFacts(cfg, s);
    hide LaunchAll, Todo, Claims;
    var g :| g in Claims(p, cfg.machines) * Held(s.running.Values, cfg.machines);
    var q :| q in s.running.Values && g in Claims(q, cfg.machines);
    var n :| n in s.running && s.running[n] == q;
    assert n !in Names(Todo(cfg, s));
    assert g in Claims(p, cfg.machines) * Claims(running[n], cfg.machines);
  }

  lemma NowHeld(cfg: Config, s: State, p: Phase, q: Phase)
    requires DistinctNames(cfg.phases) && q in Todo(cfg, s)
    requires Claims(p, cfg.machines) * Claims(q, cfg.machines) != {}
    ensures var running := LaunchAll(s, Todo(cfg, s)).running;
      exists n :: n in running && Claims(p, cfg.machines) * Claims(running[n], cfg.machines) != {}
  {
    var running := LaunchAll(s, Todo(cfg, s)).running;
    LaunchEffect(s, Todo(cfg, s));
    TodoFacts(cfg, s);
    CandidateFacts(cfg, s);
    hide LaunchAll, Todo, Claims;
    assert q.name in Names(Todo(cfg, s)) && running[q.name] in Todo(cfg, s);
    assert running[q.name] in cfg.phases && q in cfg.phases;
    SameNameSamePhase(cfg.phases, running[q.name], q);
  }

  /** After a parallel turn with no pause wanted, a ready phase left waiting shares a guest with a running one. */
  lemma TurnIsMaximal(cfg: Config, s: State)
    requires WellFormed(cfg) && Tasks(cfg, s.state, s.running, s.begun)
    requires !cfg.serial && ReasonFor(cfg, s).None?
    ensures var t := TurnOf(cfg, s);
      forall p :: p in Ready(cfg.phases, t.state) && p.name !in t.running ==>
        exists n :: n in t.running && Claims(p, cfg.machines) * Claims(t.running[n], cfg.machines) != {}
    ensures var t := TurnOf(cfg, s);
      forall p :: p in Ready(cfg.phases, t.state) && p.name !in t.running ==>
        exists n :: n in t.running && Clash(p, t.running[n])
  {
    var t := TurnOf(cfg, s);
    HeldUp(cfg, s);
    LaunchKeepsTasks(cfg, s);
    assert Known(cfg, t.running) by { LaunchEffect(s, Todo(cfg, s)); }
    hide TurnOf, Ready, Clash, Claims, Tasks, ReasonFor, DistinctNames, AfterClosed, Acyclic;
    forall p | p in Ready(cfg.phases, t.state) && p.name !in t.running
      ensures exists n :: n in t.running && Clash(p, t.running[n])
    {
      var n :| n in t.running && Claims(p, cfg.machines) * Claims(t.running[n], cfg.machines) != {};
      ReadyListed(cfg, t.state, p);
      MeetMeansClash(cfg, p, t.running[n]);
    }
  }

  lemma ReadyListed(cfg: Config, state: States, p: Phase)
    requires p in Ready(cfg.phases, state)
    ensures p in cfg.phases
  {
  }

  lemma MeetMeansClash(cfg: Config, p: Phase, q: Phase)
    requires NodesKnown(cfg) && p in cfg.phases && q in cfg.phases
    requires Claims(p, cfg.machines) * Claims(q, cfg.machines) != {}
    ensures Clash(p, q)
  {
    var g :| g in Claims(p, cfg.machines) * Claims(q, cfg.machines);
    assert g in cfg.machines;
    ClaimsMeet(p, q, cfg.machines);
  }

  lemma HeldUp(cfg: Config, s: State)
    requires WellFormed(cfg) && Tasks(cfg, s.state, s.running, s.begun)
    requires !cfg.serial && ReasonFor(cfg, s).None?
    ensures var t := TurnOf(cfg, s);
      forall p :: p in Ready(cfg.phases, t.state) && p.name !in t.running ==>
        exists n :: n in t.running && Claims(p, cfg.machines) * Claims(t.running[n], cfg.machines) != {}
  {
    var todo := Todo(cfg, s);
    var t := LaunchAll(s, todo);
    LaunchEffect(s, todo);
    GreedyExclusiveAndMaximal(Candidates(cfg, s), Held(s.running.Values, cfg.machines), cfg.machines);
    CandidateFacts(cfg, s);
    hide LaunchAll, Claims, Held, Tasks, Acyclic, AfterClosed, NodesKnown;
    forall p | p in Ready(cfg.phases, t.state) && p.name !in t.running
      ensures exists n :: n in t.running && Claims(p, cfg.machines) * Claims(t.running[n], cfg.machines) != {}
    {
      assert p in Candidates(cfg, s) && p.name !in Names(todo);
      if Claims(p, cfg.machines) * Held(s.running.Values, cfg.machines) != {} {
        StillHeld(cfg, s, p);
      } else {
        var q :| q in todo && Claims(p, cfg.machines) * Claims(q, cfg.machines) != {};
        NowHeld(cfg, s, p, q);
      }
    }
  }
}
