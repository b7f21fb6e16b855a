/**
  The phase scheduler as a state machine. A step is what the program does between two awaits:
  a turn of the loop in `_schedule` (pkgs/uml/uml/cli.py), a phase's task getting past its
  first `drain`, or a phase's task ending in `Session.run` (pkgs/uml/uml/session.py).
*/
module Schedule {
  import opened Options
  import opened Phases

  /** A spec and the command line. `selected` is `--only`, or every phase without it. */
  datatype Config = Config(
    phases: seq<Phase>, machines: set<string>, selected: set<string>,
    breaks: set<string>, breakOnFailure: bool, serial: bool)
  {
    /** `drive` makes a controller only when a breakpoint was asked for. */
    predicate Controlled() {
      breaks != {} || breakOnFailure
    }
  }

  datatype Reason = AfterFailed(names: seq<string>) | Before(name: string)

  /** What happened, in order. `Launched` marks a task being started; the rest are emitted. */
  datatype Note =
    | Launched(name: string)
    | Started(name: string)
    | Ended(name: string, ok: bool)
    | Marked(names: set<string>, because: string)
    | Paused(reason: Reason)
    | Resumed

  /** Where `_schedule` is: before its first turn, in `pause`, in `changed.wait()`, or past its loop. */
  datatype Stage = Booted | Holding | Waiting | Done

  datatype State = State(
    state: States,
    holders: map<string, string>,   // Session.running: which phase holds each guest
    running: map<string, Phase>,    // _schedule's own, filled when a task is started
    begun: set<string>,             // tasks past their first drain
    failed: seq<string>,
    pausedBefore: set<string>,
    changed: bool,
    stage: Stage,
    log: seq<Note>)

  function Initial(cfg: Config): State {
    State(map n | n in Names(cfg.phases) :: if n in cfg.selected then Pending else Deselected,
          map[], map[], {}, [], {}, false, Booted, [])
  }

  // ── one turn of the loop ──────────────────────────────────────────

  function CandidatesOf(phases: seq<Phase>, state: States, running: map<string, Phase>): seq<Phase> {
    Filter(Ready(phases, state), (p: Phase) => p.name !in running)
  }

  function Candidates(cfg: Config, s: State): seq<Phase> {
    CandidatesOf(cfg.phases, s.state, s.running)
  }

  function StopsOf(candidates: seq<Phase>, breaks: set<string>): seq<Phase> {
    Filter(candidates, (p: Phase) => p.name in breaks)
  }

  function Stops(cfg: Config, s: State): seq<Phase> {
    StopsOf(Candidates(cfg, s), cfg.breaks - s.pausedBefore)
  }

  function ReasonFor(cfg: Config, s: State): Option<Reason> {
    if !cfg.Controlled() then None
    else if cfg.breakOnFailure && s.failed != [] then Some(AfterFailed(s.failed))
    else if Stops(cfg, s) != [] then Some(Before(Stops(cfg, s)[0].name))
    else None
  }

  function Todo(cfg: Config, s: State): seq<Phase> {
    var fit := Launchable(Candidates(cfg, s), s.running.Values, cfg.machines);
    if !cfg.serial then fit
    else if s.running == map[] && fit != [] then fit[..1]
    else []
  }

  function LaunchAll(s: State, todo: seq<Phase>): State
    decreases |todo|
  {
    if todo == [] then s
    else LaunchAll(s.(running := s.running[todo[0].name := todo[0]],
                      log := s.log + [Launched(todo[0].name)]), todo[1..])
  }

  function Rest(s: State): State {
    s.(stage := if s.running == map[] then Done else Waiting)
  }

  function TurnOf(cfg: Config, s: State): State {
    match ReasonFor(cfg, s)
    case Some(reason) =>
      if s.running == map[] then
        s.(pausedBefore := if reason.Before? then s.pausedBefore + {reason.name} else s.pausedBefore,
           failed := [], stage := Holding, log := s.log + [Paused(reason)])
      else Rest(s)
    case None => Rest(LaunchAll(s, Todo(cfg, s)))
  }

  // ── what a phase's task does ──────────────────────────────────────

  /** The guests a phase's commands are attributed by: its `nodes`, or every guest. */
  function Guests(cfg: Config, p: Phase): set<string> {
    if p.nodes == [] then cfg.machines else set n | n in p.nodes
  }

  /** A phase that names none uses every guest there is. */
  lemma GuestsAre(cfg: Config, p: Phase)
    ensures forall g :: g in Guests(cfg, p) <==> g in p.nodes || (p.nodes == [] && g in cfg.machines)
  {
  }

  /** A failure: the phase itself, and everything pending that depends on it. */
  ghost function FailedStates(phases: seq<Phase>, state: States, name: string): States {
    var marked := state[name := Failed];
    map m | m in marked ::
      if m in DependentsOf(name, phases) && marked[m].Pending? then Skipped else marked[m]
  }

  ghost function NewlySkipped(phases: seq<Phase>, state: States, name: string): set<string> {
    set m | m in state && m in DependentsOf(name, phases) && state[m].Pending?
  }

  /** session.py:633-636, once the first drain is over. */
  function BeginState(cfg: Config, s: State, n: string): State
    requires n in s.running
  {
    s.(state := s.state[n := Running],
       holders := s.holders + (map g | g in Guests(cfg, s.running[n]) :: n),
       begun := s.begun + {n},
       log := s.log + [Started(n)])
  }

  /** session.py:652-687 or 704-716, and then `one`'s own last lines (cli.py:360-364). */
  ghost function EndState(cfg: Config, s: State, n: string, ok: bool): State
    requires n in s.running
  {
    s.(state := if ok then s.state[n := Passed] else FailedStates(cfg.phases, s.state, n),
       holders := s.holders - Guests(cfg, s.running[n]),
       running := s.running - {n},
       begun := s.begun - {n},
       failed := if ok then s.failed else s.failed + [n],
       changed := true,
       log := s.log + [Ended(n, ok)]
              + if ok then [] else [Marked(NewlySkipped(cfg.phases, s.state, n), n)])
  }

  datatype Step = Boot | Wake | Continue | Begin(name: string) | End(name: string, ok: bool)

  predicate Enabled(s: State, step: Step) {
    match step
    case Boot => s.stage == Booted
    case Wake => s.stage == Waiting && s.changed
    case Continue => s.stage == Holding
    case Begin(n) => n in s.running && n !in s.begun
    case End(n, _) => n in s.running && n in s.begun
  }

  ghost function Apply(cfg: Config, s: State, step: Step): State
    requires Enabled(s, step)
  {
    match step
    case Boot => TurnOf(cfg, s)
    case Wake => TurnOf(cfg, s.(changed := false))
    case Continue => TurnOf(cfg, s.(log := s.log + [Resumed]))
    case Begin(n) => BeginState(cfg, s, n)
    case End(n, ok) => EndState(cfg, s, n, ok)
  }

  // ── whole runs ────────────────────────────────────────────────────

  /** Where a list of steps leads, if each is possible when it comes. */
  ghost function Execute(cfg: Config, s: State, steps: seq<Step>): Option<State>
    decreases |steps|
  {
    if steps == [] then Some(s)
    else if Enabled(s, steps[0]) then Execute(cfg, Apply(cfg, s, steps[0]), steps[1..])
    else None
  }

  /** `s` is where some interleaving of the run has got to. */
  ghost predicate Reaches(cfg: Config, steps: seq<Step>, s: State) {
    Execute(cfg, Initial(cfg), steps) == Some(s)
  }

  lemma {:induction false} ExecuteConcat(cfg: Config, s: State, a: seq<Step>, t: State, b: seq<Step>)
    requires Execute(cfg, s, a) == Some(t)
    ensures Execute(cfg, s, a + b) == Execute(cfg, t, b)
    decreases |a|
  {
    hide Apply, Enabled;
    if a == [] {
      assert a + b == b;
    } else {
      ExecuteConcat(cfg, Apply(cfg, s, a[0]), a[1..], t, b);
      assert (a + b)[0] == a[0] && (a + b)[1..] == a[1..] + b;
    }
  }

  lemma ExecuteOne(cfg: Config, s: State, step: Step)
    requires Enabled(s, step)
    ensures Execute(cfg, s, [step]) == Some(Apply(cfg, s, step))
  {
    var t := Apply(cfg, s, step);
    assert [step][1..] == [];
    assert Execute(cfg, t, []) == Some(t);
  }

  /** What Nix asserts before a run (modules/run.nix:34-53). */
  ghost predicate WellFormed(cfg: Config) {
    && DistinctNames(cfg.phases)
    && AfterClosed(cfg.phases)
    && Acyclic(cfg.phases)
    && NodesKnown(cfg)
  }

  ghost predicate NodesKnown(cfg: Config) {
    forall p, n :: p in cfg.phases && n in p.nodes ==> n in cfg.machines
  }

  // ── what every step keeps, whatever was selected ──────────────────

  /** No two running phases claim a guest in common. */
  ghost predicate Exclusive(cfg: Config, running: map<string, Phase>) {
    forall m, n {:trigger running[m], running[n]} :: m in running && n in running && m != n ==>
      Claims(running[m], cfg.machines) !! Claims(running[n], cfg.machines)
  }

  /** `Session.running` names, for each guest, exactly the begun phase using it. */
  ghost predicate HoldersExact(cfg: Config, holders: map<string, string>, running: map<string, Phase>,
      begun: set<string>) {
    && (forall g :: g in holders ==>
          holders[g] in begun && holders[g] in running && g in Guests(cfg, running[holders[g]]))
    && (forall n, g {:trigger g in Guests(cfg, running[n])} ::
          n in begun && n in running && g in Guests(cfg, running[n]) ==> g in holders && holders[g] == n)
  }

  /** Tasks are for phases of the spec, under their own names. */
  ghost predicate Known(cfg: Config, running: map<string, Phase>) {
    forall n :: n in running ==> running[n] in cfg.phases && running[n].name == n
  }

  /** Exactly the tasks past their first drain have their phase RUNNING. */
  ghost predicate BegunRun(state: States, begun: set<string>) {
    forall n :: n in begun <==> n in state && state[n].Running?
  }

  /** A task yet to begin is for a phase still pending, or skipped meanwhile. */
  ghost predicate OthersWait(state: States, running: map<string, Phase>, begun: set<string>) {
    forall n :: n in running && n !in begun ==> n in state && (state[n].Pending? || state[n].Skipped?)
  }

  /** Exactly what was not asked for is deselected. */
  ghost predicate Asked(cfg: Config, state: States) {
    forall n :: n in state ==> !state[n].Interrupted? && (state[n].Deselected? <==> n !in cfg.selected)
  }

  ghost predicate Tasks(cfg: Config, state: States, running: map<string, Phase>, begun: set<string>) {
    && state.Keys == Names(cfg.phases)
    && Known(cfg, running)
    && begun <= running.Keys <= state.Keys
    && BegunRun(state, begun)
    && OthersWait(state, running, begun)
    && Asked(cfg, state)
  }

  ghost predicate Stages(cfg: Config, s: State) {
    && (s.stage != Waiting ==> s.running == map[])
    && (s.stage == Waiting ==> s.running != map[] || s.changed)
    && (s.stage == Done ==> Ready(cfg.phases, s.state) == [])
  }

  ghost predicate Inv(cfg: Config, s: State) {
    && Tasks(cfg, s.state, s.running, s.begun)
    && Exclusive(cfg, s.running)
    && HoldersExact(cfg, s.holders, s.running, s.begun)
    && Stages(cfg, s)
  }

  lemma InitialInv(cfg: Config)
    ensures Inv(cfg, Initial(cfg))
  {
  }

  lemma {:induction false} LaunchTouches(s: State, todo: seq<Phase>)
    ensures var t := LaunchAll(s, todo); t == s.(running := t.running, log := t.log)
    decreases |todo|
  {
    if todo != [] {
      LaunchTouches(s.(running := s.running[todo[0].name := todo[0]],
                       log := s.log + [Launched(todo[0].name)]), todo[1..]);
    }
  }

  lemma NamesOfFirst(todo: seq<Phase>)
    requires todo != []
    ensures Names(todo) == {todo[0].name} + Names(todo[1..])
  {
    assert todo == [todo[0]] + todo[1..];
  }

  /** Starting tasks changes `running` and the log, and nothing else. */
  lemma {:induction false} LaunchEffect(s: State, todo: seq<Phase>)
    ensures var t := LaunchAll(s, todo);
      && t == s.(running := t.running, log := t.log)
      && t.running.Keys == s.running.Keys + Names(todo)
      && (forall n :: n in s.running && n !in Names(todo) ==> t.running[n] == s.running[n])
      && (forall n :: n in Names(todo) ==> t.running[n] in todo && t.running[n].name == n)
      && (t.running == map[] ==> todo == [] && s.running == map[])
    decreases |todo|
  {
    LaunchTouches(s, todo);
    if todo != [] {
      var p, rest := todo[0], todo[1..];
      NamesOfFirst(todo);
      hide Names;
      var one := s.(running := s.running[p.name := p], log := s.log + [Launched(p.name)]);
      LaunchEffect(one, rest);
      assert p.name in LaunchAll(s, todo).running;
    }
  }

  lemma {:induction false} LaunchLog(s: State, todo: seq<Phase>)
    ensures var t := LaunchAll(s, todo);
      && |t.log| == |s.log| + |todo| && t.log[..|s.log|] == s.log
      && forall i :: 0 <= i < |todo| ==> t.log[|s.log| + i] == Launched(todo[i].name)
    decreases |todo|
  {
    if todo != [] {
      var p, rest := todo[0], todo[1..];
      var one := s.(running := s.running[p.name := p], log := s.log + [Launched(p.name)]);
      LaunchLog(one, rest);
      var t := LaunchAll(s, todo);
      assert t.log[..|s.log|] == t.log[..|one.log|][..|s.log|];
      forall i | 0 <= i < |todo| ensures t.log[|s.log| + i] == Launched(todo[i].name) {
        if i == 0 {
          assert t.log[|s.log|] == t.log[..|one.log|][|s.log|];
        } else {
          assert t.log[|one.log| + (i - 1)] == Launched(rest[i - 1].name);
        }
      }
    }
  }

  lemma CandidateFacts(cfg: Config, s: State)
    ensures forall p :: p in Candidates(cfg, s) <==>
      p in cfg.phases && StateOf(s.state, p.name).Pending? && Answered(p, s.state) && p.name !in s.running
    ensures s.running == map[] && Ready(cfg.phases, s.state) != [] ==> Candidates(cfg, s) != []
  {
    if s.running == map[] && Ready(cfg.phases, s.state) != [] {
      assert Ready(cfg.phases, s.state)[0] in Candidates(cfg, s);
    }
  }

  /** What a turn starts: candidates that share no guest with each other or with a running phase. */
  lemma TodoFacts(cfg: Config, s: State)
    ensures forall p :: p in Todo(cfg, s) ==> p in Candidates(cfg, s)
    ensures forall p, q :: p in Todo(cfg, s) && q in s.running.Values ==>
      Claims(p, cfg.machines) !! Claims(q, cfg.machines)
    ensures forall i, j :: 0 <= i < j < |Todo(cfg, s)| ==>
      Claims(Todo(cfg, s)[i], cfg.machines) !! Claims(Todo(cfg, s)[j], cfg.machines)
    ensures s.running == map[] && Candidates(cfg, s) != [] ==> Todo(cfg, s) != []
  {
    var held := Held(s.running.Values, cfg.machines);
    GreedyExclusiveAndMaximal(Candidates(cfg, s), held, cfg.machines);
    forall p, q | p in Todo(cfg, s) && q in s.running.Values
      ensures Claims(p, cfg.machines) !! Claims(q, cfg.machines)
    {
      assert Claims(q, cfg.machines) <= held;
      assert Claims(p, cfg.machines) !! held;
    }
    if s.running == map[] && Candidates(cfg, s) != [] {
      assert s.running.Values == {};
      FirstStarts(Candidates(cfg, s), cfg.machines);
    }
  }

  /** A turn touches no phase's state: it starts tasks, or pauses, or waits, or leaves. */
  lemma TurnTouches(cfg: Config, s: State)
    ensures var t := TurnOf(cfg, s);
      t.state == s.state && t.holders == s.holders && t.begun == s.begun && t.changed == s.changed
  {
    LaunchEffect(s, Todo(cfg, s));
    hide LaunchAll, Todo, ReasonFor;
  }
}
