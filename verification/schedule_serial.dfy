/**
  Serial runs: with `serial` and the sorted list Nix hands over, the scheduler starts the same
  phases in the same order, and ends in the same states, as running each pending phase in turn.
*/
module ScheduleSerial {
  import opened Options
  import opened Phases
  import opened Schedule
  import opened ScheduleSafety
  import opened ScheduleOutcome

  /** What `Session.run` leaves in the states when phase `n` ends as `ok`. */
  ghost function After(phases: seq<Phase>, state: States, n: string, ok: bool): States {
    if ok then state[n := Passed] else FailedStates(phases, state, n)
  }

  /** The plain loop from the phase at `k` on: what it runs, and the states it ends in. */
  ghost function Plain(phases: seq<Phase>, k: nat, state: States, outcome: map<string, bool>): (seq<string>, States)
    requires k <= |phases|
    decreases |phases| - k
  {
    if k == |phases| then ([], state)
    else if StateOf(state, phases[k].name).Pending? then
      var n := phases[k].name;
      var rest := Plain(phases, k + 1, After(phases, state, n, Would(outcome, n)), outcome);
      ([n] + rest.0, rest.1)
    else Plain(phases, k + 1, state, outcome)
  }

  /** Phases already answered, or running, are passed over. */
  lemma {:induction false} PlainSkips(phases: seq<Phase>, k: nat, j: nat, state: States, outcome: map<string, bool>)
    requires k <= j <= |phases|
    requires forall i :: k <= i < j ==> !StateOf(state, phases[i].name).Pending?
    ensures Plain(phases, k, state, outcome) == Plain(phases, j, state, outcome)
    decreases j - k
  {
    if k < j {
      PlainSkips(phases, k + 1, j, state, outcome);
    }
  }

  /** Running the first pending phase is the plain loop's first move. */
  lemma PlainMoves(phases: seq<Phase>, j: nat, state: States, outcome: map<string, bool>)
    requires j < |phases| && StateOf(state, phases[j].name).Pending?
    requires forall i :: 0 <= i < j ==> !StateOf(state, phases[i].name).Pending?
    ensures var n := phases[j].name;
      var later := Plain(phases, 0, After(phases, state, n, Would(outcome, n)), outcome);
      Plain(phases, 0, state, outcome) == ([n] + later.0, later.1)
  {
    var n := phases[j].name;
    var next := After(phases, state, n, Would(outcome, n));
    PlainSkips(phases, 0, j, state, outcome);
    forall i | 0 <= i < j + 1 ensures !StateOf(next, phases[i].name).Pending? {
      AfterAnswers(phases, state, n, Would(outcome, n), phases[i].name);
    }
    PlainSkips(phases, 0, j + 1, next, outcome);
  }

  lemma AfterAnswers(phases: seq<Phase>, state: States, n: string, ok: bool, m: string)
    requires n in state || StateOf(state, n).Pending?
    ensures m == n || !StateOf(state, m).Pending? ==> !StateOf(After(phases, state, n, ok), m).Pending?
  {
    hide DependentsOf;
  }

  lemma {:induction false} PlainDone(phases: seq<Phase>, k: nat, state: States, outcome: map<string, bool>)
    requires k <= |phases| && forall p :: p in phases ==> !StateOf(state, p.name).Pending?
    ensures Plain(phases, k, state, outcome) == ([], state)
    decreases |phases| - k
  {
    if k < |phases| {
      assert phases[k] in phases;
      PlainDone(phases, k + 1, state, outcome);
    }
  }

  /** The names launched, in order. */
  function LaunchedIn(log: seq<Note>): seq<string> {
    if log == [] then []
    else LaunchedIn(log[..|log| - 1]) + (var note := log[|log| - 1]; if note.Launched? then [note.name] else [])
  }

  lemma LaunchedAppend(log: seq<Note>, note: Note)
    ensures LaunchedIn(log + [note]) == if note.Launched? then LaunchedIn(log) + [note.name] else LaunchedIn(log)
  {
    assert (log + [note])[..|log|] == log;
  }

  predicate AtMostOne(running: map<string, Phase>) {
    running == map[] || exists n :: n in running && running.Keys == {n}
  }

  /** The states once the phase now running, if any, has ended. */
  ghost function Settled(cfg: Config, s: State, outcome: map<string, bool>): States
    requires AtMostOne(s.running)
  {
    if s.running == map[] then s.state
    else var n :| n in s.running && s.running.Keys == {n}; After(cfg.phases, s.state, n, Would(outcome, n))
  }

  lemma SettledIs(cfg: Config, s: State, n: string, outcome: map<string, bool>)
    requires s.running.Keys == {n}
    ensures AtMostOne(s.running) && Settled(cfg, s, outcome) == After(cfg.phases, s.state, n, Would(outcome, n))
  {
    assert n in s.running;
  }

  /** That a phase was already marked running makes no difference to how it leaves the states. */
  lemma AfterRunning(phases: seq<Phase>, state: States, n: string, ok: bool)
    requires n in state
    ensures After(phases, state[n := Running], n, ok) == After(phases, state, n, ok)
  {
    assert state[n := Running][n := Failed] == state[n := Failed];
    assert state[n := Running][n := Passed] == state[n := Passed];
    hide DependentsOf;
  }

  /** What has been launched, then what the plain loop would still run. Constant along a serial run. */
  ghost function Whole(cfg: Config, s: State, outcome: map<string, bool>): (seq<string>, States)
    requires AtMostOne(s.running)
  {
    var rest := Plain(cfg.phases, 0, Settled(cfg, s, outcome), outcome);
    (LaunchedIn(s.log) + rest.0, rest.1)
  }

  /** With nothing running, the first pending phase of a sorted list is the first candidate. */
  lemma FirstCandidate(cfg: Config, s: State) returns (j: nat)
    requires Sorted(cfg.phases) && s.running == map[] && Candidates(cfg, s) != []
    requires forall n :: n in Names(cfg.phases) ==> n in s.state && !s.state[n].Running?
    ensures j < |cfg.phases| && Candidates(cfg, s)[0] == cfg.phases[j] && StateOf(s.state, cfg.phases[j].name).Pending?
    ensures forall i :: 0 <= i < j ==> !StateOf(s.state, cfg.phases[i].name).Pending?
  {
    var k := CandidatePending(cfg, s);
    j := FirstPending(cfg.phases, s.state, k);
    SortedReady(cfg, s, j);
    CandidatesFirst(cfg, s, j);
  }

  lemma CandidatePending(cfg: Config, s: State) returns (k: nat)
    requires Candidates(cfg, s) != []
    ensures k < |cfg.phases| && StateOf(s.state, cfg.phases[k].name).Pending?
  {
    CandidateFacts(cfg, s);
    assert Candidates(cfg, s)[0] in Candidates(cfg, s);
    k :| 0 <= k < |cfg.phases| && cfg.phases[k] == Candidates(cfg, s)[0];
  }

  lemma {:induction false} FirstPending(phases: seq<Phase>, state: States, k: nat) returns (j: nat)
    requires k < |phases| && StateOf(state, phases[k].name).Pending?
    ensures j <= k && StateOf(state, phases[j].name).Pending?
    ensures forall i :: 0 <= i < j ==> !StateOf(state, phases[i].name).Pending?
    decreases k
  {
    if i :| 0 <= i < k && StateOf(state, phases[i].name).Pending? {
      j := FirstPending(phases, state, i);
    } else {
      j := k;
    }
  }

  /** Everything the first pending phase names comes earlier, and so has its answer. */
  lemma SortedReady(cfg: Config, s: State, j: nat)
    requires Sorted(cfg.phases) && j < |cfg.phases|
    requires forall n :: n in Names(cfg.phases) ==> n in s.state && !s.state[n].Running?
    requires forall i :: 0 <= i < j ==> !StateOf(s.state, cfg.phases[i].name).Pending?
    ensures Answered(cfg.phases[j], s.state)
  {
    forall a | a in cfg.phases[j].after ensures !Unfinished(StateOf(s.state, a)) {
      assert a in Names(cfg.phases[..j]);
      var p :| p in cfg.phases[..j] && p.name == a;
      var i :| 0 <= i < j && cfg.phases[..j][i] == p;
      assert cfg.phases[i] == p && p in cfg.phases && a in Names(cfg.phases);
    }
  }

  /** Filtering three times keeps an element that passes each and comes before any other that passes the first. */
  lemma CandidatesFirst(cfg: Config, s: State, j: nat)
    requires j < |cfg.phases| && StateOf(s.state, cfg.phases[j].name).Pending?
    requires forall i :: 0 <= i < j ==> !StateOf(s.state, cfg.phases[i].name).Pending?
    requires Answered(cfg.phases[j], s.state) && s.running == map[]
    ensures Candidates(cfg, s) != [] && Candidates(cfg, s)[0] == cfg.phases[j]
  {
    var p := cfg.phases[j];
    FilterHead(cfg.phases, (q: Phase) => StateOf(s.state, q.name).Pending?, j);
    FilterHead(Runnable(cfg.phases, s.state), (q: Phase) => Answered(q, s.state), 0);
    FilterHead(Ready(cfg.phases, s.state), (q: Phase) => q.name !in s.running, 0);
  }

  lemma {:induction false} FilterHead<T(!new)>(xs: seq<T>, keep: T -> bool, j: nat)
    requires j < |xs| && keep(xs[j]) && forall i :: 0 <= i < j ==> !keep(xs[i])
    ensures Filter(xs, keep) != [] && Filter(xs, keep)[0] == xs[j]
    decreases j
  {
    if j > 0 {
      assert !keep(xs[0]);
      assert xs[1..][j - 1] == xs[j];
      FilterHead(xs[1..], keep, j - 1);
    }
  }

  // ── every step of a serial run keeps the whole ────────────────────

  ghost predicate Serially(cfg: Config, s: State, outcome: map<string, bool>, whole: (seq<string>, States)) {
    AtMostOne(s.running) && Whole(cfg, s, outcome) == whole
  }

  /** The whole depends on the states, what is running and what was launched, and nothing else. */
  lemma SameWhole(cfg: Config, s: State, t: State, outcome: map<string, bool>, whole: (seq<string>, States))
    requires Serially(cfg, s, outcome, whole)
    requires t.state == s.state && t.running == s.running && LaunchedIn(t.log) == LaunchedIn(s.log)
    ensures Serially(cfg, t, outcome, whole)
  {
    hide Plain, After;
  }

  lemma SerialLaunch(cfg: Config, s: State, outcome: map<string, bool>, whole: (seq<string>, States))
    requires cfg.serial && Sorted(cfg.phases) && Serially(cfg, s, outcome, whole) && s.running == map[]
    requires Candidates(cfg, s) != []
    requires forall n :: n in Names(cfg.phases) ==> n in s.state && !s.state[n].Running?
    ensures Serially(cfg, LaunchAll(s, Todo(cfg, s)), outcome, whole)
  {
    hide Plain, After, Todo, Sorted, Candidates, LaunchedIn, Names, Settled, Whole;
    var p := Candidates(cfg, s)[0];
    var j := FirstCandidate(cfg, s);
    SerialTodo(cfg, s);
    var t := s.(running := s.running[p.name := p], log := s.log + [Launched(p.name)]);
    assert LaunchAll(s, [p]) == t by { LaunchOne(s, p); }
    hide LaunchAll;
    PlainMoves(cfg.phases, j, s.state, outcome);
    LaunchedAppend(s.log, Launched(p.name));
    LaunchedWhole(cfg, s, t, p.name, outcome);
  }

  lemma LaunchOne(s: State, p: Phase)
    ensures LaunchAll(s, [p]) == s.(running := s.running[p.name := p], log := s.log + [Launched(p.name)])
  {
    var t := s.(running := s.running[p.name := p], log := s.log + [Launched(p.name)]);
    assert LaunchAll(t, []) == t;
  }

  lemma LaunchedWhole(cfg: Config, s: State, t: State, n: string, outcome: map<string, bool>)
    requires s.running == map[] && t.running.Keys == {n} && t.state == s.state
    requires LaunchedIn(t.log) == LaunchedIn(s.log) + [n]
    requires var later := Plain(cfg.phases, 0, After(cfg.phases, s.state, n, Would(outcome, n)), outcome);
      Plain(cfg.phases, 0, s.state, outcome) == ([n] + later.0, later.1)
    ensures AtMostOne(t.running) && Whole(cfg, t, outcome) == Whole(cfg, s, outcome)
  {
    hide Plain, After, Settled, LaunchedIn;
    SettledIs(cfg, t, n, outcome);
    QuietSettled(cfg, s, outcome);
    var later := Plain(cfg.phases, 0, After(cfg.phases, s.state, n, Would(outcome, n)), outcome);
    assert (LaunchedIn(s.log) + [n]) + later.0 == LaunchedIn(s.log) + ([n] + later.0);
  }

  lemma SerialTodo(cfg: Config, s: State)
    requires cfg.serial
    ensures s.running == map[] && Candidates(cfg, s) != [] ==> Todo(cfg, s) == [Candidates(cfg, s)[0]]
    ensures s.running != map[] || Candidates(cfg, s) == [] ==> Todo(cfg, s) == []
  {
    if s.running == map[] {
      assert s.running.Values == {};
      if Candidates(cfg, s) != [] {
        FirstStarts(Candidates(cfg, s), cfg.machines);
      }
    }
  }

  lemma SerialTurn(cfg: Config, s: State, outcome: map<string, bool>, whole: (seq<string>, States))
    requires cfg.serial && Sorted(cfg.phases) && Serially(cfg, s, outcome, whole)
    requires s.running == map[] ==> forall n :: n in Names(cfg.phases) ==> n in s.state && !s.state[n].Running?
    ensures Serially(cfg, TurnOf(cfg, s), outcome, whole)
  {
    var t := TurnOf(cfg, s);
    SerialTodo(cfg, s);
    match ReasonFor(cfg, s)
    case Some(reason) =>
      LaunchedAppend(s.log, Paused(reason));
      hide Plain, After, LaunchedIn, Names, ReasonFor, Whole, Settled;
      SameWhole(cfg, s, t, outcome, whole);
    case None =>
      if s.running == map[] && Candidates(cfg, s) != [] {
        SerialLaunch(cfg, s, outcome, whole);
        var u := LaunchAll(s, Todo(cfg, s));
        hide Plain, After, LaunchedIn, Names, ReasonFor, LaunchAll, Todo, Whole, Settled, Candidates;
        SameWhole(cfg, u, t, outcome, whole);
      } else {
        hide Plain, After, LaunchedIn, Names, ReasonFor, Whole, Settled, Todo;
        assert LaunchAll(s, []) == s;
        SameWhole(cfg, s, t, outcome, whole);
      }
  }

  lemma SerialBegin(cfg: Config, s: State, n: string, outcome: map<string, bool>, whole: (seq<string>, States))
    requires Serially(cfg, s, outcome, whole) && n in s.running && n in s.state
    ensures Serially(cfg, BeginState(cfg, s, n), outcome, whole)
  {
    var t := BeginState(cfg, s, n);
    LaunchedAppend(s.log, Started(n));
    assert s.running.Keys == {n} == t.running.Keys;
    SettledIs(cfg, s, n, outcome);
    SettledIs(cfg, t, n, outcome);
    AfterRunning(cfg.phases, s.state, n, Would(outcome, n));
    hide Plain, LaunchedIn, Guests, After, Settled;
  }

  lemma SerialEnd(cfg: Config, s: State, n: string, outcome: map<string, bool>, whole: (seq<string>, States))
    requires Serially(cfg, s, outcome, whole) && n in s.running
    ensures Serially(cfg, EndState(cfg, s, n, Would(outcome, n)), outcome, whole)
  {
    var ok := Would(outcome, n);
    var t := EndState(cfg, s, n, ok);
    assert s.running.Keys == {n} && t.running == map[];
    LaunchedAppend(s.log, Ended(n, ok));
    if ok {
      assert t.log == s.log + [Ended(n, ok)];
    } else {
      LaunchedAppend(s.log + [Ended(n, ok)], Marked(NewlySkipped(cfg.phases, s.state, n), n));
    }
    SettledIs(cfg, s, n, outcome);
    hide Plain, LaunchedIn, Guests, FailedStates, NewlySkipped, Settled;
    assert Settled(cfg, t, outcome) == t.state by { QuietSettled(cfg, t, outcome); }
  }

  lemma QuietSettled(cfg: Config, s: State, outcome: map<string, bool>)
    requires s.running == map[]
    ensures Settled(cfg, s, outcome) == s.state
  {
  }

  lemma NothingRunning(cfg: Config, s: State)
    requires Tasks(cfg, s.state, s.running, s.begun) && s.running == map[]
    ensures forall n :: n in Names(cfg.phases) ==> n in s.state && !s.state[n].Running?
  {
  }

  lemma RunningKnown(cfg: Config, s: State, n: string)
    requires Tasks(cfg, s.state, s.running, s.begun) && n in s.running
    ensures n in s.state
  {
  }

  lemma SerialStep(cfg: Config, s: State, step: Step, outcome: map<string, bool>, whole: (seq<string>, States))
    requires cfg.serial && Sorted(cfg.phases) && Inv(cfg, s) && Serially(cfg, s, outcome, whole) && Enabled(s, step)
    requires EndsAs(step, outcome)
    ensures Serially(cfg, Apply(cfg, s, step), outcome, whole)
  {
    if s.running == map[] { NothingRunning(cfg, s); }
    hide Serially, TurnOf, BeginState, EndState, Sorted, Tasks, Exclusive, HoldersExact, Stages, Names;
    match step
    case Boot => SerialTurn(cfg, s, outcome, whole);
    case Wake =>
      SameWhole(cfg, s, s.(changed := false), outcome, whole);
      SerialTurn(cfg, s.(changed := false), outcome, whole);
    case Continue =>
      LaunchedAppend(s.log, Resumed);
      SameWhole(cfg, s, s.(log := s.log + [Resumed]), outcome, whole);
      SerialTurn(cfg, s.(log := s.log + [Resumed]), outcome, whole);
    case Begin(n) =>
      RunningKnown(cfg, s, n);
      SerialBegin(cfg, s, n, outcome, whole);
    case End(n, ok) => SerialEnd(cfg, s, n, outcome, whole);
  }

  lemma {:induction false} SerialRun(cfg: Config, s: State, steps: seq<Step>, t: State,
                                     outcome: map<string, bool>, whole: (seq<string>, States))
    requires cfg.serial && Sorted(cfg.phases) && NodesKnown(cfg) && Inv(cfg, s) && Serially(cfg, s, outcome, whole)
    requires Follows(steps, outcome) && Execute(cfg, s, steps) == Some(t)
    ensures Serially(cfg, t, outcome, whole)
    decreases |steps|
  {
    if steps != [] {
      StepKeeps(cfg, s, steps[0]);
      SerialStep(cfg, s, steps[0], outcome, whole);
      hide Serially, Apply, Sorted, EndsAs;
      SerialRun(cfg, Apply(cfg, s, steps[0]), steps[1..], t, outcome, whole);
    }
  }

  // ── the theorems ──────────────────────────────────────────────────

  /** At any point: never two at once, and what was launched, with what the plain loop would still run, is the
      plain loop's own. */
  lemma SerialPrefix(cfg: Config, steps: seq<Step>, s: State, outcome: map<string, bool>)
    requires WellFormed(cfg) && cfg.serial && Sorted(cfg.phases)
    requires Reaches(cfg, steps, s) && Follows(steps, outcome)
    ensures AtMostOne(s.running)
    ensures LaunchedIn(s.log) <= Plain(cfg.phases, 0, Initial(cfg).state, outcome).0
    ensures Whole(cfg, s, outcome) == Plain(cfg.phases, 0, Initial(cfg).state, outcome)
  {
    var s0 := Initial(cfg);
    InitialInv(cfg);
    var whole := Plain(cfg.phases, 0, s0.state, outcome);
    assert [] + whole.0 == whole.0;
    assert Whole(cfg, s0, outcome) == whole;
    SerialRun(cfg, s0, steps, s, outcome, whole);
    hide Execute, Plain, WellFormed, Inv, LaunchedIn, Settled;
  }

  /** Serial refinement: a finished serial run is the plain loop, launch for launch and state for state. */
  lemma SerialRefinement(cfg: Config, steps: seq<Step>, s: State, outcome: map<string, bool>)
    requires WellFormed(cfg) && cfg.serial && Sorted(cfg.phases)
    requires Reaches(cfg, steps, s) && s.stage == Done && Follows(steps, outcome)
    ensures (LaunchedIn(s.log), s.state) == Plain(cfg.phases, 0, Initial(cfg).state, outcome)
  {
    SerialPrefix(cfg, steps, s, outcome);
    ReachableInv(cfg, steps, s);
    hide Execute, Plain, Sorted;
    DoneSerially(cfg, s, outcome);
    assert LaunchedIn(s.log) + [] == LaunchedIn(s.log);
  }

  lemma DoneSerially(cfg: Config, s: State, outcome: map<string, bool>)
    requires AfterClosed(cfg.phases) && Acyclic(cfg.phases) && Inv(cfg, s) && s.stage == Done
    ensures s.running == map[] && Whole(cfg, s, outcome) == (LaunchedIn(s.log) + [], s.state)
  {
    AllAnswered(cfg, s);
    hide Exclusive, HoldersExact, LaunchedIn;
    assert forall p :: p in cfg.phases ==> p.name in Names(cfg.phases);
    QuietSettled(cfg, s, outcome);
    PlainDone(cfg.phases, 0, s.state, outcome);
  }

  /** The phases, in list order, that came to an outcome of their own: neither skipped nor deselected. */
  function Ran(phases: seq<Phase>, final: States): seq<string> {
    if phases == [] then []
    else (var st := StateOf(final, phases[0].name); if st.Passed? || st.Failed? then [phases[0].name] else [])
         + Ran(phases[1..], final)
  }

  lemma {:induction false} PlainKeeps(phases: seq<Phase>, k: nat, state: States, outcome: map<string, bool>, m: string)
    requires k <= |phases| && !StateOf(state, m).Pending?
    requires forall i :: k <= i < |phases| ==> phases[i].name in state
    ensures StateOf(Plain(phases, k, state, outcome).1, m) == StateOf(state, m)
    decreases |phases| - k
  {
    if k < |phases| {
      var n := phases[k].name;
      if StateOf(state, n).Pending? {
        PlainKeeps(phases, k + 1, After(phases, state, n, Would(outcome, n)), outcome, m);
      } else {
        PlainKeeps(phases, k + 1, state, outcome, m);
      }
    }
  }

  /** The plain loop runs in list order, leaving out exactly the skipped and the deselected. */
  lemma {:induction false} PlainInListOrder(phases: seq<Phase>, k: nat, state: States, outcome: map<string, bool>)
    requires k <= |phases| && DistinctNames(phases)
    requires forall i :: k <= i < |phases| ==>
      phases[i].name in state && var st := state[phases[i].name]; st.Pending? || st.Skipped? || st.Deselected?
    ensures var (runs, final) := Plain(phases, k, state, outcome); runs == Ran(phases[k..], final)
    decreases |phases| - k
  {
    if k < |phases| {
      var n := phases[k].name;
      assert phases[k..][0] == phases[k] && phases[k..][1..] == phases[k + 1..];
      if state[n].Pending? {
        var next := After(phases, state, n, Would(outcome, n));
        assert next.Keys == state.Keys;
        PlainInListOrder(phases, k + 1, next, outcome);
        PlainKeeps(phases, k + 1, next, outcome, n);
      } else {
        PlainInListOrder(phases, k + 1, state, outcome);
        PlainKeeps(phases, k + 1, state, outcome, n);
      }
    }
  }

  /** So a finished serial run started its phases in list order, the skipped and deselected left out. */
  lemma SerialInListOrder(cfg: Config, steps: seq<Step>, s: State, outcome: map<string, bool>)
    requires WellFormed(cfg) && cfg.serial && Sorted(cfg.phases)
    requires Reaches(cfg, steps, s) && s.stage == Done && Follows(steps, outcome)
    ensures LaunchedIn(s.log) == Ran(cfg.phases, s.state)
  {
    SerialRefinement(cfg, steps, s, outcome);
    hide Execute, Plain;
    var state := Initial(cfg).state;
    assert forall i :: 0 <= i < |cfg.phases| ==> cfg.phases[i].name in Names(cfg.phases);
    PlainInListOrder(cfg.phases, 0, state, outcome);
    assert cfg.phases[0..] == cfg.phases;
  }
}
