/**
  The scheduler and the journals side by side: a guest's lines are filed under whichever phase holds
  the guest as they are drained (pkgs/uml/uml/session.py:412-420, 632-635, 686, 706). Writes, drains
  and the scheduler's steps come in any order.
*/
module Attribution {
  import opened Options
  import opened Lines
  import opened Journal
  import opened Phases
  import opened Schedule
  import opened ScheduleSafety
  import Settle

  datatype Joint = Joint(s: State, w: Settle.World)

  /** `Ends` is the end of a phase, its tokens in, or with None its time up; `Go` any other step. */
  datatype Move =
    | Write(guest: string, data: Bytes)
    | Drain(guest: string)
    | Go(step: Step)
    | Ends(name: string, ok: bool, tokens: Option<set<string>>)

  ghost function Start(cfg: Config): Joint {
    Joint(Initial(cfg), Settle.Quiet(cfg.machines))
  }

  predicate Possible(j: Joint, move: Move) {
    match move
    case Write(g, _) => g in j.w.files
    case Drain(g) => g in j.w.files && g in j.w.places
    case Go(step) => !step.End? && Enabled(j.s, step)
    case Ends(n, ok, tokens) => Enabled(j.s, End(n, ok)) && (tokens.Some? ==> tokens.value <= j.w.settled)
  }

  /** What the move is to the journals: a drain looks up who holds the guest. */
  function WorldStep(j: Joint, move: Move): seq<Settle.Step> {
    match move
    case Write(g, data) => [Settle.Step.Write(g, data)]
    case Drain(g) => [Settle.Step.Drain(g, Settle.Holder(j.s.holders, g))]
    case Go(_) => []
    case Ends(n, _, tokens) => [if tokens.Some? then Settle.Finish(n, tokens.value) else Settle.GiveUp(n)]
  }

  /** And to the scheduler. */
  function TaskStep(move: Move): seq<Step> {
    match move
    case Write(_, _) => []
    case Drain(_) => []
    case Go(step) => [step]
    case Ends(n, ok, _) => [End(n, ok)]
  }

  lemma StepsPossible(cfg: Config, parse: Settle.Parser, j: Joint, move: Move)
    requires Possible(j, move)
    ensures Execute(cfg, j.s, TaskStep(move)).Some? && Settle.Execute(parse, j.w, WorldStep(j, move)).Some?
  {
    var tasks, lines := TaskStep(move), WorldStep(j, move);
    if tasks != [] {
      ExecuteOne(cfg, j.s, tasks[0]);
      assert tasks == [tasks[0]];
    }
    if lines != [] {
      WorldOne(parse, j.w, lines[0]);
      assert lines == [lines[0]];
    }
  }

  lemma WorldOne(parse: Settle.Parser, w: Settle.World, step: Settle.Step)
    requires Settle.Enabled(w, step)
    ensures Settle.Execute(parse, w, [step]) == Some(Settle.Apply(parse, w, step))
  {
    assert [step][1..] == [];
    assert Settle.Execute(parse, Settle.Apply(parse, w, step), []).Some?;
  }

  ghost function Make(cfg: Config, parse: Settle.Parser, j: Joint, move: Move): Joint
    requires Possible(j, move)
  {
    StepsPossible(cfg, parse, j, move);
    Joint(Execute(cfg, j.s, TaskStep(move)).value, Settle.Execute(parse, j.w, WorldStep(j, move)).value)
  }

  ghost function Run(cfg: Config, parse: Settle.Parser, j: Joint, moves: seq<Move>): Option<Joint>
    decreases |moves|
  {
    if moves == [] then Some(j)
    else if Possible(j, moves[0]) then Run(cfg, parse, Make(cfg, parse, j, moves[0]), moves[1..])
    else None
  }

  ghost function TaskSteps(moves: seq<Move>): seq<Step> {
    if moves == [] then [] else TaskStep(moves[0]) + TaskSteps(moves[1..])
  }

  ghost function WorldSteps(cfg: Config, parse: Settle.Parser, j: Joint, moves: seq<Move>): seq<Settle.Step>
    requires Run(cfg, parse, j, moves).Some?
    decreases |moves|
  {
    if moves == [] then []
    else WorldStep(j, moves[0]) + WorldSteps(cfg, parse, Make(cfg, parse, j, moves[0]), moves[1..])
  }

  /** A joint run is a run of each. */
  lemma {:induction false} RunsOfEach(cfg: Config, parse: Settle.Parser, j: Joint, moves: seq<Move>, k: Joint)
    requires Run(cfg, parse, j, moves) == Some(k)
    ensures Execute(cfg, j.s, TaskSteps(moves)) == Some(k.s)
    ensures Settle.Execute(parse, j.w, WorldSteps(cfg, parse, j, moves)) == Some(k.w)
    decreases |moves|
  {
    if moves != [] {
      var next := Make(cfg, parse, j, moves[0]);
      StepsPossible(cfg, parse, j, moves[0]);
      RunsOfEach(cfg, parse, next, moves[1..], k);
      var tasks, lines := TaskStep(moves[0]), WorldStep(j, moves[0]);
      hide Execute, Settle.Execute, TaskStep, WorldStep;
      ExecuteConcat(cfg, j.s, tasks, next.s, TaskSteps(moves[1..]));
      Settle.ExecuteConcat(parse, j.w, lines, next.w, WorldSteps(cfg, parse, next, moves[1..]));
    }
  }

  /** Every guest has its file and its place in it all along. */
  lemma {:induction false} FilesStay(cfg: Config, parse: Settle.Parser, j: Joint, moves: seq<Move>, k: Joint)
    requires Run(cfg, parse, j, moves) == Some(k)
    ensures k.w.files.Keys == j.w.files.Keys && k.w.places.Keys == j.w.places.Keys
    decreases |moves|
  {
    if moves != [] {
      var lines := WorldStep(j, moves[0]);
      StepsPossible(cfg, parse, j, moves[0]);
      if lines != [] {
        WorldOne(parse, j.w, lines[0]);
        assert lines == [lines[0]];
      }
      hide Execute, Settle.Execute, Journal.ReadPlace, Settle.Tokens, Settle.Entries, Settle.Hear;
      FilesStay(cfg, parse, Make(cfg, parse, j, moves[0]), moves[1..], k);
    }
  }

  // ── whose lines ───────────────────────────────────────────────────

  /** In every reachable state a drain of the guest files under a phase exactly if that is running and
      uses the guest. */
  lemma DrainFilesExactly(cfg: Config, parse: Settle.Parser, moves: seq<Move>, j: Joint, g: string, n: string)
    requires WellFormed(cfg) && Run(cfg, parse, Start(cfg), moves) == Some(j)
    ensures Settle.Holder(j.s.holders, g) == Some(n) <==>
      && n in j.s.state && j.s.state[n].Running? && n in j.s.running
      && (g in j.s.running[n].nodes || (j.s.running[n].nodes == [] && g in cfg.machines))
    ensures g in cfg.machines ==> Possible(j, Drain(g)) && forall data :: Possible(j, Write(g, data))
  {
    FilesStay(cfg, parse, Start(cfg), moves, j);
    RunsOfEach(cfg, parse, Start(cfg), moves, j);
    AttributionExact(cfg, TaskSteps(moves), j.s, g, n);
  }

  /** What the scheduler can do but end a phase can be done, and nothing is written or heard by it. */
  lemma GoesOn(cfg: Config, parse: Settle.Parser, j: Joint, step: Step)
    requires !step.End? && Enabled(j.s, step)
    ensures Possible(j, Go(step)) && Make(cfg, parse, j, Go(step)) == Joint(Apply(cfg, j.s, step), j.w)
  {
    ExecuteOne(cfg, j.s, step);
    hide Execute, Apply;
  }

  /** In every reachable state, what a guest has just written is heard at its next drain, filed under the
      phase that `DrainFilesExactly` says. */
  lemma WrittenIsFiled(cfg: Config, parse: Settle.Parser, moves: seq<Move>, j: Joint, g: string, data: Bytes)
    requires WellFormed(cfg) && Run(cfg, parse, Start(cfg), moves) == Some(j) && g in cfg.machines
    ensures g in j.w.files && g in j.w.places && j.w.places[g].offset <= |j.w.files[g]|
    ensures Possible(j, Write(g, data)) && Possible(Make(cfg, parse, j, Write(g, data)), Drain(g))
    ensures var k := Make(cfg, parse, Make(cfg, parse, j, Write(g, data)), Drain(g));
      var read, lines := Settle.Processed(j.w, g), Split(j.w.files[g] + data).0;
      && k.s == j.s && k.w.files == j.w.files[g := j.w.files[g] + data] && read <= lines
      && k.w.settled == j.w.settled + Settle.Tokens(parse, lines)
      && Settle.HeardAre(j.w.events, k.w.events, g, Settle.Entries(parse, lines[|read|..]),
                         Settle.Holder(j.s.holders, g))
  {
    FilesStay(cfg, parse, Start(cfg), moves, j);
    RunsOfEach(cfg, parse, Start(cfg), moves, j);
    Settle.ReachableInv(parse, cfg.machines, WorldSteps(cfg, parse, Start(cfg), moves), j.w);
    hide Run, WorldSteps, Make, Settle.HeardAre, Settle.Tokens, Settle.Entries, Settle.Processed, Split;
    WriteThenDrain(cfg, parse, j, g, data);
    Settle.DrainTakesAll(parse, j.w, g, data, Settle.Holder(j.s.holders, g));
  }

  lemma WriteThenDrain(cfg: Config, parse: Settle.Parser, j: Joint, g: string, data: Bytes)
    requires g in j.w.files && g in j.w.places
    ensures Possible(j, Write(g, data)) && Possible(Make(cfg, parse, j, Write(g, data)), Drain(g))
    ensures Make(cfg, parse, Make(cfg, parse, j, Write(g, data)), Drain(g)) == Joint(
      j.s, Settle.Apply(parse, Settle.Apply(parse, j.w, Settle.Step.Write(g, data)),
                        Settle.Step.Drain(g, Settle.Holder(j.s.holders, g))))
  {
    var write, drain := Settle.Step.Write(g, data), Settle.Step.Drain(g, Settle.Holder(j.s.holders, g));
    WorldOne(parse, j.w, write);
    WorldOne(parse, Settle.Apply(parse, j.w, write), drain);
    hide Settle.Execute, Settle.Tokens, Settle.Entries, Settle.Hear, Journal.ReadPlace;
    assert Make(cfg, parse, j, Write(g, data)) == Joint(j.s, Settle.Apply(parse, j.w, write));
  }

  /** The phase is past its first drain, and names the guest, or none. */
  ghost predicate Holds(cfg: Config, s: State, n: string, g: string) {
    && n in s.begun && n in s.running
    && (g in s.running[n].nodes || (s.running[n].nodes == [] && g in cfg.machines))
  }

  lemma StepKeepsHold(cfg: Config, s: State, step: Step, n: string, g: string)
    requires Enabled(s, step) && Holds(cfg, s, n, g) && (step.End? ==> step.name != n)
    ensures Holds(cfg, Apply(cfg, s, step), n, g)
  {
    match step
    case Boot => TurnKeepsHold(cfg, s, n, g);
    case Wake => TurnKeepsHold(cfg, s.(changed := false), n, g);
    case Continue => TurnKeepsHold(cfg, s.(log := s.log + [Resumed]), n, g);
    case Begin(m) => hide Guests;
    case End(m, ok) => hide Guests;
    hide TurnOf;
  }

  lemma TurnKeepsHold(cfg: Config, s: State, n: string, g: string)
    requires Holds(cfg, s, n, g)
    ensures Holds(cfg, TurnOf(cfg, s), n, g)
  {
    LaunchEffect(s, Todo(cfg, s));
    TodoFacts(cfg, s);
    CandidateFacts(cfg, s);
    hide LaunchAll, Todo, ReasonFor, Guests;
    assert n !in Names(Todo(cfg, s));
  }

  predicate Lasts(moves: seq<Move>, n: string) {
    forall m :: m in moves && m.Ends? ==> m.name != n
  }

  lemma {:induction false} DrainsAreHeld(
    cfg: Config, parse: Settle.Parser, j: Joint, moves: seq<Move>, k: Joint, n: string, g: string)
    requires WellFormed(cfg) && Inv(cfg, j.s) && Holds(cfg, j.s, n, g)
    requires Run(cfg, parse, j, moves) == Some(k) && Lasts(moves, n)
    ensures Settle.HeldBy(WorldSteps(cfg, parse, j, moves), g, n) && Holds(cfg, k.s, n, g)
    decreases |moves|
  {
    if moves != [] {
      var move, next := moves[0], Make(cfg, parse, j, moves[0]);
      assert move in moves && forall m :: m in moves[1..] ==> m in moves;
      MoveKeepsHold(cfg, parse, j, move, n, g);
      hide Inv, Holds, Make, WellFormed;
      DrainsAreHeld(cfg, parse, next, moves[1..], k, n, g);
    }
  }

  lemma MoveKeepsHold(cfg: Config, parse: Settle.Parser, j: Joint, move: Move, n: string, g: string)
    requires WellFormed(cfg) && Inv(cfg, j.s) && Holds(cfg, j.s, n, g)
    requires Possible(j, move) && (move.Ends? ==> move.name != n)
    ensures Settle.HeldBy(WorldStep(j, move), g, n)
    ensures Inv(cfg, Make(cfg, parse, j, move).s) && Holds(cfg, Make(cfg, parse, j, move).s, n, g)
  {
    hide Inv, Holds, Apply, Settle.Execute, DistinctNames, AfterClosed, Acyclic, NodesKnown;
    MoveIsHeld(cfg, j, move, n, g);
    StepsPossible(cfg, parse, j, move);
    var tasks := TaskStep(move);
    if tasks != [] {
      ExecuteOne(cfg, j.s, tasks[0]);
      assert tasks == [tasks[0]];
      StepKeeps(cfg, j.s, tasks[0]);
      StepKeepsHold(cfg, j.s, tasks[0], n, g);
    }
  }

  lemma MoveIsHeld(cfg: Config, j: Joint, move: Move, n: string, g: string)
    requires Inv(cfg, j.s) && Holds(cfg, j.s, n, g)
    ensures Settle.HeldBy(WorldStep(j, move), g, n)
  {
    GuestsAre(cfg, j.s.running[n]);
    assert g in j.s.holders && j.s.holders[g] == n by { hide Tasks, Exclusive, Stages; }
    hide Inv, Holds;
  }

  /**
    Filed under the phase that ran there: of all lines read from a guest between a phase's start and
    its end, whoever drains, each parsable non-marker one is one event under that phase, in order,
    and none of them is under another.
  */
  lemma FiledUnderItsPhase(cfg: Config, parse: Settle.Parser, before: seq<Move>, j: Joint,
                           during: seq<Move>, k: Joint, n: string, g: string)
    requires WellFormed(cfg) && Run(cfg, parse, Start(cfg), before) == Some(j)
    requires Holds(cfg, j.s, n, g) && g in j.w.files
    requires Run(cfg, parse, j, during) == Some(k) && Lasts(during, n)
    ensures g in j.w.places && j.w.places[g].offset <= |j.w.files[g]|
    ensures g in k.w.files && g in k.w.places && k.w.places[g].offset <= |k.w.files[g]|
    ensures j.w.events <= k.w.events && Settle.Processed(j.w, g) <= Settle.Processed(k.w, g)
    ensures var heard := k.w.events[|j.w.events|..];
      var lines := Settle.Processed(k.w, g)[|Settle.Processed(j.w, g)|..];
      && Settle.EntriesOf(heard, g) == Settle.Entries(parse, lines)
      && forall e :: e in heard && e.Heard? && e.machine == g ==> e.under == Some(n)
  {
    RunsOfEach(cfg, parse, Start(cfg), before, j);
    RunsOfEach(cfg, parse, j, during, k);
    ReachableInv(cfg, TaskSteps(before), j.s);
    DrainsAreHeld(cfg, parse, j, during, k, n, g);
    hide Run, Inv, WellFormed, Holds, Execute, Settle.Execute, Settle.Processed, Settle.Entries, Settle.EntriesOf;
    Settle.HeardWhileHeld(parse, cfg.machines, WorldSteps(cfg, parse, Start(cfg), before), j.w,
                              WorldSteps(cfg, parse, j, during), k.w, g, n);
  }

  /**
    And if the phase then ends with its tokens in, every complete line before the guest's token has
    been read by then: before the phase started, or as one of those.
  */
  lemma AllFiledInTime(cfg: Config, parse: Settle.Parser, before: seq<Move>, j: Joint,
                       during: seq<Move>, k: Joint, n: string, g: string,
                       ok: bool, tokens: set<string>, t: string, i: nat)
    requires WellFormed(cfg) && Run(cfg, parse, Start(cfg), before) == Some(j)
    requires Holds(cfg, j.s, n, g) && g in j.w.files
    requires Run(cfg, parse, j, during) == Some(k) && Lasts(during, n)
    requires Possible(k, Ends(n, ok, Some(tokens))) && t in tokens
    requires g in k.w.files && Settle.OnlyIn(parse, k.w, t, g)
    requires var lines := Split(k.w.files[g]).0;
      i < |lines| && forall x :: 0 <= x < i ==> !Settle.Marks(parse, lines[x], t)
    ensures g in k.w.places && k.w.places[g].offset <= |k.w.files[g]| && i < |Settle.Processed(k.w, g)|
    ensures Make(cfg, parse, k, Ends(n, ok, Some(tokens))).w.events == k.w.events + [Settle.Finished(n)]
  {
    var first, second := WorldSteps(cfg, parse, Start(cfg), before), WorldSteps(cfg, parse, j, during);
    hide Run, WellFormed, Holds, Execute, Split, Settle.Processed, Settle.OnlyIn, Settle.Marks, Settle.Execute;
    hide WorldSteps, Lasts;
    RunsOfEach(cfg, parse, Start(cfg), before, j);
    RunsOfEach(cfg, parse, j, during, k);
    Settle.ExecuteConcat(parse, Settle.Quiet(cfg.machines), first, j.w, second);
    EndsFinish(cfg, parse, k, n, ok, Some(tokens));
    Settle.TokenIsABarrier(parse, cfg.machines, first + second, k.w, t, g, i);
  }

  lemma EndsFinish(cfg: Config, parse: Settle.Parser, k: Joint, n: string, ok: bool, tokens: Option<set<string>>)
    requires Possible(k, Ends(n, ok, tokens))
    ensures tokens.Some? ==> tokens.value <= k.w.settled
    ensures Make(cfg, parse, k, Ends(n, ok, tokens)).w.events == k.w.events + [Settle.Finished(n)]
    ensures Make(cfg, parse, k, Ends(n, ok, tokens)).s == Apply(cfg, k.s, End(n, ok))
  {
    ExecuteOne(cfg, k.s, End(n, ok));
    WorldOne(parse, k.w, if tokens.Some? then Settle.Finish(n, tokens.value) else Settle.GiveUp(n));
    hide Execute, Settle.Execute, Apply;
  }

  /** A phase past its first drain may end, in time once its tokens are in or else with its time up: that is
      the next event either way, and no guest is its own any more. */
  lemma EndIsNext(cfg: Config, parse: Settle.Parser, moves: seq<Move>, j: Joint,
                  n: string, ok: bool, tokens: Option<set<string>>)
    requires WellFormed(cfg) && Run(cfg, parse, Start(cfg), moves) == Some(j) && n in j.s.begun
    requires tokens.Some? ==> tokens.value <= j.w.settled
    ensures Possible(j, Ends(n, ok, tokens))
    ensures var k := Make(cfg, parse, j, Ends(n, ok, tokens));
      && k.w.events == j.w.events + [Settle.Finished(n)]
      && n in k.s.state && k.s.state[n] == (if ok then Passed else Failed)
      && forall g :: Settle.Holder(k.s.holders, g) != Some(n)
  {
    hide Run, WellFormed, Inv, Execute, Settle.Execute, Make, Apply, Settle.Holder;
    var steps := TaskSteps(moves);
    RunsOfEach(cfg, parse, Start(cfg), moves, j);
    ReachableInv(cfg, steps, j.s);
    BegunMayEnd(cfg, j.s, n, ok);
    EndsFinish(cfg, parse, j, n, ok, tokens);
    EndAnswers(cfg, j.s, n, ok);
    ReachesNext(cfg, steps, j.s, End(n, ok));
    HoldsNone(cfg, steps + [End(n, ok)], Apply(cfg, j.s, End(n, ok)), n);
  }

  lemma BegunMayEnd(cfg: Config, s: State, n: string, ok: bool)
    requires Inv(cfg, s) && n in s.begun
    ensures Enabled(s, End(n, ok))
  {
  }

  lemma HoldsNone(cfg: Config, steps: seq<Step>, s: State, n: string)
    requires WellFormed(cfg) && Reaches(cfg, steps, s) && n in s.state && !s.state[n].Running?
    ensures forall g :: Settle.Holder(s.holders, g) != Some(n)
  {
    hide WellFormed, Reaches;
    forall g ensures Settle.Holder(s.holders, g) != Some(n) {
      AttributionExact(cfg, steps, s, g, n);
    }
  }

  lemma EndAnswers(cfg: Config, s: State, n: string, ok: bool)
    requires Enabled(s, End(n, ok)) && WellFormed(cfg) && Inv(cfg, s)
    ensures var t := Apply(cfg, s, End(n, ok)); n in t.state && t.state[n] == if ok then Passed else Failed
  {
    hide Guests;
  }

  lemma ReachesNext(cfg: Config, steps: seq<Step>, s: State, step: Step)
    requires Reaches(cfg, steps, s) && Enabled(s, step)
    ensures Reaches(cfg, steps + [step], Apply(cfg, s, step))
  {
    ExecuteConcat(cfg, Initial(cfg), steps, s, [step]);
    ExecuteOne(cfg, s, step);
  }
}
