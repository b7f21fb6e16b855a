/**
  Reaching into a paused run (pkgs/uml/uml/control.py): the drive's pause on one side, clients of
  the socket on the other, and the two fields between them. A client's `handle` and what it does
  after its reply are separate steps, with any other client's in between.
*/
module Control {
  import opened Options
  import opened Phases
  import opened Schedule
  import opened ScheduleSafety

  datatype Op = StateOp | ExecOp | InjectOp | RunOp | PytestOp | ContinueOp

  /** `_resume`: none, an event nobody has set, or one that is set and not yet waited out. */
  datatype Resume = NoPause | Held | Released

  datatype Desk = Desk(resume: Resume, continuing: bool, replying: nat)

  /** `Replied` is a client past its reply; `Dropped` one whose connection went first. */
  datatype Move = PauseBegins | PauseEnds | Request(op: Op) | Replied | Dropped

  predicate InPause(d: Desk) {
    !d.resume.NoPause?
  }

  /** Everything but `state` is refused while the run is running. */
  predicate Accepts(op: Op, paused: bool) {
    op.StateOp? || paused
  }

  predicate Possible(d: Desk, move: Move) {
    match move
    case PauseBegins => d.resume == NoPause
    case PauseEnds => d.resume == Released
    case Request(_) => true
    case Replied => d.replying > 0
    case Dropped => d.replying > 0
  }

  function AfterReply(d: Desk): Desk {
    if d.continuing && InPause(d) then d.(continuing := false, resume := Released) else d
  }

  function Make(d: Desk, move: Move): Desk
    requires Possible(d, move)
  {
    match move
    case PauseBegins => d.(resume := Held)
    case PauseEnds => d.(resume := NoPause)
    case Request(op) => d.(continuing := d.continuing || (op.ContinueOp? && InPause(d)), replying := d.replying + 1)
    case Replied => AfterReply(d.(replying := d.replying - 1))
    case Dropped => d.(replying := d.replying - 1)
  }

  function Run(d: Desk, moves: seq<Move>): Option<Desk>
    decreases |moves|
  {
    if moves == [] then Some(d)
    else if Possible(d, moves[0]) then Run(Make(d, moves[0]), moves[1..])
    else None
  }

  /** Nobody asks to continue, and the drive stays where it is. */
  predicate NoContinue(moves: seq<Move>) {
    forall m :: m in moves ==> m != Request(ContinueOp) && !m.PauseBegins? && !m.PauseEnds?
  }

  lemma {:induction false} ClearStaysHeld(d: Desk, moves: seq<Move>, e: Desk)
    requires d.resume == Held && !d.continuing && NoContinue(moves) && Run(d, moves) == Some(e)
    ensures e.resume == Held && !e.continuing
    decreases |moves|
  {
    if moves != [] {
      assert moves[0] in moves;
      assert forall m :: m in moves[1..] ==> m in moves;
      ClearStaysHeld(Make(d, moves[0]), moves[1..], e);
    }
  }

  /**
    A pause is ended only by a `continue` asked for during it, exactly when `_continuing` is clear
    as it begins. If it is not, a question about the state is enough to end it.
  */
  lemma PauseNeedsItsOwnContinue(d: Desk)
    requires d.resume == Held
    ensures !d.continuing <==>
      !exists moves, e :: NoContinue(moves) && Run(d, moves) == Some(e) && e.resume == Released
  {
    if d.continuing {
      var asked := Make(d, Request(StateOp));
      var e := Make(asked, Replied);
      var moves := [Request(StateOp), Replied];
      assert moves[1..] == [Replied];
      assert Run(asked, [Replied]) == Run(e, []) == Some(e);
      assert NoContinue(moves) && Run(d, moves) == Some(e);
    } else {
      forall moves, e | NoContinue(moves) && Run(d, moves) == Some(e) ensures e.resume == Held {
        ClearStaysHeld(d, moves, e);
      }
    }
  }

  /**
    And it can begin uncleared: a second `continue`, accepted before the drive has woken and
    answered after, finds no pause to end and leaves the flag up for the next one.
  */
  lemma SecondContinueOutlivesItsPause() returns (moves: seq<Move>, d: Desk)
    ensures Run(Desk(NoPause, false, 0), moves) == Some(d)
    ensures d.resume == Held && d.continuing && d.replying == 0
  {
    moves := [PauseBegins, Request(ContinueOp), Replied, Request(ContinueOp), PauseEnds, Replied, PauseBegins];
    d := Desk(Held, true, 0);
    assert moves[1..] == [Request(ContinueOp), Replied, Request(ContinueOp), PauseEnds, Replied, PauseBegins];
    assert moves[1..][1..] == [Replied, Request(ContinueOp), PauseEnds, Replied, PauseBegins];
    assert moves[1..][1..][1..] == [Request(ContinueOp), PauseEnds, Replied, PauseBegins];
    assert moves[1..][1..][1..][1..] == [PauseEnds, Replied, PauseBegins];
    assert moves[1..][1..][1..][1..][1..] == [Replied, PauseBegins];
    assert moves[1..][1..][1..][1..][1..][1..] == [PauseBegins];
    assert Run(Desk(NoPause, true, 0), [PauseBegins]) == Run(d, []);
    assert Run(Desk(NoPause, true, 1), [Replied, PauseBegins]) == Some(d);
    assert Run(Desk(Released, true, 1), [PauseEnds, Replied, PauseBegins]) == Some(d);
    assert Run(Desk(Released, false, 0), moves[1..][1..][1..]) == Some(d);
    assert Run(Desk(Held, true, 1), moves[1..][1..]) == Some(d);
    assert Run(Desk(Held, false, 0), moves[1..]) == Some(d);
  }

  /** The desk after the first i moves. */
  function After(d: Desk, moves: seq<Move>, i: nat): Option<Desk>
    requires i <= |moves|
  {
    Run(d, moves[..i])
  }

  lemma {:induction false} RunAll(d: Desk, a: seq<Move>, e: Desk, move: Move)
    requires Run(d, a) == Some(e)
    ensures Run(d, a + [move]) == if Possible(e, move) then Some(Make(e, move)) else None
    decreases |a|
  {
    if a == [] {
      assert [] + [move] == [move] && [move][1..] == [];
    } else {
      assert (a + [move])[0] == a[0] && (a + [move])[1..] == a[1..] + [move];
      RunAll(Make(d, a[0]), a[1..], e, move);
    }
  }

  lemma {:induction false} RunFront(d: Desk, a: seq<Move>, move: Move)
    requires Run(d, a + [move]).Some?
    ensures Run(d, a).Some?
    decreases |a|
  {
    if a != [] {
      assert (a + [move])[0] == a[0] && (a + [move])[1..] == a[1..] + [move];
      RunFront(Make(d, a[0]), a[1..], move);
    }
  }

  const IDLE := Desk(NoPause, false, 0)

  /** The clients that have asked and whose reply has neither been sent nor dropped. */
  ghost function Unanswered(moves: seq<Move>): int {
    if moves == [] then 0
    else
      var last := moves[|moves| - 1];
      Unanswered(moves[..|moves| - 1]) + if last.Request? then 1 else if last.Replied? || last.Dropped? then -1 else 0
  }

  /** A pause was begun and is not over. */
  ghost predicate BegunLast(moves: seq<Move>) {
    moves != [] &&
      var last := moves[|moves| - 1];
      last.PauseBegins? || (!last.PauseEnds? && BegunLast(moves[..|moves| - 1]))
  }

  /** Every client that asked has a reply to come, sent or dropped, and no other; pauses do not overlap. */
  lemma {:induction false} RepliesOwed(moves: seq<Move>, d: Desk)
    requires Run(IDLE, moves) == Some(d)
    ensures Possible(d, Replied) <==> Unanswered(moves) > 0
    ensures Possible(d, Dropped) <==> Unanswered(moves) > 0
    ensures Possible(d, PauseBegins) <==> !BegunLast(moves)
    ensures d.replying == Unanswered(moves)
    decreases |moves|
  {
    if moves != [] {
      var front, move := moves[..|moves| - 1], moves[|moves| - 1];
      assert moves == front + [move];
      RunFront(IDLE, front, move);
      var c := Run(IDLE, front).value;
      RunAll(IDLE, front, c, move);
      RepliesOwed(front, c);
      hide Run;
    }
  }

  /** The i-th move asked to continue a pause that had been released, and no reply has been sent in a
      pause since. */
  ghost predicate LeftUp(moves: seq<Move>, i: nat) {
    && i < |moves| && moves[i] == Request(ContinueOp)
    && After(IDLE, moves, i).Some? && After(IDLE, moves, i).value.resume == Released
    && forall j :: i < j < |moves| && moves[j] == Replied ==>
      After(IDLE, moves, j).Some? && !InPause(After(IDLE, moves, j).value)
  }

  lemma LeftUpLonger(moves: seq<Move>, move: Move, i: nat)
    requires Run(IDLE, moves).Some? && i < |moves|
    ensures LeftUp(moves + [move], i) <==> LeftUp(moves, i) && (move == Replied ==> !InPause(Run(IDLE, moves).value))
  {
    var more := moves + [move];
    assert more[..|moves|] == moves && forall j :: 0 <= j <= |moves| ==> more[..j] == moves[..j];
    hide Run;
    if LeftUp(more, i) && move == Replied {
      assert more[|moves|] == Replied;
    }
    if LeftUp(more, i) {
      forall j | i < j < |moves| && moves[j] == Replied
        ensures After(IDLE, moves, j).Some? && !InPause(After(IDLE, moves, j).value)
      {
        assert more[j] == Replied;
      }
    }
  }

  /**
    By which requests the flag is up as a pause is about to begin: exactly by a `continue` accepted
    after an earlier pause had been released, before the drive had woken, with no reply sent in a
    pause since.
  */
  lemma {:induction false} FlagUpExactly(moves: seq<Move>, d: Desk)
    requires Run(IDLE, moves) == Some(d)
    ensures d.resume != Held && d.continuing ==> exists i :: LeftUp(moves, i)
    ensures (exists i :: LeftUp(moves, i)) ==> d.continuing
    decreases |moves|
  {
    if moves != [] {
      var front, move := moves[..|moves| - 1], moves[|moves| - 1];
      assert moves == front + [move];
      RunFront(IDLE, front, move);
      var c := Run(IDLE, front).value;
      RunAll(IDLE, front, c, move);
      FlagUpExactly(front, c);
      hide Run, LeftUp;
      forall i: nat | i < |front| ensures LeftUp(moves, i) <==> LeftUp(front, i) && (move == Replied ==> !InPause(c)) {
        LeftUpLonger(front, move, i);
      }
      LastLeftUp(front, move, c);
      forall i: nat | LeftUp(moves, i) ensures i < |moves| {
        LeftUpBound(moves, i);
      }
    }
  }

  lemma LeftUpBound(moves: seq<Move>, i: nat)
    requires LeftUp(moves, i)
    ensures i < |moves|
  {
  }

  lemma LastLeftUp(front: seq<Move>, move: Move, c: Desk)
    requires Run(IDLE, front) == Some(c)
    ensures LeftUp(front + [move], |front|) <==> move == Request(ContinueOp) && c.resume == Released
  {
    assert (front + [move])[..|front|] == front;
  }

  predicate OnlyClients(moves: seq<Move>) {
    forall m :: m in moves ==> !m.PauseBegins? && !m.PauseEnds?
  }

  /** A `continue` is never lost while its pause lasts: the next reply to anybody lets the drive go on. */
  lemma {:induction false} ContinueIsKept(d: Desk, moves: seq<Move>, e: Desk)
    requires InPause(d) && (d.continuing || d.resume == Released)
    requires OnlyClients(moves) && Run(d, moves) == Some(e)
    ensures InPause(e) && (e.continuing || e.resume == Released)
    ensures Replied in moves ==> e.resume == Released
    decreases |moves|
  {
    if moves != [] {
      assert moves[0] in moves;
      assert forall m :: m in moves[1..] ==> m in moves;
      var next := Make(d, moves[0]);
      ContinueIsKept(next, moves[1..], e);
      if moves[0].Replied? {
        ReleasedStays(next, moves[1..], e);
      }
    }
  }

  lemma {:induction false} ReleasedStays(d: Desk, moves: seq<Move>, e: Desk)
    requires d.resume == Released && OnlyClients(moves) && Run(d, moves) == Some(e)
    ensures e.resume == Released
    decreases |moves|
  {
    if moves != [] {
      assert moves[0] in moves;
      assert forall m :: m in moves[1..] ==> m in moves;
      ReleasedStays(Make(d, moves[0]), moves[1..], e);
    }
  }

  // ── the desk beside the scheduler ─────────────────────────────────

  /** The two together; `byHand` counts the phases sent by hand that are under way. */
  datatype Room = Room(desk: Desk, s: State, byHand: nat)

  /**
    `Go` is a step of the scheduler but the end of a pause, which is `Resumes`, once the event is set;
    `Client` one of a client, a `run` accepted by `handle` being under way until its `HandEnds`.
  */
  datatype Event = Go(step: Step) | Resumes | Client(move: Move) | HandEnds

  ghost function Opened(cfg: Config): Room {
    Room(IDLE, Initial(cfg), 0)
  }

  predicate Can(room: Room, e: Event) {
    match e
    case Go(step) => !step.Continue? && Enabled(room.s, step)
    case Resumes => Enabled(room.s, Continue) && Possible(room.desk, PauseEnds)
    case Client(move) => !move.PauseBegins? && !move.PauseEnds? && Possible(room.desk, move)
    case HandEnds => room.byHand > 0
  }

  /** The drive calls `pause` as a turn comes to hold. */
  function Follow(desk: Desk, before: Stage, after: Stage): Desk {
    if after == Stage.Holding && before != Stage.Holding then desk.(resume := Held) else desk
  }

  ghost function Happens(cfg: Config, room: Room, e: Event): Room
    requires Can(room, e)
  {
    match e
    case Go(step) =>
      var t := Apply(cfg, room.s, step);
      Room(Follow(room.desk, room.s.stage, t.stage), t, room.byHand)
    case Resumes =>
      var t := Apply(cfg, room.s, Continue);
      Room(Follow(Make(room.desk, PauseEnds), Waiting, t.stage), t, room.byHand)
    case Client(move) =>
      var sent := move == Request(RunOp) && InPause(room.desk);
      Room(Make(room.desk, move), room.s, if sent then room.byHand + 1 else room.byHand)
    case HandEnds => room.(byHand := room.byHand - 1)
  }

  ghost function Live(cfg: Config, room: Room, events: seq<Event>): Option<Room>
    decreases |events|
  {
    if events == [] then Some(room)
    else if Can(room, events[0]) then Live(cfg, Happens(cfg, room, events[0]), events[1..])
    else None
  }

  ghost predicate InStep(room: Room) {
    InPause(room.desk) <==> room.s.stage == Stage.Holding
  }

  lemma EventKeepsInStep(cfg: Config, room: Room, e: Event)
    requires NodesKnown(cfg) && Inv(cfg, room.s) && InStep(room) && Can(room, e)
    ensures var later := Happens(cfg, room, e); Inv(cfg, later.s) && InStep(later)
  {
    match e
    case Go(step) =>
      StepKeeps(cfg, room.s, step);
      if room.s.stage == Stage.Holding {
        TaskKeepsStage(cfg, room.s, step);
      }
      hide Inv, Apply;
    case Resumes =>
      StepKeeps(cfg, room.s, Continue);
      hide Inv, Apply;
    case Client(move) => hide Inv;
    case HandEnds => hide Inv;
  }

  lemma TaskKeepsStage(cfg: Config, s: State, step: Step)
    requires Enabled(s, step) && s.stage == Stage.Holding && !step.Continue?
    ensures Apply(cfg, s, step).stage == Stage.Holding
  {
  }

  lemma {:induction false} LiveKeeps(cfg: Config, room: Room, events: seq<Event>, later: Room)
    requires NodesKnown(cfg) && Inv(cfg, room.s) && InStep(room) && Live(cfg, room, events) == Some(later)
    ensures Inv(cfg, later.s) && InStep(later)
    decreases |events|
  {
    if events != [] {
      EventKeepsInStep(cfg, room, events[0]);
      hide Inv, InStep, Happens, Can;
      LiveKeeps(cfg, Happens(cfg, room, events[0]), events[1..], later);
    }
  }

  /** In every reachable state the controller is paused exactly if the scheduler holds. */
  lemma PausedIsHolding(cfg: Config, events: seq<Event>, room: Room)
    requires WellFormed(cfg) && Live(cfg, Opened(cfg), events) == Some(room)
    ensures InPause(room.desk) <==> room.s.stage == Stage.Holding
  {
    InitialInv(cfg);
    LiveKeeps(cfg, Opened(cfg), events, room);
  }

  /** Everything that may be using a guest: the scheduler's tasks, and what was sent by hand. */
  function UnderWay(room: Room): nat {
    |room.s.running| + room.byHand
  }

  /**
    What is accepted by hand is accepted with nothing of the schedule under way: no task, no guest
    held, no phase running. So nothing at all is, unless a `run` sent by hand before still is. `room.s`
    has the schedule's own entries; such a `run` adds its own to the session's states and holders
    (session.py:633-635), and with none under way the session has just these.
  */
  lemma AcceptedMeansQuiet(cfg: Config, events: seq<Event>, room: Room, op: Op)
    requires WellFormed(cfg) && Live(cfg, Opened(cfg), events) == Some(room)
    requires Accepts(op, InPause(room.desk)) && !op.StateOp?
    ensures room.s.running == map[] && room.s.holders == map[]
    ensures forall n :: n in room.s.state ==> !room.s.state[n].Running?
    ensures UnderWay(room) == room.byHand
  {
    InitialInv(cfg);
    LiveKeeps(cfg, Opened(cfg), events, room);
    hide Live, WellFormed, Exclusive;
  }

  /** And that is no idle exception: in any pause a client's `run` is accepted, and then another's `exec`
      beside it. */
  lemma ExecBesideARunByHand(cfg: Config, events: seq<Event>, room: Room)
    requires WellFormed(cfg) && Live(cfg, Opened(cfg), events) == Some(room) && InPause(room.desk)
    ensures Can(room, Client(Request(RunOp)))
    ensures var beside := Happens(cfg, room, Client(Request(RunOp)));
      && Accepts(ExecOp, InPause(beside.desk)) && UnderWay(beside) > 0
      && Can(beside, HandEnds) && Happens(cfg, beside, HandEnds).byHand == room.byHand
  {
  }

  /** What happens to the two together happens to the desk as its moves, and to the scheduler as its steps. */
  lemma {:induction false} RoomRuns(cfg: Config, room: Room, events: seq<Event>, later: Room)
    returns (moves: seq<Move>, steps: seq<Step>)
    requires NodesKnown(cfg) && Inv(cfg, room.s) && InStep(room) && Live(cfg, room, events) == Some(later)
    ensures Run(room.desk, moves) == Some(later.desk) && Execute(cfg, room.s, steps) == Some(later.s)
    decreases |events|
  {
    if events == [] {
      moves, steps := [], [];
    } else {
      var e, next := events[0], Happens(cfg, room, events[0]);
      EventKeepsInStep(cfg, room, e);
      var first, ran := EventRuns(cfg, room, e);
      hide Inv, InStep, Happens, Can;
      moves, steps := RoomRuns(cfg, next, events[1..], later);
      RunConcat(room.desk, first, next.desk, moves);
      ExecuteConcat(cfg, room.s, ran, next.s, steps);
      moves, steps := first + moves, ran + steps;
    }
  }

  lemma {:induction false} RunConcat(d: Desk, a: seq<Move>, e: Desk, b: seq<Move>)
    requires Run(d, a) == Some(e)
    ensures Run(d, a + b) == Run(e, b)
    decreases |a|
  {
    if a == [] {
      assert a + b == b;
    } else {
      assert (a + b)[0] == a[0] && (a + b)[1..] == a[1..] + b;
      RunConcat(Make(d, a[0]), a[1..], e, b);
    }
  }

  lemma OneMove(d: Desk, move: Move)
    requires Possible(d, move)
    ensures Run(d, [move]) == Some(Make(d, move))
  {
    assert [move][1..] == [];
  }

  lemma EventRuns(cfg: Config, room: Room, e: Event) returns (moves: seq<Move>, steps: seq<Step>)
    requires InStep(room) && Can(room, e)
    ensures var later := Happens(cfg, room, e);
      Run(room.desk, moves) == Some(later.desk) && Execute(cfg, room.s, steps) == Some(later.s)
  {
    var later := Happens(cfg, room, e);
    moves, steps := [], [];
    match e
    case Go(step) =>
      steps := [step];
      ExecuteOne(cfg, room.s, step);
      hide Execute, Apply;
      if later.desk != room.desk {
        moves := [PauseBegins];
        OneMove(room.desk, PauseBegins);
      }
    case Resumes =>
      steps := [Continue];
      ExecuteOne(cfg, room.s, Continue);
      hide Execute, Apply;
      var free := Make(room.desk, PauseEnds);
      moves := [PauseEnds];
      OneMove(room.desk, PauseEnds);
      if later.desk != free {
        OneMove(free, PauseBegins);
        RunConcat(room.desk, [PauseEnds], free, [PauseBegins]);
        moves := [PauseEnds] + [PauseBegins];
      }
    case Client(move) =>
      moves := [move];
      OneMove(room.desk, move);
    case HandEnds =>
  }

  /** The controller's own fields, and the methods that write them. */
  class Controller {
    var resume: Resume
    var continuing: bool
    ghost var replying: nat

    ghost function View(): Desk
      reads this
    {
      Desk(resume, continuing, replying)
    }

    constructor ()
      ensures View() == Desk(NoPause, false, 0)
    {
      resume, continuing, replying := NoPause, false, 0;
    }

    /** The first half of `pause`, up to its wait. */
    method BeginPause()
      requires Possible(View(), PauseBegins)
      modifies this
      ensures View() == Make(old(View()), PauseBegins)
    {
      resume := Held;
    }

    /** The second half, once the event is set. */
    method EndPause()
      requires Possible(View(), PauseEnds)
      modifies this
      ensures View() == Make(old(View()), PauseEnds)
    {
      resume := NoPause;
    }

    method Handle(op: Op) returns (ok: bool)
      modifies this
      ensures View() == Make(old(View()), Request(op))
      ensures ok <==> op.StateOp? || !old(resume).NoPause?
      ensures continuing == (old(continuing) || (op.ContinueOp? && !old(resume).NoPause?))
      ensures ok == Accepts(op, old(InPause(View())))
    {
      replying := replying + 1;
      if op.StateOp? {
        return true;
      }
      if resume.NoPause? {
        return false;
      }
      if op.ContinueOp? {
        continuing := true;
      }
      return true;
    }

    /** The end of `_client`, after its reply was sent. */
    method Answered()
      requires Possible(View(), Replied)
      modifies this
      ensures View() == Make(old(View()), Replied)
    {
      replying := replying - 1;
      if continuing && !resume.NoPause? {
        continuing := false;
        resume := Released;
      }
    }
  }
}
