/**
  A run's events for whoever watches: the server's backlog and queues
  (pkgs/uml-eval/uml_eval/server.py:208-246, 306-327) and the client that reads them until the
  verdict (pkgs/uml/uml/monitor.py).
*/
module Monitor {
  import opened Options
  import opened Lines

  /** What an event says of the run; `passed` is the text of its field. */
  datatype Event = FinishedEvent(passed: string) | ExitedEvent(text: string) | OtherEvent(name: string, text: string)

  predicate Terminal(e: Event) {
    e.FinishedEvent? || e.ExitedEvent?
  }

  /** 0 for a run that passed, 1 for one that did not, 2 for one that ended without a verdict. */
  function Status(e: Event): Option<int> {
    match e
    case FinishedEvent(passed) => Some(if passed == "true" then 0 else 1)
    case ExitedEvent(_) => Some(2)
    case OtherEvent(_, _) => None
  }

  /** One `_monitor`: its copy of the backlog and how far it is, its queue, what it has sent. */
  datatype Client = Client(backlog: seq<Event>, next: nat, queue: seq<Event>, sent: seq<Event>, closed: bool)

  datatype Feed = Feed(pushed: seq<Event>, clients: map<nat, Client>)

  datatype Step = Push(event: Event) | Connect(id: nat) | Send(id: nat)

  predicate CanSend(c: Client) {
    !c.closed && (c.next < |c.backlog| || c.queue != [])
  }

  predicate Enabled(f: Feed, step: Step) {
    match step
    case Push(_) => true
    case Connect(id) => id !in f.clients
    case Send(id) => id in f.clients && CanSend(f.clients[id])
  }

  function Queued(c: Client, e: Event): Client {
    if c.closed then c else c.(queue := c.queue + [e])
  }

  function Sent(c: Client): Client
    requires CanSend(c)
  {
    if c.next < |c.backlog| then
      var e := c.backlog[c.next];
      c.(next := c.next + 1, sent := c.sent + [e], closed := Terminal(e))
    else
      var e := c.queue[0];
      c.(queue := c.queue[1..], sent := c.sent + [e], closed := Terminal(e))
  }

  function Apply(f: Feed, step: Step): Feed
    requires Enabled(f, step)
  {
    match step
    case Push(e) => Feed(f.pushed + [e], map id | id in f.clients :: Queued(f.clients[id], e))
    case Connect(id) => f.(clients := f.clients[id := Client(f.pushed, 0, [], [], false)])
    case Send(id) => f.(clients := f.clients[id := Sent(f.clients[id])])
  }

  function Execute(f: Feed, steps: seq<Step>): Option<Feed>
    decreases |steps|
  {
    if steps == [] then Some(f)
    else if Enabled(f, steps[0]) then Execute(Apply(f, steps[0]), steps[1..])
    else None
  }

  /** A client that is not done has still to send exactly what it has not sent. */
  ghost predicate InOrder(c: Client, pushed: seq<Event>) {
    && c.next <= |c.backlog|
    && c.sent <= pushed
    && (!c.closed ==> c.sent + (c.backlog[c.next..] + c.queue) == pushed && forall e :: e in c.sent ==> !Terminal(e))
    && (c.closed ==> c.sent != [] && Terminal(c.sent[|c.sent| - 1])
                     && forall i :: 0 <= i < |c.sent| - 1 ==> !Terminal(c.sent[i]))
  }

  ghost predicate AllInOrder(f: Feed) {
    forall id :: id in f.clients ==> InOrder(f.clients[id], f.pushed)
  }

  lemma QueuedInOrder(c: Client, pushed: seq<Event>, e: Event)
    requires InOrder(c, pushed)
    ensures InOrder(Queued(c, e), pushed + [e])
  {
    if !c.closed {
      assert c.sent + (c.backlog[c.next..] + (c.queue + [e])) == (c.sent + (c.backlog[c.next..] + c.queue)) + [e];
    }
  }

  lemma SentInOrder(c: Client, pushed: seq<Event>)
    requires InOrder(c, pushed) && CanSend(c)
    ensures InOrder(Sent(c), pushed)
  {
    var d := Sent(c);
    var todo := c.backlog[c.next..] + c.queue;
    assert todo != [] && d.sent == c.sent + [todo[0]] && d.backlog[d.next..] + d.queue == todo[1..];
    assert (c.sent + [todo[0]]) + todo[1..] == c.sent + todo;
    assert d.sent <= pushed;
  }

  lemma StepKeepsOrder(f: Feed, step: Step)
    requires AllInOrder(f) && Enabled(f, step)
    ensures AllInOrder(Apply(f, step))
  {
    var g := Apply(f, step);
    forall id | id in g.clients ensures InOrder(g.clients[id], g.pushed) {
      match step
      case Push(e) => QueuedInOrder(f.clients[id], f.pushed, e);
      case Connect(new_) =>
        if id == new_ { assert [] + (f.pushed[0..] + []) == f.pushed; }
      case Send(one) =>
        if id == one { SentInOrder(f.clients[id], f.pushed); }
    }
  }

  lemma {:induction false} RunKeepsOrder(f: Feed, steps: seq<Step>, g: Feed)
    requires AllInOrder(f) && Execute(f, steps) == Some(g)
    ensures AllInOrder(g)
    decreases |steps|
  {
    if steps != [] {
      StepKeepsOrder(f, steps[0]);
      RunKeepsOrder(Apply(f, steps[0]), steps[1..], g);
    }
  }

  /**
    Exactly once, in order, to the end: what a client has been sent is how the run's pushes begin;
    it is closed exactly when it has sent a terminal event, which is the first there was; and until
    then whatever has been pushed and not sent can be sent.
  */
  lemma Delivery(steps: seq<Step>, f: Feed, id: nat)
    requires Execute(Feed([], map[]), steps) == Some(f) && id in f.clients
    ensures var c := f.clients[id];
      && c.sent <= f.pushed
      && (forall i :: 0 <= i < |c.sent| - 1 ==> f.pushed[i].OtherEvent?)
      && (c.closed <==> c.sent != [] && !c.sent[|c.sent| - 1].OtherEvent?)
      && (!c.closed && |c.sent| < |f.pushed| <==> Enabled(f, Step.Send(id)))
  {
    RunKeepsOrder(Feed([], map[]), steps, f);
    var c := f.clients[id];
    assert InOrder(c, f.pushed);
    forall i | 0 <= i < |c.sent| - 1 || (!c.closed && i == |c.sent| - 1 >= 0)
      ensures f.pushed[i].OtherEvent? && c.sent[i] == f.pushed[i]
    {
      assert c.sent[i] in c.sent;
    }
    if !c.closed {
      assert |c.sent| + |c.backlog[c.next..]| + |c.queue| == |f.pushed|;
    }
  }

  // ── the client ────────────────────────────────────────────────────

  /** The events read and printed, up to the first verdict, and that verdict's status. */
  function Outcome(decode: Bytes -> Event, lines: seq<Bytes>): (seq<Event>, Option<int>) {
    if lines == [] then ([], None)
    else
      var e := decode(lines[0]);
      if Status(e).Some? then ([e], Status(e))
      else
        var (more, code) := Outcome(decode, lines[1..]);
        ([e] + more, code)
  }

  lemma {:induction false} OutcomeConcat(decode: Bytes -> Event, a: seq<Bytes>, b: seq<Bytes>)
    ensures var (first, code) := Outcome(decode, a);
      Outcome(decode, a + b) ==
        if code.Some? then (first, code) else (first + Outcome(decode, b).0, Outcome(decode, b).1)
    decreases |a|
  {
    if a == [] {
      assert a + b == b;
      var none: seq<Event> := [];
      assert none + Outcome(decode, b).0 == Outcome(decode, b).0;
    } else {
      OutcomeConcat(decode, a[1..], b);
      assert (a + b)[0] == a[0] && (a + b)[1..] == a[1..] + b;
      var (more, code) := Outcome(decode, a[1..]);
      assert ([decode(a[0])] + more) + Outcome(decode, b).0 == [decode(a[0])] + (more + Outcome(decode, b).0);
    }
  }

  /** In their own terms: a line to an event up to the first that ends the run, and the status by that. */
  lemma {:induction false} OutcomeSays(decode: Bytes -> Event, lines: seq<Bytes>)
    ensures var (printed, code) := Outcome(decode, lines);
      && |printed| <= |lines| && (forall j :: 0 <= j < |printed| ==> printed[j] == decode(lines[j]))
      && (forall j :: 0 <= j < |printed| - 1 ==> printed[j].OtherEvent?)
      && StatusOf(printed, code) && (code == None ==> |printed| == |lines|)
    decreases |lines|
  {
    if lines != [] && decode(lines[0]).OtherEvent? {
      OutcomeSays(decode, lines[1..]);
    }
  }

  /** What ended the run, if it is the last event of these, in numbers: 0 passed, 1 did not, 2 broke off. */
  ghost predicate StatusOf(events: seq<Event>, code: Option<int>) {
    && (code == Some(0) <==> events != [] && events[|events| - 1] == FinishedEvent("true"))
    && (code == Some(1) <==>
          events != [] && events[|events| - 1].FinishedEvent? && events[|events| - 1].passed != "true")
    && (code == Some(2) <==> events != [] && events[|events| - 1].ExitedEvent?)
    && (code == None <==> events == [] || events[|events| - 1].OtherEvent?)
  }

  lemma OutcomeOfOne(decode: Bytes -> Event, line: Bytes)
    ensures Outcome(decode, [line]) == ([decode(line)], Status(decode(line)))
  {
    var one, none: seq<Event> := [line], [];
    assert one[1..] == [] && [decode(line)] + none == [decode(line)];
  }

  function Flat(chunks: seq<Bytes>): Bytes {
    if chunks == [] then [] else chunks[0] + Flat(chunks[1..])
  }

  /** The inner loop of `follow`: the lines one read completed, up to a verdict. */
  method Consume(decode: Bytes -> Event, lines: seq<Bytes>) returns (printed: seq<Event>, verdict: Option<int>)
    ensures (printed, verdict) == Outcome(decode, lines)
  {
    printed := [];
    for j := 0 to |lines|
      invariant Outcome(decode, lines[..j]) == (printed, None)
    {
      var event := decode(lines[j]);
      printed := printed + [event];
      ghost var one: seq<Bytes> := [lines[j]];
      assert lines[..j + 1] == lines[..j] + one;
      OutcomeOfOne(decode, lines[j]);
      OutcomeConcat(decode, lines[..j], one);
      verdict := Status(event);
      if verdict.Some? {
        assert lines == lines[..j + 1] + lines[j + 1..];
        OutcomeConcat(decode, lines[..j + 1], lines[j + 1..]);
        return;
      }
    }
    assert lines[..|lines|] == lines;
    verdict := None;
  }

  /** One chunk more: what its lines say comes after what was said, and a verdict in them is the last word. */
  lemma OneChunk(decode: Bytes -> Event, read: Bytes, more: Bytes, later: Bytes, printed: seq<Event>)
    requires Outcome(decode, Complete(read)) == (printed, None)
    ensures var (events, verdict) := Outcome(decode, Complete(Partial(read) + more));
      && Outcome(decode, Complete(read + more)) == (printed + events, verdict)
      && (verdict.Some? ==> Outcome(decode, Complete((read + more) + later)) == (printed + events, verdict))
    ensures Partial(read + more) == Partial(Partial(read) + more)
  {
    hide Complete, Partial, Outcome;
    ReadOn(read, more);
    ReadOn(read + more, later);
    OutcomeConcat(decode, Complete(read), Complete(Partial(read) + more));
    OutcomeConcat(decode, Complete(read + more), Complete(Partial(read + more) + later));
  }

  lemma FlatFrom(chunks: seq<Bytes>, i: nat, read: Bytes)
    requires i < |chunks|
    ensures read + Flat(chunks[i..]) == (read + chunks[i]) + Flat(chunks[i + 1..])
  {
    assert chunks[i..][0] == chunks[i] && chunks[i..][1..] == chunks[i + 1..];
  }

  /** A line to an event up to the first that ends the run; 0, 1 or 2 by that, or 3 where there is none. */
  ghost predicate Answers(decode: Bytes -> Event, lines: seq<Bytes>, printed: seq<Event>, code: int) {
    && |printed| <= |lines| && (forall j :: 0 <= j < |printed| ==> printed[j] == decode(lines[j]))
    && (forall j :: 0 <= j < |printed| - 1 ==> printed[j].OtherEvent?)
    && (code == 0 <==> printed != [] && printed[|printed| - 1] == FinishedEvent("true"))
    && (code == 1 <==>
          printed != [] && printed[|printed| - 1].FinishedEvent? && printed[|printed| - 1].passed != "true")
    && (code == 2 <==> printed != [] && printed[|printed| - 1].ExitedEvent?)
    && (code == 3 <==> printed == [] || printed[|printed| - 1].OtherEvent?)
    && (code == 3 ==> |printed| == |lines|)
  }

  /**
    `follow`: reads chunk by chunk until a verdict, or the stream's end. However the bytes were
    chunked, it prints what their complete lines say, up to the first event that ends the run, and
    answers 0, 1 or 2 by that one; or 3, having printed them all.
  */
  method Follow(decode: Bytes -> Event, chunks: seq<Bytes>) returns (printed: seq<Event>, code: int)
    ensures Answers(decode, Complete(Flat(chunks)), printed, code)
    ensures var (events, status) := Outcome(decode, Complete(Flat(chunks)));
      printed == events && code == if status.Some? then status.value else 3
  {
    var buffer: Bytes := [];
    printed := [];
    ghost var read: Bytes := [];
    assert chunks[0..] == chunks && Outcome(decode, Complete(read)) == (printed, None) && buffer == Partial(read);
    hide Flat, Complete, Partial, Outcome, Answers;
    for i := 0 to |chunks|
      invariant read + Flat(chunks[i..]) == Flat(chunks)
      invariant buffer == Partial(read) && Outcome(decode, Complete(read)) == (printed, None)
    {
      FlatFrom(chunks, i, read);
      OneChunk(decode, read, chunks[i], Flat(chunks[i + 1..]), printed);
      buffer := buffer + chunks[i];
      var events, verdict := Consume(decode, Complete(buffer));
      buffer := Partial(buffer);
      read := read + chunks[i];
      printed := printed + events;
      if verdict.Some? {
        FollowSays(decode, Complete(Flat(chunks)), printed, verdict);
        return printed, verdict.value;
      }
    }
    FlatEnds(chunks, read);
    FollowSays(decode, Complete(Flat(chunks)), printed, None);
    code := 3;
  }

  lemma FollowSays(decode: Bytes -> Event, lines: seq<Bytes>, printed: seq<Event>, status: Option<int>)
    requires Outcome(decode, lines) == (printed, status)
    ensures var code := if status.Some? then status.value else 3; Answers(decode, lines, printed, code)
  {
    OutcomeSays(decode, lines);
    hide Outcome;
  }

  lemma FlatEnds(chunks: seq<Bytes>, read: Bytes)
    ensures read + Flat(chunks[|chunks|..]) == read
  {
  }

  // ── from end to end ───────────────────────────────────────────────

  /** One event to a line, and no newline inside one. */
  ghost predicate LineCodec(encode: Event -> Bytes, decode: Bytes -> Event) {
    forall e :: NEWLINE !in encode(e) && decode(encode(e)) == e
  }

  /** The bytes `_monitor` writes for these events. */
  function Encoded(encode: Event -> Bytes, events: seq<Event>): Bytes {
    if events == [] then [] else encode(events[0]) + ([NEWLINE] + Encoded(encode, events[1..]))
  }

  ghost predicate EndsAtVerdict(events: seq<Event>) {
    forall i :: 0 <= i < |events| - 1 ==> !Terminal(events[i])
  }

  /** The stream may break off anywhere: what is printed is how the events begin, and only the last
      byte of a verdict's line brings its status. */
  lemma {:induction false} OutcomeOfPrefix(
    encode: Event -> Bytes, decode: Bytes -> Event, events: seq<Event>, read: Bytes)
    requires LineCodec(encode, decode) && EndsAtVerdict(events) && read <= Encoded(encode, events)
    ensures var (printed, code) := Outcome(decode, Complete(read));
      && printed <= events
      && (read == Encoded(encode, events) ==> printed == events && StatusOf(events, code))
      && (read != Encoded(encode, events) ==> code == None)
    decreases |events|
  {
    if events != [] {
      var e, rest := events[0], events[1..];
      var text := encode(e);
      if |read| <= |text| {
        WithinLine(text, Encoded(encode, rest), read);
      } else {
        var later := PastLine(text, Encoded(encode, rest), read);
        if Terminal(e) {
          assert rest == [] && events == [e];
        } else {
          OutcomeOfPrefix(encode, decode, rest, later);
          assert events == [e] + rest;
        }
      }
    }
  }

  /** What is read ends inside the first line. */
  lemma WithinLine(text: Bytes, others: Bytes, read: Bytes)
    requires NEWLINE !in text && read <= text + ([NEWLINE] + others) && |read| <= |text|
    ensures Complete(read) == [] && read != text + ([NEWLINE] + others)
  {
    var whole := text + ([NEWLINE] + others);
    assert read == whole[..|read|] == text[..|read|];
    PiecesOfPartial(read);
  }

  /** Or past it. */
  lemma PastLine(text: Bytes, others: Bytes, read: Bytes) returns (later: Bytes)
    requires NEWLINE !in text && read <= text + ([NEWLINE] + others) && |read| > |text|
    ensures later <= others && (later == others <==> read == text + ([NEWLINE] + others))
    ensures Complete(read) == [text] + Complete(later)
    ensures Complete(read)[0] == text && Complete(read)[1..] == Complete(later)
  {
    var whole := text + ([NEWLINE] + others);
    later := read[|text| + 1..];
    assert read == whole[..|read|] == text + ([NEWLINE] + later);
    assert later == others[..|later|];
    PiecesOfLine(text, later);
    hide Pieces;
    assert Complete(read) == [text] + Complete(later);
  }

  /** What its first complete lines say to a client of the run, however much of its stream it read. */
  lemma ReadByClient(
    encode: Event -> Bytes, decode: Bytes -> Event, steps: seq<Step>, f: Feed, id: nat, read: Bytes)
    requires LineCodec(encode, decode)
    requires Execute(Feed([], map[]), steps) == Some(f) && id in f.clients
    requires read <= Encoded(encode, f.clients[id].sent)
    ensures var (printed, code) := Outcome(decode, Complete(read));
      var c := f.clients[id];
      && printed <= f.pushed
      && (code.Some? <==> c.closed && read == Encoded(encode, c.sent))
      && (code.Some? ==> FirstVerdict(f.pushed, printed) && StatusOf(printed, code))
  {
    hide Execute, Outcome, Complete, Encoded, LineCodec;
    Delivery(steps, f, id);
    var c := f.clients[id];
    assert EndsAtVerdict(c.sent) by {
      assert forall i :: 0 <= i < |c.sent| ==> c.sent[i] == f.pushed[i];
    }
    hide EndsAtVerdict;
    OutcomeOfPrefix(encode, decode, c.sent, read);
  }

  /** These are the pushes up to and with the first terminal one. */
  ghost predicate FirstVerdict(pushed: seq<Event>, events: seq<Event>) {
    && events != [] && events <= pushed
    && Terminal(events[|events| - 1]) && EndsAtVerdict(events)
  }

  /** The first event that ends the run is the one at `i`. */
  ghost predicate EndsAt(pushed: seq<Event>, i: int) {
    0 <= i < |pushed| && !pushed[i].OtherEvent? && forall j :: 0 <= j < i ==> pushed[j].OtherEvent?
  }

  /**
    The whole way, for any interleaving of pushes with this and other clients and any chunking of
    what this one is sent, all of it or a part: `uml monitor` prints how the run's pushes begin. If its
    server closed the stream and every byte arrived it prints up to the first push that ends the run,
    and answers 0 if that one says it passed, 1 if it says anything else, 2 if the run broke off. Else
    it answers 3.
  */
  method Watch(
    encode: Event -> Bytes, decode: Bytes -> Event, ghost steps: seq<Step>, ghost f: Feed, ghost id: nat,
    chunks: seq<Bytes>)
    returns (printed: seq<Event>, code: int)
    requires LineCodec(encode, decode)
    requires Execute(Feed([], map[]), steps) == Some(f) && id in f.clients
    requires Flat(chunks) <= Encoded(encode, f.clients[id].sent)
    ensures printed <= f.pushed
    ensures code == 3 <==> !(f.clients[id].closed && Flat(chunks) == Encoded(encode, f.clients[id].sent))
    ensures code != 3 ==> EndsAt(f.pushed, |printed| - 1)
    ensures forall i :: code != 3 && EndsAt(f.pushed, i) ==>
      && (code == 0 <==> f.pushed[i] == FinishedEvent("true"))
      && (code == 1 <==> f.pushed[i].FinishedEvent? && f.pushed[i].passed != "true")
      && (code == 2 <==> f.pushed[i].ExitedEvent?)
  {
    ReadByClient(encode, decode, steps, f, id, Flat(chunks));
    hide Outcome, Complete, Encoded, Flat, Execute;
    printed, code := Follow(decode, chunks);
    forall i | code != 3 && EndsAt(f.pushed, i) ensures i == |printed| - 1 {
      assert forall j :: 0 <= j < |printed| ==> printed[j] == f.pushed[j];
    }
  }

  // ── as the server runs it ─────────────────────────────────────────

  /** One connected monitor, as `_monitor` runs it: a step for each event it sends. */
  class Watcher {
    const backlog: seq<Event>
    var next: nat
    var queue: seq<Event>
    var sent: seq<Event>
    var closed: bool

    constructor (backlog: seq<Event>)
      ensures View() == Client(backlog, 0, [], [], false)
    {
      this.backlog := backlog;
      next, queue, sent, closed := 0, [], [], false;
    }

    ghost function View(): Client
      reads this
    {
      Client(backlog, next, queue, sent, closed)
    }

    method SendNowait(event: Event)
      requires !closed
      modifies this
      ensures View() == Queued(old(View()), event)
    {
      queue := queue + [event];
    }

    method SendNext()
      requires CanSend(View())
      modifies this
      ensures View() == Sent(old(View()))
    {
      var event: Event;
      if next < |backlog| {
        event := backlog[next];
        next := next + 1;
      } else {
        event := queue[0];
        queue := queue[1..];
      }
      sent := sent + [event];
      closed := Terminal(event);
    }
  }

  lemma PushedIs(was: Feed, now: Feed, event: Event)
    requires now.pushed == was.pushed + [event] && now.clients.Keys == was.clients.Keys
    requires forall id :: id in now.clients ==> now.clients[id] == Queued(was.clients[id], event)
    ensures now == Apply(was, Step.Push(event))
  {
    hide Queued;
  }

  lemma SentIs(was: Feed, now: Feed, id: nat)
    requires id in was.clients && CanSend(was.clients[id])
    requires now.pushed == was.pushed && now.clients.Keys == was.clients.Keys
    requires now.clients[id] == Sent(was.clients[id])
    requires forall other :: other in now.clients && other != id ==> now.clients[other] == was.clients[other]
    ensures Enabled(was, Step.Send(id)) && now == Apply(was, Step.Send(id))
  {
    hide CanSend, Sent;
  }

  class Run {
    var backlog: seq<Event>
    var watchers: seq<Watcher>
    /** Every monitor there has been, in the order they connected. */
    ghost var ever: seq<Watcher>

    /** The watchers are the monitors that are not done; `done` may be among them still. */
    ghost predicate ValidBut(done: Watcher?)
      reads this`watchers, this`ever, ever
    {
      && (forall i, j :: 0 <= i < j < |ever| ==> ever[i] != ever[j])
      && (forall i, j :: 0 <= i < j < |watchers| ==> watchers[i] != watchers[j])
      && (forall w :: w in watchers ==> w in ever && (w == done || !w.closed))
      && (forall w :: w in ever && !w.closed ==> w in watchers)
    }

    ghost predicate Valid()
      reads this`watchers, this`ever, ever
    {
      ValidBut(null)
    }

    ghost function View(): Feed
      reads this`backlog, this`ever, ever
    {
      Feed(backlog, map id: nat | id < |ever| :: ever[id].View())
    }

    constructor ()
      ensures Valid() && View() == Feed([], map[])
    {
      backlog, watchers, ever := [], [], [];
    }

    /** To every monitor of the run. */
    method Publish(event: Event)
      requires Valid()
      modifies ever
      ensures Valid()
      ensures forall w :: w in ever ==> w.View() == Queued(old(w.View()), event)
    {
      for i := 0 to |watchers|
        invariant forall j :: 0 <= j < i ==> watchers[j].View() == Queued(old(watchers[j].View()), event)
        invariant forall j :: i <= j < |watchers| ==> watchers[j].View() == old(watchers[j].View())
        invariant forall w :: w in ever && w !in watchers ==> w.View() == old(w.View())
      {
        assert watchers[i] in watchers;
        watchers[i].SendNowait(event);
      }
      forall w | w in ever ensures w.View() == Queued(old(w.View()), event) {
        if w in watchers {
          var j :| 0 <= j < |watchers| && watchers[j] == w;
        }
      }
    }

    method Push(event: Event)
      requires Valid()
      modifies this, ever
      ensures Valid() && ever == old(ever)
      ensures View() == Apply(old(View()), Step.Push(event))
    {
      hide Valid, Queued, Apply, Enabled;
      ghost var was := View();
      backlog := backlog + [event];
      Publish(event);
      ghost var now := View();
      forall id | id in now.clients ensures now.clients[id] == Queued(was.clients[id], event) {
        assert ever[id] in ever;
      }
      PushedIs(was, now, event);
    }

    method Connect() returns (watcher: Watcher)
      requires Valid()
      modifies this
      ensures Valid() && fresh(watcher) && ever == old(ever) + [watcher]
      ensures View() == Apply(old(View()), Step.Connect(|old(ever)|))
    {
      ghost var was := View();
      watcher := new Watcher(backlog);
      watchers := watchers + [watcher];
      ever := ever + [watcher];
      assert View().clients == was.clients[|old(ever)| := watcher.View()];
    }

    /** One more event to this monitor, which leaves the watchers once it has had a terminal one. */
    method Send(watcher: Watcher, ghost id: nat)
      requires Valid() && id < |ever| && ever[id] == watcher && CanSend(watcher.View())
      modifies this, watcher
      ensures Valid() && ever == old(ever)
      ensures View() == Apply(old(View()), Step.Send(id))
    {
      assert !watcher.closed && watcher in watchers;
      hide CanSend, Sent, Apply, Enabled;
      ghost var was := View();
      watcher.SendNext();
      SentIs(was, View(), id);
      if watcher.closed {
        Leave(watcher);
      }
    }

    method Leave(watcher: Watcher)
      requires ValidBut(watcher) && watcher.closed && watcher in watchers
      modifies this`watchers
      ensures Valid()
    {
      watchers := Without(watchers, watcher);
    }

    static method Without(watchers: seq<Watcher>, watcher: Watcher) returns (others: seq<Watcher>)
      requires watcher in watchers
      requires forall i, j :: 0 <= i < j < |watchers| ==> watchers[i] != watchers[j]
      ensures forall i, j :: 0 <= i < j < |others| ==> others[i] != others[j]
      ensures forall w :: w in watchers && w != watcher ==> w in others
      ensures forall w :: w in others ==> w in watchers && w != watcher
    {
      var i := 0;
      while watchers[i] != watcher
        invariant 0 <= i < |watchers| && watcher !in watchers[..i]
        decreases |watchers| - i
      {
        i := i + 1;
      }
      others := watchers[..i] + watchers[i + 1..];
    }
  }
}
