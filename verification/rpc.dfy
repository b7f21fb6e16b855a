/**
  Two arpyc endpoints that serve and call each other: numbered requests, replies matched to pending
  calls, cancellation and closing (pkgs/uml-runner/uml_runner/arpyc.py:184-302). Every step is what
  an endpoint does between two awaits; the wires are first in, first out.
*/
module Rpc {
  import opened Options
  import opened Boxing

  /** A call's future: nothing yet, a result or an exception, or `EOFError` from `close`. */
  datatype Future = Waiting | Finished(answer: Answer) | Cancelled | Lost

  /** What a service answers, or a reply carries, the result of a call boxed. */
  datatype Answer = Result(value: Value) | Raised(error: Value)

  /** `made` marks a reply no service gave; whoever receives it cannot tell. */
  datatype Message = Request(seqNo: int, package: Value) | Reply(seqNo: int, answer: Answer, made: bool)

  /** A request a service has answered: its number, what the service was given, what it answered. */
  datatype Served = Served(seqNo: int, request: Value, answer: Answer)

  /** A reply as it was received: whether its call was waiting for one then. */
  datatype Heard = Heard(seqNo: int, answer: Answer, made: bool, waiting: bool)

  /**
    An `AsyncConnection`. The call numbered n has the future `futures[n]`. Beside its fields, what it
    was asked to call (`asked`), which calls raised before their request was sent (`raised`), what it
    has answered (`served`), the replies it has received (`heard`), and how many calls there had been
    when it closed.
  */
  datatype Endpoint = Endpoint(
    pending: set<int>,
    futures: seq<Future>,
    closed: bool,
    asked: seq<Value>,
    raised: set<int>,
    served: seq<Served>,
    heard: seq<Heard>,
    atClose: nat)

  /** The endpoint whose turn it is, the other, and what is on its way from and to the first. */
  datatype Net = Net(near: Endpoint, far: Endpoint, out: seq<Message>, back: seq<Message>)

  const FRESH := Endpoint({}, [], false, [], {}, [], [], 0)
  const START := Net(FRESH, FRESH, [], [])

  /**
    `Receive` is one `_serve_one`, in which the service answers `answer` if it is asked something.
    `Resend` sends a reply once more, `Forge` one to no request. `Hangup` is the end of the stream,
    once the peer has closed and all it sent is read.
  */
  datatype Action =
    | Call(request: Value) | Cancel(seqNo: nat) | Receive(reply: Answer) | Close | Hangup
    | Resend(index: nat) | Forge(number: int, content: Answer)

  /** An action of the near endpoint, or of the far one. */
  datatype Step = Near(action: Action) | Far(action: Action)

  function Swap(net: Net): Net {
    Net(net.far, net.near, net.back, net.out)
  }

  /** What a reply carries over brine: a result boxed, an exception as vinegar dumps it. */
  function Carried(answer: Answer): Answer {
    match answer
    case Result(value) => Result(Box(value))
    case Raised(_) => answer
  }

  /** What `set_result` or `set_exception` gets of that; None where `_unbox` raises. */
  function Delivered(answer: Answer): Option<Answer> {
    match answer
    case Result(package) => if Unbox(package).None? then None else Some(Result(Unbox(package).value))
    case Raised(_) => Some(answer)
  }

  /** What the caller is to have of what the service answered. */
  function Meant(answer: Answer): Answer {
    match answer
    case Result(value) => Result(Tupled(value))
    case Raised(_) => answer
  }

  predicate Returnable(answer: Answer) {
    answer.Result? ==> Proper(answer.value) && Boxable(answer.value)
  }

  predicate Enabled(net: Net, action: Action) {
    match action
    case Call(request) => Proper(request)
    case Cancel(n) => n < |net.near.futures| && net.near.futures[n] == Waiting && n !in net.near.raised
    case Receive(answer) => net.back != [] && (answer.Result? ==> Proper(answer.value))
    case Close => true
    case Hangup => net.far.closed && net.back == []
    case Resend(i) => !net.near.closed && i < |net.near.served| && Returnable(net.near.served[i].answer)
    case Forge(_, _) => !net.near.closed
  }

  /** `call`: numbered and pending before anything that can raise. */
  function Called(net: Net, request: Value): Net {
    var n := |net.near.futures|;
    var near := net.near.(pending := net.near.pending + {n}, futures := net.near.futures + [Waiting],
                          asked := net.near.asked + [request]);
    if net.near.closed || !Boxable(request) then
      net.(near := near.(raised := near.raised + {n}))
    else
      net.(near := near, out := net.out + [Request(n, Box(request))])
  }

  predicate IsWaiting(e: Endpoint, n: int) {
    n in e.pending && 0 <= n < |e.futures| && e.futures[n] == Waiting
  }

  /**
    A reply is popped from the pending calls, and completes its future if nothing has. Where it cannot
    be unboxed that raises, with the call already popped, and ends the serving.
  */
  function Answered(e: Endpoint, n: int, answer: Answer, made: bool): Endpoint {
    var told := e.(pending := e.pending - {n}, heard := e.heard + [Heard(n, answer, made, IsWaiting(e, n))]);
    if !IsWaiting(e, n) then told
    else if Delivered(answer).Some? then told.(futures := e.futures[n := Finished(Delivered(answer).value)])
    else Closed(told)
  }

  function Given(futures: seq<Future>, pending: set<int>): (r: seq<Future>)
    ensures |r| == |futures|
  {
    seq(|futures|, i requires 0 <= i < |futures| =>
      if i in pending && futures[i] == Waiting then Lost else futures[i])
  }

  /** `close`: every pending future that is not done raises `EOFError`. */
  function Closed(e: Endpoint): Endpoint {
    if e.closed then e
    else e.(closed := true, futures := Given(e.futures, e.pending), pending := {}, atClose := |e.futures|)
  }

  function Refusal(answer: Answer): Answer {
    match answer
    case Result(value) => Raised(value)
    case Raised(_) => answer
  }

  /** `_serve_one` with a request: what the service answers goes back, if it can. A result that brine
      cannot dump raises in the reply, and so ends the serving. A request that cannot be unboxed is
      answered with the exception that raises. */
  function Serve(net: Net, n: int, package: Value, answer: Answer): Net {
    if Unbox(package).None? then
      if net.near.closed then net else net.(out := net.out + [Reply(n, Refusal(answer), false)])
    else
      var near := net.near.(served := net.near.served + [Served(n, Unbox(package).value, answer)]);
      if net.near.closed then net.(near := near)
      else if Returnable(answer) then net.(near := near, out := net.out + [Reply(n, Carried(answer), false)])
      else net.(near := Closed(near))
  }

  function Act(net: Net, action: Action): Net
    requires Enabled(net, action)
  {
    match action
    case Call(request) => Called(net, request)
    case Cancel(n) => net.(near := net.near.(futures := net.near.futures[n := Cancelled]))
    case Receive(answer) =>
      var rest := net.(back := net.back[1..]);
      (match net.back[0]
       case Request(n, package) => Serve(rest, n, package, answer)
       case Reply(n, content, made) => rest.(near := Answered(net.near, n, content, made)))
    case Close => net.(near := Closed(net.near))
    case Hangup => net.(near := Closed(net.near))
    case Resend(i) =>
      var served := net.near.served[i];
      net.(out := net.out + [Reply(served.seqNo, Carried(served.answer), false)])
    case Forge(n, content) => net.(out := net.out + [Reply(n, content, true)])
  }

  function Execute(net: Net, steps: seq<Step>): Option<Net>
    decreases |steps|
  {
    if steps == [] then Some(net)
    else
      match steps[0]
      case Near(action) =>
        if Enabled(net, action) then Execute(Act(net, action), steps[1..]) else None
      case Far(action) =>
        if Enabled(Swap(net), action) then Execute(Swap(Act(Swap(net), action)), steps[1..]) else None
  }

  // ── the invariant, for the calls of one endpoint ──────────────────

  ghost predicate Numbered(futures: seq<Future>, asked: seq<Value>, pending: set<int>, raised: set<int>) {
    && |asked| == |futures|
    && (forall r :: r in asked ==> Proper(r))
    && (forall n :: n in pending || n in raised ==> 0 <= n < |futures|)
  }

  /** Each request on its way is one that was asked. */
  ghost predicate AsksKnown(asks: seq<Message>, asked: seq<Value>) {
    forall m :: m in asks && m.Request? ==> 0 <= m.seqNo < |asked| && m.package == Box(asked[m.seqNo])
  }

  /** And each one served. */
  ghost predicate ServedKnown(served: seq<Served>, asked: seq<Value>) {
    forall s :: s in served ==>
      && 0 <= s.seqNo < |asked| && s.request == Tupled(asked[s.seqNo])
      && (s.answer.Result? ==> Proper(s.answer.value))
  }

  /** Requests are served in the order of their numbers, none twice. */
  ghost predicate InTurn(served: seq<Served>, asks: seq<Message>) {
    && (forall i, j :: 0 <= i < j < |served| ==> served[i].seqNo < served[j].seqNo)
    && (forall i, j :: 0 <= i < j < |asks| && asks[i].Request? && asks[j].Request? ==> asks[i].seqNo < asks[j].seqNo)
    && (forall s, m :: s in served && m in asks && m.Request? ==> s.seqNo < m.seqNo)
  }

  /** The peer has served this number so, and `answer` is what that comes to on the wire. */
  ghost predicate CarriesServed(n: int, answer: Answer, served: seq<Served>) {
    exists s :: s in served && s.seqNo == n && Returnable(s.answer) && answer == Carried(s.answer)
  }

  /** Each reply on its way carries what was served under its number, unless it is made up. */
  ghost predicate TellsKnown(tells: seq<Message>, served: seq<Served>) {
    forall m :: m in tells && m.Reply? && !m.made ==> CarriesServed(m.seqNo, m.answer, served)
  }

  /** And so did each one received. */
  ghost predicate HeardKnown(heard: seq<Heard>, served: seq<Served>) {
    forall h :: h in heard && !h.made ==> CarriesServed(h.seqNo, h.answer, served)
  }

  ghost predicate Carries(n: int, asks: seq<Message>, tells: seq<Message>) {
    || (exists m :: m in asks && m.Request? && m.seqNo == n)
    || (exists m :: m in tells && m.Reply? && m.seqNo == n)
  }

  /** No call waits for nothing. */
  ghost predicate OnTheirWay(futures: seq<Future>, raised: set<int>, asks: seq<Message>, tells: seq<Message>) {
    forall n :: 0 <= n < |futures| && futures[n] == Waiting && n !in raised ==> Carries(n, asks, tells)
  }

  ghost predicate Half(caller: Endpoint, server: Endpoint, asks: seq<Message>, tells: seq<Message>) {
    && Numbered(caller.futures, caller.asked, caller.pending, caller.raised)
    && AsksKnown(asks, caller.asked)
    && ServedKnown(server.served, caller.asked)
    && InTurn(server.served, asks)
    && TellsKnown(tells, server.served)
    && HeardKnown(caller.heard, server.served)
    && (!caller.closed && !server.closed ==> OnTheirWay(caller.futures, caller.raised, asks, tells))
  }

  // ── and for its own books ─────────────────────────────────────────

  /** A reply numbered so was received while the call was waiting. */
  ghost predicate Popped(heard: seq<Heard>, n: int) {
    exists h :: h in heard && h.seqNo == n && h.waiting
  }

  /** And it could not be unboxed. */
  ghost predicate Dropped(heard: seq<Heard>, n: int) {
    exists h :: h in heard && h.seqNo == n && h.waiting && Delivered(h.answer).None?
  }

  /** A call hears one reply while it waits. */
  ghost predicate HeardOnce(heard: seq<Heard>) {
    forall i, j :: 0 <= i < j < |heard| && heard[i].waiting && heard[j].seqNo == heard[i].seqNo ==> !heard[j].waiting
  }

  /** That reply settles it, or leaves it to itself. */
  ghost predicate HeardDone(futures: seq<Future>, pending: set<int>, heard: seq<Heard>) {
    forall h :: h in heard && h.waiting ==>
      && 0 <= h.seqNo < |futures| && h.seqNo !in pending
      && (Delivered(h.answer).Some? ==> futures[h.seqNo] == Finished(Delivered(h.answer).value))
      && (Delivered(h.answer).None? ==> futures[h.seqNo] == Waiting || futures[h.seqNo] == Cancelled)
  }

  ghost predicate FromHeard(futures: seq<Future>, heard: seq<Heard>) {
    forall n :: 0 <= n < |futures| && futures[n].Finished? ==> Popped(heard, n)
  }

  /** While it is open a waiting call is pending, and no reply was dropped. */
  ghost predicate OpenBooks(futures: seq<Future>, pending: set<int>, heard: seq<Heard>) {
    && (forall n :: 0 <= n < |futures| && futures[n] == Waiting ==> n in pending)
    && (forall h :: h in heard && h.waiting ==> Delivered(h.answer).Some?)
  }

  /** Once it is closed only calls made since are pending, each until a reply for it is received. */
  ghost predicate ClosedBooks(
    futures: seq<Future>, pending: set<int>, raised: set<int>, heard: seq<Heard>, atClose: nat)
  {
    && atClose <= |futures|
    && (forall n :: n in pending ==> n >= atClose)
    && (forall n :: 0 <= n < atClose && futures[n] == Waiting ==> Dropped(heard, n))
    && (forall n :: atClose <= n < |futures| ==>
          n in raised && (n in pending ==> futures[n] == Waiting) && (n in pending || Popped(heard, n)))
  }

  ghost predicate Booked(e: Endpoint) {
    && HeardOnce(e.heard)
    && HeardDone(e.futures, e.pending, e.heard)
    && FromHeard(e.futures, e.heard)
    && (!e.closed ==> OpenBooks(e.futures, e.pending, e.heard))
    && (e.closed ==> ClosedBooks(e.futures, e.pending, e.raised, e.heard, e.atClose))
  }

  ghost predicate Inv(net: Net) {
    && Half(net.near, net.far, net.out, net.back) && Half(net.far, net.near, net.back, net.out)
    && Booked(net.near) && Booked(net.far)
  }

  // ── what does not concern these calls keeps it ────────────────────

  lemma InTail<T>(s: seq<T>, x: T)
    requires s != [] && x in s && x != s[0]
    ensures x in s[1..]
  {
  }

  lemma ReplyAskDropped(c: Endpoint, s: Endpoint, asks: seq<Message>, tells: seq<Message>)
    requires Half(c, s, asks, tells) && asks != [] && asks[0].Reply?
    ensures Half(c, s, asks[1..], tells)
  {
    hide Numbered, ServedKnown, TellsKnown, HeardKnown;
    forall n | 0 <= n < |c.futures| && Carries(n, asks, tells) ensures Carries(n, asks[1..], tells) {
      if m :| m in asks && m.Request? && m.seqNo == n {
        InTail(asks, m);
      }
    }
  }

  lemma ReplyAskAdded(c: Endpoint, s: Endpoint, asks: seq<Message>, tells: seq<Message>, m: Message)
    requires Half(c, s, asks, tells) && m.Reply?
    ensures Half(c, s, asks + [m], tells)
  {
    hide Numbered, ServedKnown, TellsKnown, HeardKnown;
    assert forall x :: x in asks ==> x in asks + [m];
    forall n | 0 <= n < |c.futures| && Carries(n, asks, tells) ensures Carries(n, asks + [m], tells) {
    }
  }

  lemma RequestTellDropped(c: Endpoint, s: Endpoint, asks: seq<Message>, tells: seq<Message>)
    requires Half(c, s, asks, tells) && tells != [] && tells[0].Request?
    ensures Half(c, s, asks, tells[1..])
  {
    hide Numbered, ServedKnown, InTurn, AsksKnown, HeardKnown, CarriesServed;
    forall n | 0 <= n < |c.futures| && Carries(n, asks, tells) ensures Carries(n, asks, tells[1..]) {
      if m :| m in tells && m.Reply? && m.seqNo == n {
        InTail(tells, m);
      }
    }
  }

  lemma RequestTellAdded(c: Endpoint, s: Endpoint, asks: seq<Message>, tells: seq<Message>, m: Message)
    requires Half(c, s, asks, tells) && m.Request?
    ensures Half(c, s, asks, tells + [m])
  {
    hide Numbered, ServedKnown, InTurn, AsksKnown, HeardKnown, CarriesServed;
    assert forall x :: x in tells ==> x in tells + [m];
    forall n | 0 <= n < |c.futures| && Carries(n, asks, tells) ensures Carries(n, asks, tells + [m]) {
    }
  }

  /** The endpoints may differ in what this half does not speak of. */
  lemma SameHalf(c: Endpoint, d: Endpoint, s: Endpoint, t: Endpoint, asks: seq<Message>, tells: seq<Message>)
    requires Half(c, s, asks, tells)
    requires c.pending == d.pending && c.futures == d.futures && c.closed == d.closed && c.asked == d.asked
    requires c.raised == d.raised && c.heard == d.heard
    requires s.served == t.served && (s.closed ==> t.closed)
    ensures Half(d, t, asks, tells)
  {
    hide Numbered, ServedKnown, InTurn, AsksKnown, HeardKnown, TellsKnown, OnTheirWay;
  }

  lemma CallerCloses(c: Endpoint, s: Endpoint, asks: seq<Message>, tells: seq<Message>)
    requires Half(c, s, asks, tells)
    ensures Half(Closed(c), s, asks, tells)
  {
    hide ServedKnown, InTurn, AsksKnown, TellsKnown, HeardKnown, OnTheirWay;
  }

  // ── each action keeps it, for the calls of the one who acts ───────

  lemma AskAdded(served: seq<Served>, asks: seq<Message>, asked: seq<Value>, request: Value)
    requires ServedKnown(served, asked) && InTurn(served, asks) && AsksKnown(asks, asked)
    ensures var more := asks + [Request(|asked|, Box(request))];
      InTurn(served, more) && AsksKnown(more, asked + [request])
  {
    hide Tupled, Box, Proper;
    var more := asks + [Request(|asked|, Box(request))];
    assert forall m :: m in more ==> m in asks || m == more[|asks|];
    assert forall i :: 0 <= i < |asks| ==> more[i] == asks[i] && asks[i] in asks;
  }

  lemma FutureAdded(e: Endpoint, request: Value, raised: set<int>)
    requires Numbered(e.futures, e.asked, e.pending, e.raised) && Proper(request)
    requires raised == e.raised || raised == e.raised + {|e.futures|}
    ensures Numbered(e.futures + [Waiting], e.asked + [request], e.pending + {|e.futures|}, raised)
  {
    hide Proper;
  }

  lemma RequestAdded(futures: seq<Future>, raised: set<int>, asks: seq<Message>, tells: seq<Message>, request: Value)
    requires OnTheirWay(futures, raised, asks, tells)
    ensures OnTheirWay(futures + [Waiting], raised, asks + [Request(|futures|, Box(request))], tells)
    ensures OnTheirWay(futures + [Waiting], raised + {|futures|}, asks, tells)
  {
    hide Box;
    var last := Request(|futures|, Box(request));
    var more := asks + [last];
    assert more[|asks|] == last && forall m :: m in asks ==> m in more;
    forall k | 0 <= k < |futures| && Carries(k, asks, tells) ensures Carries(k, more, tells) {
    }
  }

  lemma CallKeepsCalls(net: Net, request: Value)
    requires Half(net.near, net.far, net.out, net.back) && Proper(request)
    ensures var next := Called(net, request); Half(next.near, next.far, next.out, next.back)
  {
    var next := Called(net, request);
    AskAdded(net.far.served, net.out, net.near.asked, request);
    FutureAdded(net.near, request, next.near.raised);
    if !net.near.closed && !net.far.closed {
      RequestAdded(net.near.futures, net.near.raised, net.out, net.back, request);
    }
    AsksKnownLonger(net.out, net.near.asked, request);
    ServedKnownLonger(net.far.served, net.near.asked, request);
    hide Box, Boxable, Proper, TellsKnown, InTurn, AsksKnown, ServedKnown, HeardKnown, OnTheirWay;
  }

  lemma AsksKnownLonger(asks: seq<Message>, asked: seq<Value>, request: Value)
    requires AsksKnown(asks, asked)
    ensures AsksKnown(asks, asked + [request])
  {
  }

  lemma ServedKnownLonger(served: seq<Served>, asked: seq<Value>, request: Value)
    requires ServedKnown(served, asked)
    ensures ServedKnown(served, asked + [request])
  {
  }

  lemma CancelKeepsCalls(net: Net, n: nat)
    requires Half(net.near, net.far, net.out, net.back) && Enabled(net, Cancel(n))
    ensures var next := Act(net, Cancel(n)); Half(next.near, next.far, next.out, next.back)
  {
    hide ServedKnown, InTurn, AsksKnown, TellsKnown, HeardKnown, Carries;
  }

  lemma CarriedIsDelivered(answer: Answer)
    requires Returnable(answer)
    ensures Delivered(Carried(answer)) == Some(Meant(answer))
  {
    if answer.Result? {
      RoundTrip(answer.value);
    }
  }

  lemma HeardAdded(heard: seq<Heard>, served: seq<Served>, h: Heard)
    requires HeardKnown(heard, served) && (!h.made ==> CarriesServed(h.seqNo, h.answer, served))
    ensures HeardKnown(heard + [h], served)
  {
    hide CarriesServed;
  }

  lemma ReplyKeepsCalls(c: Endpoint, s: Endpoint, asks: seq<Message>, tells: seq<Message>)
    requires Half(c, s, asks, tells) && tells != [] && tells[0].Reply?
    requires !c.closed ==> OpenBooks(c.futures, c.pending, c.heard)
    ensures Half(Answered(c, tells[0].seqNo, tells[0].answer, tells[0].made), s, asks, tells[1..])
  {
    var Reply(n, answer, made) := tells[0];
    var d := Answered(c, n, answer, made);
    assert tells[0] in tells;
    HeardAdded(c.heard, s.served, Heard(n, answer, made, IsWaiting(c, n)));
    assert d.heard == c.heard + [Heard(n, answer, made, IsWaiting(c, n))];
    hide HeardKnown, ServedKnown, InTurn, AsksKnown, CarriesServed, Delivered;
    assert Numbered(d.futures, d.asked, d.pending, d.raised);
    forall k | 0 <= k < |d.futures| && d.futures[k] == Waiting && k != n && Carries(k, asks, tells)
      ensures Carries(k, asks, tells[1..])
    {
      if m :| m in tells && m.Reply? && m.seqNo == k {
        InTail(tells, m);
      }
    }
  }

  // ── and for the calls of the other ────────────────────────────────

  lemma ReplyTellAdded(c: Endpoint, s: Endpoint, asks: seq<Message>, tells: seq<Message>, m: Message)
    requires Half(c, s, asks, tells) && m.Reply? && (!m.made ==> CarriesServed(m.seqNo, m.answer, s.served))
    ensures Half(c, s, asks, tells + [m])
  {
    hide Numbered, ServedKnown, InTurn, AsksKnown, HeardKnown, CarriesServed;
    assert forall x :: x in tells ==> x in tells + [m];
    forall n | 0 <= n < |c.futures| && Carries(n, asks, tells) ensures Carries(n, asks, tells + [m]) {
    }
  }

  /** The service has answered the first request on its way: everything but the reply. */
  lemma ServedKeepsAnswers(
    c: Endpoint, s: Endpoint, asks: seq<Message>, tells: seq<Message>, answer: Answer, t: Endpoint)
    requires Half(c, s, asks, tells) && asks != [] && asks[0].Request? && (answer.Result? ==> Proper(answer.value))
    requires t.served == s.served + [Served(asks[0].seqNo, Tupled(c.asked[asks[0].seqNo]), answer)]
    ensures ServedKnown(t.served, c.asked) && InTurn(t.served, asks[1..]) && AsksKnown(asks[1..], c.asked)
    ensures TellsKnown(tells, t.served) && HeardKnown(c.heard, t.served)
  {
    hide Numbered, OnTheirWay, Carried, Returnable, Proper, Tupled, Box;
    assert forall x :: x in s.served ==> x in t.served;
    assert asks[0] in asks;
    assert forall m :: m in asks[1..] ==> m in asks;
  }

  /** The reply joins the requests and replies on their way to the caller. */
  lemma ServeKeepsAnswers(net: Net, answer: Answer)
    requires Half(net.far, net.near, net.back, net.out) && net.back != [] && net.back[0].Request?
    requires answer.Result? ==> Proper(answer.value)
    ensures var Request(n, package) := net.back[0];
      var next := Serve(net.(back := net.back[1..]), n, package, answer);
      Half(next.far, next.near, next.back, next.out)
  {
    var Request(n, package) := net.back[0];
    var next := Serve(net.(back := net.back[1..]), n, package, answer);
    assert net.back[0] in net.back;
    RoundTrip(net.far.asked[n]);
    ServedKeepsAnswers(net.far, net.near, net.back, net.out, answer, next.near);
    if next.out != net.out {
      var reply := Reply(n, Carried(answer), false);
      assert next.out == net.out + [reply] && next.out[|net.out|] == reply;
      assert next.near.served[|net.near.served|].answer == answer;
      assert CarriesServed(n, Carried(answer), next.near.served);
      hide Numbered, ServedKnown, InTurn, AsksKnown, HeardKnown, CarriesServed, Box, Unbox, Tupled;
      assert forall m :: m in net.out ==> m in next.out;
      forall k | 0 <= k < |net.far.futures| && Carries(k, net.back, net.out)
        ensures Carries(k, next.back, next.out)
      {
        if m :| m in net.back && m.Request? && m.seqNo == k {
          if m == net.back[0] {
            assert reply in next.out;
          } else {
            InTail(net.back, m);
          }
        }
      }
    }
  }

  lemma ServeKeepsCalls(net: Net, answer: Answer)
    requires Half(net.near, net.far, net.out, net.back) && net.back != [] && net.back[0].Request?
    ensures var Request(n, package) := net.back[0];
      var next := Serve(net.(back := net.back[1..]), n, package, answer);
      Half(next.near, next.far, next.out, next.back)
  {
    var Request(n, package) := net.back[0];
    var next := Serve(net.(back := net.back[1..]), n, package, answer);
    RequestTellDropped(net.near, net.far, net.out, net.back);
    hide Half, Unbox, Boxable, Proper, Box;
    if Unbox(package).Some? {
      var near := net.near.(served := net.near.served + [Served(n, Unbox(package).value, answer)]);
      SameHalf(net.near, near, net.far, net.far, net.out, net.back[1..]);
      if !near.closed && Returnable(answer) {
        ReplyAskAdded(near, net.far, net.out, net.back[1..], Reply(n, Carried(answer), false));
      } else if !near.closed {
        CallerCloses(near, net.far, net.out, net.back[1..]);
      }
    } else if !net.near.closed {
      ReplyAskAdded(net.near, net.far, net.out, net.back[1..], Reply(n, Refusal(answer), false));
    }
  }

  lemma ActKeepsCalls(net: Net, action: Action)
    requires Inv(net) && Enabled(net, action)
    ensures var next := Act(net, action); Half(next.near, next.far, next.out, next.back)
  {
    hide Half, Serve, Called, Closed, Answered, Delivered, Carried;
    match action
    case Call(request) => CallKeepsCalls(net, request);
    case Cancel(n) => CancelKeepsCalls(net, n);
    case Receive(answer) =>
      if net.back[0].Request? {
        ServeKeepsCalls(net, answer);
      } else {
        ReplyKeepsCalls(net.near, net.far, net.out, net.back);
      }
    case Close => CallerCloses(net.near, net.far, net.out, net.back);
    case Hangup => CallerCloses(net.near, net.far, net.out, net.back);
    case Resend(i) =>
      var served := net.near.served[i];
      ReplyAskAdded(net.near, net.far, net.out, net.back, Reply(served.seqNo, Carried(served.answer), false));
    case Forge(n, content) => ReplyAskAdded(net.near, net.far, net.out, net.back, Reply(n, content, true));
  }

  lemma ResendKeepsAnswers(net: Net, i: nat)
    requires Half(net.far, net.near, net.back, net.out) && Enabled(net, Resend(i))
    ensures var next := Act(net, Resend(i)); Half(next.far, next.near, next.back, next.out)
  {
    var served := net.near.served[i];
    hide Half, Delivered, Carried, Returnable;
    assert served in net.near.served && CarriesServed(served.seqNo, Carried(served.answer), net.near.served);
    ReplyTellAdded(net.far, net.near, net.back, net.out, Reply(served.seqNo, Carried(served.answer), false));
  }

  lemma ActKeepsAnswers(net: Net, action: Action)
    requires Inv(net) && Enabled(net, action)
    ensures var next := Act(net, action); Half(next.far, next.near, next.back, next.out)
  {
    hide Half, Serve, Delivered, Carried;
    match action
    case Call(request) =>
      var next := Called(net, request);
      SameHalf(net.far, net.far, net.near, next.near, net.back, net.out);
      if next.out != net.out {
        RequestTellAdded(net.far, next.near, net.back, net.out, Request(|net.near.futures|, Box(request)));
      }
    case Cancel(n) => SameHalf(net.far, net.far, net.near, Act(net, action).near, net.back, net.out);
    case Receive(answer) =>
      if net.back[0].Request? {
        ServeKeepsAnswers(net, answer);
      } else {
        ReplyAskDropped(net.far, net.near, net.back, net.out);
        SameHalf(net.far, net.far, net.near, Act(net, action).near, net.back[1..], net.out);
      }
    case Close => SameHalf(net.far, net.far, net.near, Closed(net.near), net.back, net.out);
    case Hangup => SameHalf(net.far, net.far, net.near, Closed(net.near), net.back, net.out);
    case Resend(i) => ResendKeepsAnswers(net, i);
    case Forge(n, content) => ReplyTellAdded(net.far, net.near, net.back, net.out, Reply(n, content, true));
  }

  // ── and each keeps its own books ──────────────────────────────────

  lemma CallKeepsBooks(net: Net, request: Value)
    requires Booked(net.near)
    ensures Booked(Called(net, request).near)
  {
    hide Boxable, Delivered;
  }

  lemma CancelKeepsBooks(net: Net, n: nat)
    requires Booked(net.near) && Enabled(net, Cancel(n))
    ensures Booked(Act(net, Cancel(n)).near)
  {
    hide Delivered;
  }

  /** An endpoint closes, every waiting call pending or its reply dropped. */
  lemma CloseKeepsBooks(e: Endpoint)
    requires HeardOnce(e.heard) && HeardDone(e.futures, e.pending, e.heard)
    requires FromHeard(e.futures, e.heard) && !e.closed
    requires forall n :: 0 <= n < |e.futures| && e.futures[n] == Waiting ==> n in e.pending || Dropped(e.heard, n)
    ensures Booked(Closed(e))
  {
    hide Delivered, HeardOnce;
  }

  lemma HeardKeepsBooks(e: Endpoint, h: Heard)
    requires Booked(e) && h.waiting == IsWaiting(e, h.seqNo)
    ensures HeardOnce(e.heard + [h])
    ensures h.waiting ==> Popped(e.heard + [h], h.seqNo)
    ensures h.waiting && Delivered(h.answer).None? ==> Dropped(e.heard + [h], h.seqNo)
    ensures forall n :: Popped(e.heard, n) ==> Popped(e.heard + [h], n)
    ensures forall n :: Dropped(e.heard, n) ==> Dropped(e.heard + [h], n)
  {
    hide Delivered;
    var more := e.heard + [h];
    assert more[|e.heard|] == h && forall x :: x in e.heard ==> x in more;
  }

  lemma AnswerKeepsBooks(e: Endpoint, n: int, answer: Answer, made: bool)
    requires Booked(e)
    ensures Booked(Answered(e, n, answer, made))
  {
    hide HeardOnce, Popped, Dropped, Delivered;
    var h := Heard(n, answer, made, IsWaiting(e, n));
    HeardKeepsBooks(e, h);
    var told := e.(pending := e.pending - {n}, heard := e.heard + [h]);
    assert forall x :: x in told.heard <==> x in e.heard || x == h;
    if h.waiting && Delivered(answer).None? {
      if !e.closed {
        CloseKeepsBooks(told);
      }
    }
  }

  lemma ActKeepsBooks(net: Net, action: Action)
    requires Booked(net.near) && Enabled(net, action)
    ensures Booked(Act(net, action).near) && Act(net, action).far == net.far
  {
    match action
    case Call(request) =>
      CallKeepsBooks(net, request);
      hide Booked, Boxable;
    case Cancel(n) =>
      CancelKeepsBooks(net, n);
      hide Booked;
    case Receive(answer) =>
      if net.back[0].Request? {
        ServeKeepsBooks(net.(back := net.back[1..]), net.back[0].seqNo, net.back[0].package, answer);
      } else {
        AnswerKeepsBooks(net.near, net.back[0].seqNo, net.back[0].answer, net.back[0].made);
      }
      hide Booked, Serve, Answered;
    case Close =>
      if !net.near.closed { CloseKeepsBooks(net.near); }
      hide Booked;
    case Hangup =>
      if !net.near.closed { CloseKeepsBooks(net.near); }
      hide Booked;
    case Resend(i) => hide Booked;
    case Forge(n, content) => hide Booked;
  }

  lemma ServeKeepsBooks(net: Net, n: int, package: Value, answer: Answer)
    requires Booked(net.near)
    ensures Booked(Serve(net, n, package, answer).near)
  {
    if Unbox(package).Some? && !net.near.closed {
      CloseKeepsBooks(net.near.(served := net.near.served + [Served(n, Unbox(package).value, answer)]));
    }
    hide Unbox, Boxable, Proper, Delivered, Carried, Returnable;
  }

  lemma {:induction false} RunKeeps(net: Net, steps: seq<Step>, last: Net)
    requires Inv(net) && Execute(net, steps) == Some(last)
    ensures Inv(last)
    decreases |steps|
  {
    hide Half, Booked, Act, Enabled;
    if steps != [] {
      match steps[0]
      case Near(action) =>
        ActKeepsCalls(net, action);
        ActKeepsAnswers(net, action);
        ActKeepsBooks(net, action);
        RunKeeps(Act(net, action), steps[1..], last);
      case Far(action) =>
        var swapped := Swap(net);
        ActKeepsCalls(swapped, action);
        ActKeepsAnswers(swapped, action);
        ActKeepsBooks(swapped, action);
        RunKeeps(Swap(Act(swapped, action)), steps[1..], last);
    }
  }

  // ── what that means ───────────────────────────────────────────────

  /**
    The call finished with what the peer's service answered to its own request: it was given that
    request, lists as tuples, this once, and the caller has its answer, lists as tuples, or its
    exception.
  */
  ghost predicate OwnAnswer(caller: Endpoint, server: Endpoint, n: nat)
    requires n < |caller.futures| && caller.futures[n].Finished? && n < |caller.asked|
  {
    exists i :: 0 <= i < |server.served|
      && server.served[i].seqNo == n
      && server.served[i].request == Tupled(caller.asked[n])
      && caller.futures[n].answer == Meant(server.served[i].answer)
      && forall j :: 0 <= j < |server.served| && server.served[j].seqNo == n ==> j == i
  }

  /** The one reply received for call n while it waited, as far as the log goes. */
  ghost predicate HeardBy(e: Endpoint, n: int, i: nat) {
    && i < |e.heard| && e.heard[i].seqNo == n && e.heard[i].waiting
    && forall j :: 0 <= j < |e.heard| && e.heard[j].seqNo == n && e.heard[j].waiting ==> j == i
  }

  /** The first reply to come while the call was waiting was made up. */
  ghost predicate Deceived(e: Endpoint, n: int) {
    exists h :: h in e.heard && h.seqNo == n && h.waiting && h.made
  }

  /** A finished call heard one reply while it waited, and has what that said: what somebody made up,
      if it was deceived, and otherwise the answer to its own request. */
  ghost predicate AnsweredRight(caller: Endpoint, server: Endpoint, n: nat)
    requires n < |caller.futures| && caller.futures[n].Finished? && n < |caller.asked|
  {
    && (exists i: nat :: HeardBy(caller, n, i) && Delivered(caller.heard[i].answer) == Some(caller.futures[n].answer)
                         && (caller.heard[i].made <==> Deceived(caller, n)))
    && (!Deceived(caller, n) ==> OwnAnswer(caller, server, n))
  }

  ghost predicate OwnAnswers(caller: Endpoint, server: Endpoint) {
    && |caller.asked| == |caller.futures|
    && forall n :: 0 <= n < |caller.futures| && caller.futures[n].Finished? ==> AnsweredRight(caller, server, n)
  }

  lemma HeardOnlyOnce(e: Endpoint, n: int) returns (i: nat)
    requires HeardOnce(e.heard) && Popped(e.heard, n)
    ensures HeardBy(e, n, i)
  {
    var h :| h in e.heard && h.seqNo == n && h.waiting;
    i :| 0 <= i < |e.heard| && e.heard[i] == h;
  }

  /** What the peer has served is what the call asked, and was served once. */
  lemma ServedIsOwn(caller: Endpoint, server: Endpoint, asks: seq<Message>, tells: seq<Message>, n: nat,
      carried: Answer)
    requires Half(caller, server, asks, tells) && n < |caller.futures| && caller.futures[n].Finished?
    requires CarriesServed(n, carried, server.served) && Delivered(carried) == Some(caller.futures[n].answer)
    ensures n < |caller.asked| && OwnAnswer(caller, server, n)
  {
    var s :| s in server.served && s.seqNo == n && Returnable(s.answer) && carried == Carried(s.answer);
    CarriedIsDelivered(s.answer);
    hide AsksKnown, TellsKnown, HeardKnown, OnTheirWay, Meant, Carried, Delivered, Returnable;
    var i :| 0 <= i < |server.served| && server.served[i] == s;
  }

  lemma BooksMeanOwn(caller: Endpoint, server: Endpoint, asks: seq<Message>, tells: seq<Message>)
    requires Half(caller, server, asks, tells) && Booked(caller)
    ensures OwnAnswers(caller, server)
  {
    forall n | 0 <= n < |caller.futures| && caller.futures[n].Finished?
      ensures n < |caller.asked| && AnsweredRight(caller, server, n)
    {
      var i := HeardOnlyOnce(caller, n);
      var h := caller.heard[i];
      assert h in caller.heard;
      assert h.made <==> Deceived(caller, n);
      if !h.made {
        ServedIsOwn(caller, server, asks, tells, n, h.answer);
      }
    }
    hide AnsweredRight;
  }

  /**
    Whatever is called, cancelled, closed, sent again or made up, in whatever order: a finished call
    has the answer to its own request, unless the one reply it heard while it waited was made up, and
    then what that said; and no service is given a request twice, or out of turn.
  */
  lemma EachItsOwnAnswer(steps: seq<Step>, net: Net)
    requires Execute(START, steps) == Some(net)
    ensures OwnAnswers(net.near, net.far) && OwnAnswers(net.far, net.near)
    ensures forall i, j :: 0 <= i < j < |net.far.served| ==> net.far.served[i].seqNo < net.far.served[j].seqNo
    ensures forall i, j :: 0 <= i < j < |net.near.served| ==> net.near.served[i].seqNo < net.near.served[j].seqNo
  {
    RunKeeps(START, steps, net);
    BooksMeanOwn(net.near, net.far, net.out, net.back);
    BooksMeanOwn(net.far, net.near, net.back, net.out);
    hide OwnAnswers;
  }

  /** A call is numbered and pending, and its request goes out exactly if the endpoint is open and brine
      can carry it; else it raises. */
  lemma SentExactly(net: Net, request: Value)
    requires Proper(request)
    ensures var next, n, sends := Called(net, request), |net.near.futures|, !net.near.closed && Dumpable(Box(request));
      && next.near.futures == net.near.futures + [Waiting] && n in next.near.pending
      && next.out == net.out + (if sends then [Request(n, Box(request))] else [])
      && next.near.raised == net.near.raised + (if sends then {} else {n})
  {
    BoxDumpable(request);
    hide Box, Dumpable, Boxable, Proper;
  }

  /** A request that can be unboxed closes an open endpoint exactly if brine cannot carry what the service
      returned; else one reply goes out, under its number. One that cannot be unboxed is answered too. */
  lemma ServedExactly(net: Net, n: int, package: Value, answer: Answer)
    requires !net.near.closed && (answer.Result? ==> Proper(answer.value))
    ensures var next, refused := Serve(net, n, package, answer), answer.Result? && !Dumpable(Box(answer.value));
      && (next.near.closed <==> Unbox(package).Some? && refused)
      && next.out == net.out + (
           if Unbox(package).None? then [Reply(n, Refusal(answer), false)]
           else if refused then []
           else [Reply(n, if answer.Result? then Result(Box(answer.value)) else answer, false)])
    ensures Refusal(answer).Raised?
  {
    if answer.Result? {
      BoxDumpable(answer.value);
    }
    hide Box, Unbox, Dumpable, Boxable, Proper;
  }

  /** One step from one state to the next. */
  ghost predicate Leads(net: Net, step: Step, next: Net) {
    match step
    case Near(action) => Enabled(net, action) && Act(net, action) == next
    case Far(action) => Enabled(Swap(net), action) && Swap(Act(Swap(net), action)) == next
  }

  lemma ThenRuns(net: Net, step: Step, next: Net, rest: seq<Step>, last: Net)
    requires Leads(net, step, next) && Execute(next, rest) == Some(last)
    ensures Execute(net, [step] + rest) == Some(last)
  {
    hide Act, Enabled;
    assert ([step] + rest)[1..] == rest;
  }

  lemma TwoRuns(net: Net, a: Step, one: Net, b: Step, last: Net)
    requires Leads(net, a, one) && Leads(one, b, last)
    ensures Execute(net, [a, b]) == Some(last)
  {
    assert Execute(last, []) == Some(last);
    hide Leads, Execute;
    ThenRuns(one, b, last, [], last);
    assert [b] + [] == [b] && [a, b] == [a] + [b];
    ThenRuns(net, a, one, [b], last);
  }

  lemma ThreeRuns(net: Net, a: Step, one: Net, b: Step, two: Net, c: Step, last: Net)
    requires Leads(net, a, one) && Leads(one, b, two) && Leads(two, c, last)
    ensures Execute(net, [a, b, c]) == Some(last)
  {
    hide Leads, Execute;
    TwoRuns(one, b, two, c, last);
    assert [a, b, c] == [a] + [b, c];
    ThenRuns(net, a, one, [b, c], last);
  }

  lemma FourRuns(net: Net, a: Step, one: Net, b: Step, two: Net, c: Step, three: Net, d: Step, last: Net)
    requires Leads(net, a, one) && Leads(one, b, two) && Leads(two, c, three) && Leads(three, d, last)
    ensures Execute(net, [a, b, c, d]) == Some(last)
  {
    hide Leads, Execute;
    ThreeRuns(one, b, two, c, three, d, last);
    assert [a, b, c, d] == [a] + [b, c, d];
    ThenRuns(net, a, one, [b, c, d], last);
  }

  /** Two open endpoints with nothing under way. */
  ghost predicate Idle(net: Net) {
    !net.near.closed && !net.far.closed && net.out == net.back == []
  }

  /** What brine carries of an answer is all of it. */
  ghost predicate CanCarry(request: Value, answer: Answer) {
    && Proper(request) && Dumpable(Box(request))
    && (answer.Result? ==> Proper(answer.value) && Dumpable(Box(answer.value)))
  }

  /** A call that can be sent is under way. */
  lemma CallGoesOut(net: Net, request: Value) returns (next: Net)
    requires Idle(net) && Proper(request) && Dumpable(Box(request))
    ensures Leads(net, Near(Call(request)), next) && next.far == net.far && next.back == []
    ensures next.out == [Request(|net.near.futures|, Box(request))] && !next.near.closed
    ensures next.near.futures == net.near.futures + [Waiting] && |net.near.futures| in next.near.pending
    ensures next.near.raised == net.near.raised
  {
    SentExactly(net, request);
    hide Box, Dumpable, Boxable, Proper;
    next := Act(net, Call(request));
  }

  /** A request that can be answered is answered. */
  lemma CallIsServed(net: Net, n: int, request: Value, answer: Answer) returns (next: Net, reply: Answer)
    requires !net.far.closed && net.out == [Request(n, Box(request))] && CanCarry(request, answer)
    ensures Leads(net, Far(Receive(answer)), next) && next.near == net.near && next.out == []
    ensures next.back == net.back + [Reply(n, reply, false)] && !next.far.closed
    ensures next.far.served == net.far.served + [Served(n, Tupled(request), answer)]
    ensures reply == if answer.Result? then Result(Box(answer.value)) else answer
    ensures Delivered(reply) == Some(if answer.Result? then Result(Tupled(answer.value)) else answer)
  {
    RoundTrip(request);
    if answer.Result? {
      RoundTrip(answer.value);
    }
    hide Box, Unbox, Dumpable, Boxable, Proper, Tupled;
    reply := if answer.Result? then Result(Box(answer.value)) else answer;
    var asked := Swap(net);
    assert asked.back[1..] == [];
    ServedExactly(asked.(back := []), n, Box(request), answer);
    next := Swap(Act(asked, Receive(answer)));
  }

  /** A reply to a waiting call ends it. */
  lemma ReplyArrives(net: Net, n: nat, reply: Answer, given: Answer) returns (next: Net)
    requires net.back != [] && net.back[0] == Reply(n, reply, false) && Delivered(reply).Some?
    requires given.Result? ==> Proper(given.value)
    ensures Leads(net, Near(Receive(given)), next) && next.far == net.far && next.out == net.out
    ensures next.back == net.back[1..] && next.near.closed == net.near.closed
    ensures next.near.futures ==
      if n in net.near.pending && n < |net.near.futures| && net.near.futures[n] == Waiting
      then net.near.futures[n := Finished(Delivered(reply).value)] else net.near.futures
    ensures n !in next.near.pending
  {
    hide Delivered, Proper;
    next := Act(net, Receive(given));
  }

  /** A call whose answer can be carried ends with what the service said, and both endpoints stay open. */
  lemma CallComesBack(net: Net, request: Value, answer: Answer)
    requires Idle(net)
    requires Proper(request) && Dumpable(Box(request))
    requires answer.Result? ==> Proper(answer.value) && Dumpable(Box(answer.value))
    ensures var last := Execute(net, [Near(Call(request)), Far(Receive(answer)), Near(Receive(answer))]);
      && last.Some? && Idle(last.value)
      && last.value.near.futures == net.near.futures
           + [Finished(if answer.Result? then Result(Tupled(answer.value)) else answer)]
      && last.value.far.served == net.far.served + [Served(|net.near.futures|, Tupled(request), answer)]
  {
    hide Box, Unbox, Dumpable, Boxable, Proper, Tupled, Leads, Execute, Delivered;
    var n := |net.near.futures|;
    var one := CallGoesOut(net, request);
    var two, reply := CallIsServed(one, n, request, answer);
    assert two.back == [Reply(n, reply, false)] && two.back[1..] == [];
    var last := ReplyArrives(two, n, reply, answer);
    ThreeRuns(net, Near(Call(request)), one, Far(Receive(answer)), two, Near(Receive(answer)), last);
    assert last.near.futures == net.near.futures + [Finished(Delivered(reply).value)];
  }

  lemma CallIsCancelled(net: Net, n: nat) returns (next: Net)
    requires n < |net.near.futures| && net.near.futures[n] == Waiting && n !in net.near.raised
    ensures Leads(net, Near(Cancel(n)), next) && next.far == net.far && next.out == net.out && next.back == net.back
    ensures next.near == net.near.(futures := net.near.futures[n := Cancelled])
  {
    next := Act(net, Cancel(n));
  }

  /** A call that was cancelled stays cancelled, and its answer is dropped when it comes. */
  lemma CancelledStays(net: Net, request: Value, answer: Answer) returns (last: Net)
    requires Idle(net) && CanCarry(request, answer) && |net.near.futures| !in net.near.raised
    ensures Execute(net, [Near(Call(request)), Near(Cancel(|net.near.futures|)),
                          Far(Receive(answer)), Near(Receive(answer))]) == Some(last)
    ensures Idle(last) && last.near.futures == net.near.futures + [Cancelled]
  {
    var n := |net.near.futures|;
    var one := CallGoesOut(net, request);
    var two := CallIsCancelled(one, n);
    assert two.near.futures == net.near.futures + [Cancelled];
    hide Box, Unbox, Dumpable, Boxable, Proper, Tupled, Leads, Execute, Delivered, Act;
    var three, reply := CallIsServed(two, n, request, answer);
    assert three.back == [Reply(n, reply, false)] && three.back[1..] == [];
    last := ReplyArrives(three, n, reply, answer);
    FourRuns(net, Near(Call(request)), one, Near(Cancel(n)), two, Far(Receive(answer)), three,
             Near(Receive(answer)), last);
  }

  lemma TwiceArrived(net: Net, n: nat, reply: Answer, given: Answer) returns (one: Net, two: Net)
    requires net.back == [Reply(n, reply, false), Reply(n, reply, false)] && Delivered(reply).Some?
    requires given.Result? ==> Proper(given.value)
    requires n in net.near.pending && n < |net.near.futures| && net.near.futures[n] == Waiting
    ensures Leads(net, Near(Receive(given)), one) && Leads(one, Near(Receive(given)), two)
    ensures two.far == net.far && two.out == net.out && two.back == [] && two.near.closed == net.near.closed
    ensures two.near.futures == net.near.futures[n := Finished(Delivered(reply).value)]
  {
    hide Leads, Delivered, Proper;
    one := ReplyArrives(net, n, reply, given);
    two := ReplyArrives(one, n, reply, given);
  }

  /** An answer sent twice ends its call once. */
  lemma ResentIsDropped(net: Net, request: Value, answer: Answer) returns (last: Net)
    requires Idle(net) && CanCarry(request, answer)
    ensures Execute(net, [Near(Call(request)), Far(Receive(answer)), Far(Resend(|net.far.served|)),
                          Near(Receive(answer)), Near(Receive(answer))]) == Some(last)
    ensures Idle(last) && last.near.futures
      == net.near.futures + [Finished(if answer.Result? then Result(Tupled(answer.value)) else answer)]
  {
    var n, i := |net.near.futures|, |net.far.served|;
    var one := CallGoesOut(net, request);
    var two, reply := CallIsServed(one, n, request, answer);
    hide Box, Unbox, Dumpable, Boxable, Proper, Tupled, Leads, Execute, Delivered, Act;
    var three := ServedAgain(two, n, i, reply);
    var four;
    four, last := TwiceArrived(three, n, reply, answer);
    var receive, resend := Near(Receive(answer)), Far(Resend(i));
    FourRuns(one, Far(Receive(answer)), two, resend, three, receive, four, receive, last);
    ThenRuns(net, Near(Call(request)), one, [Far(Receive(answer)), resend, receive, receive], last);
    assert [Near(Call(request))] + [Far(Receive(answer)), resend, receive, receive]
        == [Near(Call(request)), Far(Receive(answer)), resend, receive, receive];
    assert last.near.futures == net.near.futures + [Finished(Delivered(reply).value)];
  }

  lemma ServedAgain(net: Net, n: int, i: nat, reply: Answer) returns (next: Net)
    requires !net.far.closed && i < |net.far.served| && net.back == [Reply(n, reply, false)] && net.out == []
    requires var s := net.far.served[i];
      && s.seqNo == n && reply == (if s.answer.Result? then Result(Box(s.answer.value)) else s.answer)
      && (s.answer.Result? ==> Proper(s.answer.value) && Dumpable(Box(s.answer.value)))
    ensures Leads(net, Far(Resend(i)), next) && next.near == net.near && next.out == [] && next.far == net.far
    ensures next.back == [Reply(n, reply, false), Reply(n, reply, false)]
  {
    var s := net.far.served[i];
    if s.answer.Result? {
      BoxDumpable(s.answer.value);
    }
    hide Box, Dumpable, Boxable, Proper;
    next := Swap(Act(Swap(net), Resend(i)));
  }

  /** A peer that closes before it has answered loses the call, once all it had sent is read. */
  lemma HangupLosesCall(net: Net, request: Value) returns (last: Net)
    requires Idle(net) && Proper(request) && Dumpable(Box(request))
    ensures Execute(net, [Near(Call(request)), Far(Close), Near(Hangup)]) == Some(last)
    ensures last.near.closed && |last.near.futures| == |net.near.futures| + 1
    ensures last.near.futures[|net.near.futures|] == Lost && last.near.pending == {}
  {
    var one := CallGoesOut(net, request);
    var two := Swap(Act(Swap(one), Close));
    last := Act(two, Hangup);
    assert Leads(one, Far(Close), two) && Leads(two, Near(Hangup), last);
    hide Leads, Execute, Act;
    ThreeRuns(net, Near(Call(request)), one, Far(Close), two, Near(Hangup), last);
  }

  /** A reply to no waiting call, made up or not, touches no future and closes nothing. */
  lemma UnknownReplyIsDropped(e: Endpoint, n: int, answer: Answer, made: bool)
    requires !IsWaiting(e, n)
    ensures var d := Answered(e, n, answer, made);
      d.futures == e.futures && d.closed == e.closed && d.pending == e.pending - {n}
      && forall k :: IsWaiting(d, k) <==> IsWaiting(e, k)
  {
  }

  /** A made-up reply that finds its call waiting is believed: here it was sent before the call was made. */
  lemma ForgedReplyIsBelieved(request: Value, made: Value)
    requires Proper(request) && Boxable(request)
    ensures var net := Execute(START, [Far(Forge(0, Raised(made))), Near(Call(request)), Near(Receive(Raised(made)))]);
      net.Some? && net.value.near.futures == [Finished(Raised(made))] && net.value.far.served == []
  {
    var forge, call, receive := Forge(0, Raised(made)), Call(request), Receive(Raised(made));
    var one := Swap(Act(Swap(START), forge));
    assert one.back == [Reply(0, Raised(made), true)] && one.near == FRESH;
    var two := Act(one, call);
    assert two.near.futures == [Waiting] && two.near.pending == {0} && two.back == one.back;
    var three := Act(two, receive);
    assert three.near.futures == [Finished(Raised(made))];
    ThreeRuns(START, Far(forge), one, Near(call), two, Near(receive), three);
  }

  /** And one that cannot be unboxed loses it: no longer pending when the endpoint closes, the call is
      not told, and waits for good. */
  lemma UnboxableReplyForgets(request: Value, id: nat)
    requires Proper(request) && Boxable(request)
    ensures var lost := Forge(0, Result(Opaque(id)));
      var net := Execute(START, [Far(lost), Near(Call(request)), Near(Receive(Raised(request)))]);
      net.Some? && net.value.near.closed && net.value.near.futures == [Waiting] && net.value.near.pending == {}
  {
    var forge, call, receive := Forge(0, Result(Opaque(id))), Call(request), Receive(Raised(request));
    var one := Swap(Act(Swap(START), forge));
    assert one.back == [Reply(0, Result(Opaque(id)), true)] && one.near == FRESH;
    var two := Act(one, call);
    assert two.near.futures == [Waiting] && two.near.pending == {0} && two.back == one.back;
    assert Delivered(Result(Opaque(id))).None?;
    var three := Act(two, receive);
    assert three.near.pending == {} && three.near.closed && three.near.futures == [Waiting];
    ThreeRuns(START, Far(forge), one, Near(call), two, Near(receive), three);
  }

  predicate SettledIn(before: seq<Future>, after: seq<Future>) {
    && |before| <= |after|
    && forall n :: 0 <= n < |before| && before[n] != Waiting ==> after[n] == before[n]
  }

  /** No future is completed twice: once done, cancelled ones too, it stays as it is, whatever comes. */
  lemma {:induction false} CompletedOnce(net: Net, steps: seq<Step>, last: Net)
    requires Execute(net, steps) == Some(last)
    ensures |net.near.futures| <= |last.near.futures| && |net.far.futures| <= |last.far.futures|
    ensures forall n :: 0 <= n < |net.near.futures| && !net.near.futures[n].Waiting? ==>
      last.near.futures[n] == net.near.futures[n]
    ensures forall n :: 0 <= n < |net.far.futures| && !net.far.futures[n].Waiting? ==>
      last.far.futures[n] == net.far.futures[n]
    decreases |steps|
  {
    if steps != [] {
      match steps[0]
      case Near(action) =>
        ActCompletesOnce(net, action);
        hide Act, Enabled;
        CompletedOnce(Act(net, action), steps[1..], last);
      case Far(action) =>
        ActCompletesOnce(Swap(net), action);
        hide Act, Enabled;
        CompletedOnce(Swap(Act(Swap(net), action)), steps[1..], last);
    }
  }

  lemma ActCompletesOnce(net: Net, action: Action)
    requires Enabled(net, action)
    ensures SettledIn(net.near.futures, Act(net, action).near.futures) && Act(net, action).far == net.far
  {
    hide Unbox, Box, Boxable, Proper, Delivered;
  }

  /**
    Every pending call has been numbered. A waiting call is not pending exactly if a reply that could
    not be unboxed was popped for it. And between open endpoints the request or a reply of every
    waiting call is under way, unless the call raised.
  */
  lemma NoneForgotten(steps: seq<Step>, net: Net)
    requires Execute(START, steps) == Some(net)
    ensures forall n :: n in net.near.pending ==> 0 <= n < |net.near.futures|
    ensures forall n :: 0 <= n < |net.near.futures| && net.near.futures[n] == Waiting ==>
      (n !in net.near.pending <==> Dropped(net.near.heard, n))
    ensures !net.near.closed && !net.far.closed ==>
      forall n :: 0 <= n < |net.near.futures| && net.near.futures[n] == Waiting && n !in net.near.raised ==>
        Carries(n, net.out, net.back)
  {
    RunKeeps(START, steps, net);
    BooksMeanDropped(net.near);
    hide Booked, Dropped, Carries;
  }

  lemma BooksMeanDropped(e: Endpoint)
    requires Booked(e)
    ensures forall n :: 0 <= n < |e.futures| && e.futures[n] == Waiting ==> (n !in e.pending <==> Dropped(e.heard, n))
  {
    hide HeardOnce;
  }

  /** Closing empties the map and leaves no future unresolved. */
  lemma CloseResolvesAll(steps: seq<Step>, net: Net)
    requires Execute(START, steps) == Some(net) && !net.near.closed
    ensures var closed := Closed(net.near); closed.pending == {} && forall f :: f in closed.futures ==> f != Waiting
  {
    RunKeeps(START, steps, net);
    hide HeardOnce, HeardDone, FromHeard;
  }

  /**
    On a closed connection, after whatever has come since, a call is waiting exactly if it was made
    after the closing and no reply for it has been received, or a reply that could not be unboxed was
    popped for it and nobody has cancelled it.
  */
  lemma WaitingOnceClosed(steps: seq<Step>, net: Net, n: nat)
    requires Execute(START, steps) == Some(net) && net.near.closed && n < |net.near.futures|
    ensures net.near.futures[n] == Waiting <==>
      || (n >= net.near.atClose && !Popped(net.near.heard, n))
      || (Dropped(net.near.heard, n) && net.near.futures[n] != Cancelled)
  {
    RunKeeps(START, steps, net);
    BooksMeanDropped(net.near);
    hide HeardOnce, FromHeard;
  }

  /** An endpoint stays closed, with as many calls made before. */
  lemma {:induction false} StaysClosed(net: Net, steps: seq<Step>, last: Net)
    requires Execute(net, steps) == Some(last)
    ensures net.near.closed ==> last.near.closed && last.near.atClose == net.near.atClose
    ensures net.far.closed ==> last.far.closed && last.far.atClose == net.far.atClose
    decreases |steps|
  {
    if steps != [] {
      match steps[0]
      case Near(action) =>
        ActStaysClosed(net, action);
        hide Act, Enabled;
        StaysClosed(Act(net, action), steps[1..], last);
      case Far(action) =>
        ActStaysClosed(Swap(net), action);
        hide Act, Enabled;
        StaysClosed(Swap(Act(Swap(net), action)), steps[1..], last);
    }
  }

  lemma ActStaysClosed(net: Net, action: Action)
    requires Enabled(net, action)
    ensures var next := Act(net, action);
      next.far == net.far && (net.near.closed ==> next.near.closed && next.near.atClose == net.near.atClose)
  {
    hide Unbox, Box, Boxable, Proper, Delivered;
  }

  /** So a call made on a closed connection waits for good, whatever comes, unless a reply is received
      for it that nobody sent to it: its request was never sent. */
  lemma LateCallStaysPending(steps: seq<Step>, net: Net, request: Value, more: seq<Step>, last: Net)
    requires Execute(START, steps) == Some(net) && net.near.closed && Proper(request)
    requires Execute(Act(net, Call(request)), more) == Some(last)
    ensures var n, e := |net.near.futures|, last.near;
      n < |e.futures| && (!Popped(e.heard, n) ==> e.futures[n] == Waiting && n in e.pending)
  {
    var n, late := |net.near.futures|, Act(net, Call(request));
    RunKeeps(START, steps, net);
    ActKeepsCalls(net, Call(request));
    ActKeepsAnswers(net, Call(request));
    ActKeepsBooks(net, Call(request));
    assert late.near.closed && late.near.atClose <= n < |late.near.futures|;
    hide Half, Act, Booked;
    RunKeeps(late, more, last);
    StaysClosed(late, more, last);
    CompletedOnce(late, more, last);
    LateIsPending(last.near, n);
  }

  lemma LateIsPending(e: Endpoint, n: nat)
    requires Booked(e) && e.closed && e.atClose <= n < |e.futures|
    ensures !Popped(e.heard, n) ==> e.futures[n] == Waiting && n in e.pending
  {
  }

  // ── as an endpoint runs it ────────────────────────────────────────

  class AsyncFuture {
    var state: Future

    constructor ()
      ensures state == Waiting
    {
      state := Waiting;
    }
  }

  class AsyncConnection {
    var nextSeq: nat
    var pending: map<int, AsyncFuture>
    var closed: bool
    /** What it has handed to its channel. */
    var sent: seq<Message>
    /** The future of every call there has been, in the order of their numbers. */
    ghost var calls: seq<AsyncFuture>
    ghost var asked: seq<Value>
    ghost var raised: set<int>
    ghost var served: seq<Served>
    ghost var heard: seq<Heard>
    ghost var atClose: nat

    ghost predicate Valid()
      reads this, calls
    {
      && nextSeq == |calls| == |asked|
      && (forall i, j :: 0 <= i < j < |calls| ==> calls[i] != calls[j])
      && (forall n :: n in pending ==> 0 <= n < |calls| && pending[n] == calls[n])
    }

    ghost function View(): Endpoint
      reads this, calls
    {
      Endpoint(pending.Keys, States(calls), closed, asked, raised, served, heard, atClose)
    }

    static ghost function States(calls: seq<AsyncFuture>): (r: seq<Future>)
      reads calls
      ensures |r| == |calls| && forall i :: 0 <= i < |calls| ==> r[i] == calls[i].state
    {
      seq(|calls|, i requires 0 <= i < |calls| reads calls => calls[i].state)
    }

    constructor ()
      ensures Valid() && View() == FRESH && sent == []
    {
      nextSeq, pending, closed, sent, calls := 0, map[], false, [], [];
      asked, raised, served, heard, atClose := [], {}, [], [], 0;
    }

    /** A number and a future for it, pending. */
    method Register(request: Value) returns (n: nat, future: AsyncFuture)
      requires Valid()
      modifies this
      ensures Valid() && fresh(future) && calls == old(calls) + [future] && n == old(nextSeq)
      ensures sent == old(sent)
      ensures var was := old(View());
        View() == was.(pending := was.pending + {n}, futures := was.futures + [Waiting], asked := was.asked + [request])
    {
      n := nextSeq;
      nextSeq := nextSeq + 1;
      future := new AsyncFuture();
      pending := pending[n := future];
      calls, asked := calls + [future], asked + [request];
      assert States(calls) == old(States(calls)) + [Waiting];
      assert pending.Keys == old(pending).Keys + {n as int};
    }

    /** `call`, up to its await; false where it raises. */
    method Call(request: Value) returns (ok: bool, future: AsyncFuture)
      requires Valid()
      modifies this
      ensures Valid() && fresh(future) && calls == old(calls) + [future]
      ensures var net := Net(old(View()), FRESH, old(sent), []);
        var next := Called(net, request);
        View() == next.near && sent == next.out
      ensures Proper(request) ==> (ok <==> !closed && Dumpable(Box(request)))
      ensures sent == old(sent) + (if ok then [Request(old(nextSeq), Box(request))] else [])
    {
      var n;
      n, future := Register(request);
      BoxDumpable(request);
      hide Boxable, Box, Dumpable;
      ok := !closed && Boxable(request);
      if ok {
        sent := sent + [Request(n, Box(request))];
      } else {
        raised := raised + {n};
      }
    }

    /** `_serve_one` with a reply. */
    method Answer(n: int, answer: Answer, ghost made: bool)
      requires Valid()
      modifies this, calls
      ensures Valid() && calls == old(calls) && sent == old(sent)
      ensures View() == Answered(old(View()), n, answer, made)
    {
      ghost var was := View();
      heard := heard + [Heard(n, answer, made, IsWaiting(was, n))];
      if n !in pending {
        assert was.pending - {n} == was.pending;
        return;
      }
      var future := pending[n];
      pending := pending - {n};
      assert pending.Keys == was.pending - {n};
      if future.state != Waiting {
        return;
      }
      var loaded := Delivered(answer);
      if loaded.None? {
        Close();
        return;
      }
      future.state := Finished(loaded.value);
      assert States(calls) == was.futures[n := Finished(loaded.value)];
    }

    /** `_dispatch`, in which the service answers `answer` if the request can be unboxed. */
    method Dispatch(n: int, package: Value, answer: Answer)
      requires Valid()
      modifies this, calls
      ensures Valid() && calls == old(calls)
      ensures var net := Net(old(View()), FRESH, old(sent), []);
        var next := Serve(net, n, package, answer);
        View() == next.near && sent == next.out
      ensures !old(closed) && (answer.Result? ==> Proper(answer.value)) ==>
        var refused := answer.Result? && !Dumpable(Box(answer.value));
        && (closed <==> Unbox(package).Some? && refused)
        && |sent| == |old(sent)| + (if closed then 0 else 1)
        && (!closed && Unbox(package).Some? ==>
              sent[|old(sent)|] == Reply(n, if answer.Result? then Result(Box(answer.value)) else answer, false))
        && (!closed && Unbox(package).None? ==>
              sent[|old(sent)|].Reply? && sent[|old(sent)|].seqNo == n && sent[|old(sent)|].answer.Raised?)
    {
      if !closed && (answer.Result? ==> Proper(answer.value)) {
        ServedExactly(Net(View(), FRESH, sent, []), n, package, answer);
      }
      hide Unbox, Box, Dumpable, Proper, Boxable;
      var request := Unbox(package);
      if request.None? {
        if !closed {
          sent := sent + [Reply(n, Refusal(answer), false)];
        }
        return;
      }
      served := served + [Served(n, request.value, answer)];
      if !closed {
        if Returnable(answer) {
          sent := sent + [Reply(n, Carried(answer), false)];
        } else {
          Close();
        }
      }
    }

    method Close()
      requires Valid()
      modifies this, calls
      ensures Valid() && calls == old(calls) && sent == old(sent)
      ensures View() == Closed(old(View()))
    {
      if closed {
        return;
      }
      closed, atClose := true, |calls|;
      for n := 0 to nextSeq
        invariant pending == old(pending) && calls == old(calls) && sent == old(sent)
        invariant closed && nextSeq == old(nextSeq) && asked == old(asked) && raised == old(raised)
        invariant served == old(served) && heard == old(heard) && atClose == |calls|
        invariant forall m :: 0 <= m < |calls| && (n <= m || m !in pending) ==> calls[m].state == old(calls[m].state)
        invariant forall m :: 0 <= m < n && m in pending ==>
          calls[m].state == if old(calls[m].state) == Waiting then Lost else old(calls[m].state)
      {
        if n in pending && pending[n].state == Waiting {
          pending[n].state := Lost;
        }
      }
      pending := map[];
      assert States(calls) == Given(old(States(calls)), old(pending).Keys);
    }
  }
}
