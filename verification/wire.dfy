/**
  rpyc's framing over a byte pipe: four bytes of length, big-endian, one that says whether the
  payload is compressed, the payload, a newline (pkgs/uml-runner/uml_runner/arpyc.py:38-148).
  The kernel takes and hands over bytes in whatever pieces it likes.
*/
module Wire {
  import opened Options
  import opened Lines

  const WORD := 0x1_0000_0000
  const HEADER := 5
  const UNCOMPRESSED: Byte := 0

  function Octet(n: nat): Byte {
    n % 0x100
  }

  /** `struct.pack("!L", n)`. */
  function Pack32(n: nat): (r: Bytes)
    requires n < WORD
    ensures |r| == 4
  {
    [Octet(n / 0x100_0000), Octet(n / 0x1_0000), Octet(n / 0x100), Octet(n)]
  }

  function Unpack32(b: Bytes): (n: nat)
    requires |b| == 4
    ensures n < WORD
  {
    (b[0] as int) * 0x100_0000 + (b[1] as int) * 0x1_0000 + (b[2] as int) * 0x100 + b[3] as int
  }

  lemma UnpackInverts(n: nat)
    requires n < WORD
    ensures Unpack32(Pack32(n)) == n
  {
    var high := n / 0x100;
    var higher := high / 0x100;
    assert n == high * 0x100 + n % 0x100;
    assert high == higher * 0x100 + high % 0x100;
    assert higher == higher / 0x100 * 0x100 + higher % 0x100;
    assert n / 0x1_0000 == higher && n / 0x100_0000 == higher / 0x100;
  }

  function Frame(payload: Bytes): Bytes
    requires |payload| < WORD
  {
    Pack32(|payload|) + [UNCOMPRESSED] + payload + [NEWLINE]
  }

  /** A length its four bytes cannot hold raises `struct.error`, before anything is written. */
  function Framed(payload: Bytes): Option<Bytes> {
    if |payload| < WORD then Some(Frame(payload)) else None
  }

  /** Byte by byte: the length most significant byte first, no compression, the payload, a newline. Only
      what four bytes cannot count is refused. */
  lemma FrameLayout(payload: Bytes)
    ensures Framed(payload).Some? <==> |payload| < 0x1_0000_0000
    ensures Framed(payload).Some? ==>
      var f := Framed(payload).value;
      && |f| == 4 + 1 + |payload| + 1
      && (f[0] as int) * 0x100_0000 + (f[1] as int) * 0x1_0000 + (f[2] as int) * 0x100 + (f[3] as int) == |payload|
      && f[4] == 0 && f[5..5 + |payload|] == payload && f[5 + |payload|] == 10
  {
    if |payload| < WORD {
      UnpackInverts(|payload|);
      assert Frame(payload)[..4] == Pack32(|payload|);
    }
  }

  /** Where a `recv` is: before its header, or after one. */
  datatype Waiting = Header | Body(length: nat, compressed: bool)

  /**
    One direction of a connection: `out` is what the sender's `write` has not handed over yet,
    `pipe` what the kernel holds, `buffer` what the `StreamReader` has been fed.
  */
  datatype Wire = Wire(
    out: Bytes, pipe: Bytes, buffer: Bytes, waiting: Waiting, sent: seq<Bytes>, received: seq<Bytes>)

  const IDLE := Wire([], [], [], Header, [], [])

  /** `Write` is one `os.write` and `Feed` one `_on_readable`; `Read` one `readexactly` of a `recv`. */
  datatype Step = Send(payload: Bytes) | Write(count: nat) | Feed(count: nat) | Read

  /** How many bytes the `recv` waits for: the header, or the payload and its newline. */
  function Wanted(waiting: Waiting): nat {
    match waiting
    case Header => HEADER
    case Body(length, _) => length + 1
  }

  predicate Enabled(w: Wire, step: Step) {
    match step
    case Send(_) => w.out == []
    case Write(n) => 0 < n <= |w.out|
    case Feed(n) => 0 < n <= |w.pipe|
    case Read => Wanted(w.waiting) <= |w.buffer|
  }

  /** The header's or the body's bytes, taken from the front of the buffer. */
  function ReadOne(unzip: Bytes -> Bytes, buffer: Bytes, waiting: Waiting, received: seq<Bytes>)
    : (Bytes, Waiting, seq<Bytes>)
    requires Wanted(waiting) <= |buffer|
  {
    match waiting
    case Header =>
      (buffer[HEADER..], Body(Unpack32(buffer[..4]), buffer[4] != UNCOMPRESSED), received)
    case Body(length, compressed) =>
      var data := buffer[..length];
      (buffer[length + 1..], Header, received + [if compressed then unzip(data) else data])
  }

  function Apply(unzip: Bytes -> Bytes, w: Wire, step: Step): Wire
    requires Enabled(w, step)
  {
    match step
    case Send(payload) =>
      if Framed(payload).None? then w
      else w.(out := Framed(payload).value, sent := w.sent + [payload])
    case Write(n) => w.(out := w.out[n..], pipe := w.pipe + w.out[..n])
    case Feed(n) => w.(pipe := w.pipe[n..], buffer := w.buffer + w.pipe[..n])
    case Read =>
      var (buffer, waiting, received) := ReadOne(unzip, w.buffer, w.waiting, w.received);
      w.(buffer := buffer, waiting := waiting, received := received)
  }

  function Execute(unzip: Bytes -> Bytes, w: Wire, steps: seq<Step>): Option<Wire>
    decreases |steps|
  {
    if steps == [] then Some(w)
    else if Enabled(w, steps[0]) then Execute(unzip, Apply(unzip, w, steps[0]), steps[1..])
    else None
  }

  predicate Sendable(payloads: seq<Bytes>) {
    forall p :: p in payloads ==> |p| < WORD
  }

  function Frames(payloads: seq<Bytes>): Bytes
    requires Sendable(payloads)
  {
    if payloads == [] then [] else Frame(payloads[0]) + Frames(payloads[1..])
  }

  /** These bytes are what is left of `payloads` for a `recv` that is there. */
  ghost predicate Remains(bytes: Bytes, waiting: Waiting, payloads: seq<Bytes>)
    requires Sendable(payloads)
  {
    match waiting
    case Header => bytes == Frames(payloads)
    case Body(length, compressed) =>
      && payloads != [] && length == |payloads[0]| && !compressed
      && bytes == payloads[0] + ([NEWLINE] + Frames(payloads[1..]))
  }

  ghost predicate Sound(w: Wire) {
    && Sendable(w.sent) && w.received <= w.sent
    && Remains(w.buffer + (w.pipe + w.out), w.waiting, w.sent[|w.received|..])
  }

  lemma {:induction false} FramesAppend(payloads: seq<Bytes>, last: Bytes)
    requires Sendable(payloads) && |last| < WORD
    ensures Frames(payloads + [last]) == Frames(payloads) + Frame(last)
    decreases |payloads|
  {
    if payloads == [] {
      var one: seq<Bytes> := [last];
      assert payloads + one == one && one[1..] == [];
      assert Frames(one) == Frame(last) + Frames(one[1..]);
    } else {
      FramesAppend(payloads[1..], last);
      TailOfSum(payloads, [last]);
      hide Frame;
      Associate(Frame(payloads[0]), Frames(payloads[1..]), Frame(last));
    }
  }

  /** Sending adds to what remains to be read, wherever the reader is. */
  lemma RemainsLonger(bytes: Bytes, waiting: Waiting, payloads: seq<Bytes>, last: Bytes)
    requires Sendable(payloads) && |last| < WORD && Remains(bytes, waiting, payloads)
    ensures Remains(bytes + Frame(last), waiting, payloads + [last])
  {
    match waiting
    case Header => FramesAppend(payloads, last);
    case Body(_, _) =>
      FramesAppend(payloads[1..], last);
      TailOfSum(payloads, [last]);
      hide Frame, Frames;
      assert (payloads[0] + ([NEWLINE] + Frames(payloads[1..]))) + Frame(last)
          == payloads[0] + ([NEWLINE] + (Frames(payloads[1..]) + Frame(last)));
  }

  /** A `readexactly` of a header finds the length of the next payload. */
  lemma HeaderRead(buffer: Bytes, later: Bytes, payloads: seq<Bytes>)
    requires Sendable(payloads) && HEADER <= |buffer| && Remains(buffer + later, Header, payloads)
    ensures payloads != [] && buffer[4] == UNCOMPRESSED && Unpack32(buffer[..4]) == |payloads[0]|
    ensures Remains(buffer[HEADER..] + later, Body(|payloads[0]|, false), payloads)
  {
    var p, all := payloads[0], buffer + later;
    var rest := p + ([NEWLINE] + Frames(payloads[1..]));
    UnpackInverts(|p|);
    assert all == (Pack32(|p|) + [UNCOMPRESSED]) + rest;
    assert buffer[..4] == all[..4] == Pack32(|p|) && buffer[4] == all[4];
    assert buffer[HEADER..] + later == all[HEADER..] == rest;
  }

  /** And one of a body finds that payload. */
  lemma BodyRead(buffer: Bytes, later: Bytes, payloads: seq<Bytes>)
    requires Sendable(payloads) && payloads != [] && |payloads[0]| + 1 <= |buffer|
    requires Remains(buffer + later, Body(|payloads[0]|, false), payloads)
    ensures buffer[..|payloads[0]|] == payloads[0]
    ensures Remains(buffer[|payloads[0]| + 1..] + later, Header, payloads[1..])
  {
    var p, all := payloads[0], buffer + later;
    assert buffer[..|p|] == all[..|p|] == p;
    assert buffer[|p| + 1..] + later == all[|p| + 1..] == Frames(payloads[1..]);
  }

  /** What a `recv` leaves to be read after one `readexactly`. */
  function LeftAfter(waiting: Waiting, payloads: seq<Bytes>): seq<Bytes> {
    if waiting == Header || payloads == [] then payloads else payloads[1..]
  }

  lemma ReadRemains(
    unzip: Bytes -> Bytes, buffer: Bytes, waiting: Waiting, received: seq<Bytes>, later: Bytes, payloads: seq<Bytes>)
    requires Sendable(payloads) && Wanted(waiting) <= |buffer| && Remains(buffer + later, waiting, payloads)
    ensures var left := LeftAfter(waiting, payloads);
      var (rest, next, done) := ReadOne(unzip, buffer, waiting, received);
      Sendable(left) && Remains(rest + later, next, left) && done + left == received + payloads && received <= done
  {
    if waiting == Header {
      HeaderRead(buffer, later, payloads);
    } else {
      BodyRead(buffer, later, payloads);
      hide Remains;
      assert [payloads[0]] + payloads[1..] == payloads;
      assert (received + [payloads[0]]) + payloads[1..] == received + ([payloads[0]] + payloads[1..]);
    }
  }

  lemma Shorter(unzip: Bytes -> Bytes, buffer: Bytes, waiting: Waiting, received: seq<Bytes>)
    requires Wanted(waiting) <= |buffer|
    ensures |ReadOne(unzip, buffer, waiting, received).0| < |buffer|
  {
  }

  lemma FramesHaveLength(payloads: seq<Bytes>)
    requires Sendable(payloads)
    ensures payloads != [] ==> |Frames(payloads)| > HEADER
  {
  }

  /** A `recv` that cannot go on has not the whole of what it waits for. */
  lemma QuietMeansDone(bytes: Bytes, waiting: Waiting, payloads: seq<Bytes>)
    requires Sendable(payloads) && Remains(bytes, waiting, payloads) && |bytes| < Wanted(waiting)
    ensures waiting == Header && payloads == [] && bytes == []
  {
    FramesHaveLength(payloads);
  }

  lemma TailSendable(payloads: seq<Bytes>, k: nat)
    requires Sendable(payloads) && k <= |payloads|
    ensures Sendable(payloads[k..])
  {
  }

  lemma OneMoreSendable(payloads: seq<Bytes>, last: Bytes)
    requires Sendable(payloads) && |last| < WORD
    ensures Sendable(payloads + [last])
  {
  }

  lemma SendKeepsSound(unzip: Bytes -> Bytes, w: Wire, payload: Bytes)
    requires Sound(w) && Enabled(w, Send(payload))
    ensures Sound(Apply(unzip, w, Send(payload)))
  {
    hide Frame, Remains, Sendable;
    var v := Apply(unzip, w, Send(payload));
    if |payload| < WORD {
      var todo := w.sent[|w.received|..];
      TailSendable(w.sent, |w.received|);
      OneMoreSendable(w.sent, payload);
      RemainsLonger(w.buffer + (w.pipe + w.out), w.waiting, todo, payload);
      assert todo + [payload] == v.sent[|v.received|..];
      assert (w.buffer + (w.pipe + w.out)) + Frame(payload) == v.buffer + (v.pipe + v.out);
    }
  }

  lemma ReadKeepsSound(unzip: Bytes -> Bytes, w: Wire)
    requires Sound(w) && Enabled(w, Read)
    ensures Sound(Apply(unzip, w, Read))
  {
    hide Remains, ReadOne, Sendable, LeftAfter;
    var todo, v := w.sent[|w.received|..], Apply(unzip, w, Read);
    TailSendable(w.sent, |w.received|);
    ReadRemains(unzip, w.buffer, w.waiting, w.received, w.pipe + w.out, todo);
    var left := LeftAfter(w.waiting, todo);
    assert w.received + todo == w.sent;
    assert left == (v.received + left)[|v.received|..] == w.sent[|v.received|..];
  }

  lemma StepKeepsSound(unzip: Bytes -> Bytes, w: Wire, step: Step)
    requires Sound(w) && Enabled(w, step)
    ensures Sound(Apply(unzip, w, step))
  {
    var v := Apply(unzip, w, step);
    match step
    case Send(payload) => SendKeepsSound(unzip, w, payload);
    case Read => ReadKeepsSound(unzip, w);
    case Write(n) =>
      hide Remains, Sendable;
      assert v.pipe + v.out == w.pipe + w.out;
    case Feed(n) =>
      hide Remains, Sendable;
      assert v.buffer + (v.pipe + v.out) == w.buffer + (w.pipe + w.out);
  }

  lemma {:induction false} RunKeepsSound(unzip: Bytes -> Bytes, w: Wire, steps: seq<Step>, v: Wire)
    requires Sound(w) && Execute(unzip, w, steps) == Some(v)
    ensures Sound(v)
    decreases |steps|
  {
    if steps != [] {
      StepKeepsSound(unzip, w, steps[0]);
      RunKeepsSound(unzip, Apply(unzip, w, steps[0]), steps[1..], v);
    }
  }

  /**
    Any payloads, any partial writes, any chunking, any interleaving: what has been received is how
    what was sent begins, nothing is ever decompressed, and only when all has been received is there
    nothing left for any of the three to do. What no frame can carry is never sent.
  */
  lemma RoundTrip(unzip: Bytes -> Bytes, steps: seq<Step>, w: Wire)
    requires Execute(unzip, IDLE, steps) == Some(w)
    ensures w.received <= w.sent && (w.waiting.Body? ==> !w.waiting.compressed)
    ensures w.received == w.sent <==>
      w.waiting == Header && w.out == [] && w.pipe == [] && !Enabled(w, Read)
    ensures w.received == w.sent ==> w.buffer == []
    ensures forall p :: p in w.sent ==> |p| < WORD
    ensures forall n: nat ::
      (0 < n <= |w.out| <==> Enabled(w, Write(n))) && (0 < n <= |w.pipe| <==> Enabled(w, Feed(n)))
    ensures forall p :: w.out == [] <==> Enabled(w, Send(p))
  {
    RunKeepsSound(unzip, IDLE, steps, w);
    var todo := w.sent[|w.received|..];
    assert w.received == w.sent <==> todo == [];
    if w.out == [] && w.pipe == [] && !Enabled(w, Read) {
      assert w.buffer + (w.pipe + w.out) == w.buffer;
      QuietMeansDone(w.buffer, w.waiting, todo);
    }
  }

  /** And it can always be: all of what was sent can still be received, whatever has happened so far. */
  lemma CanFinish(unzip: Bytes -> Bytes, steps: seq<Step>, w: Wire) returns (more: seq<Step>, v: Wire)
    requires Execute(unzip, IDLE, steps) == Some(w)
    ensures Execute(unzip, w, more) == Some(v) && v.received == v.sent == w.sent
  {
    RunKeepsSound(unzip, IDLE, steps, w);
    more, v := Finish(unzip, w);
  }

  lemma {:induction false} Finish(unzip: Bytes -> Bytes, w: Wire) returns (more: seq<Step>, v: Wire)
    requires Sound(w)
    ensures Execute(unzip, w, more) == Some(v) && v.received == v.sent == w.sent
    decreases 3 * |w.out| + 2 * |w.pipe| + |w.buffer|
  {
    hide Remains, Sendable;
    if w.out == [] && w.pipe == [] && !Enabled(w, Read) {
      more, v := [], w;
      assert w.buffer + (w.pipe + w.out) == w.buffer;
      TailSendable(w.sent, |w.received|);
      QuietMeansDone(w.buffer, w.waiting, w.sent[|w.received|..]);
    } else {
      var step := if w.out != [] then Write(|w.out|) else if w.pipe != [] then Feed(|w.pipe|) else Read;
      var u := Apply(unzip, w, step);
      StepKeepsSound(unzip, w, step);
      if step == Read {
        Shorter(unzip, w.buffer, w.waiting, w.received);
      }
      hide ReadOne, Apply, Enabled, Sound;
      var rest;
      rest, v := Finish(unzip, u);
      more := [step] + rest;
      assert more[1..] == rest;
    }
  }

  /**
    A write that fails with a part of a frame in the pipe leaves the reader out of step for good: it is
    past the beginning of the next frame before it looks for a header again. Broken off in the header,
    the rest of that is taken from the next frame's; broken off later, the next frame is read as the
    rest of the payload.
  */
  lemma OutOfStep(unzip: Bytes -> Bytes, payload: Bytes, n: nat, next: Bytes, later: Bytes)
    requires |payload| < WORD && |next| < WORD && 0 < n < |Frame(payload)|
    ensures var bytes, others := Frame(payload)[..n] + (Frame(next) + later), Frame(next) + later;
      var (rest, waiting, received) := ReadOne(unzip, bytes, Header, []);
      if n < HEADER then
        received == [] && rest == others[HEADER - n..] && |rest| < |others|
      else
        && received == [] && waiting == Body(|payload|, false) && rest == payload[..n - HEADER] + others
        && (|payload| < |rest| ==>
              var (after, _, one) := ReadOne(unzip, rest, waiting, received);
              one == [rest[..|payload|]] && after == others[|payload| + 1 - (n - HEADER)..] && |after| < |others|)
  {
    var others := Frame(next) + later;
    var bytes := Frame(payload)[..n] + others;
    assert |Frame(payload)| == HEADER + |payload| + 1 && |Frame(next)| > HEADER;
    if n < HEADER {
      assert bytes[HEADER..] == others[HEADER - n..];
    } else {
      UnpackInverts(|payload|);
      assert bytes[..4] == Pack32(|payload|) && bytes[4] == UNCOMPRESSED;
      CutFrame(payload, n);
      assert bytes[HEADER..] == payload[..n - HEADER] + others;
      var rest := payload[..n - HEADER] + others;
      if |payload| < |rest| {
        assert rest[|payload| + 1..] == others[|payload| + 1 - (n - HEADER)..];
      }
    }
  }

  lemma CutFrame(payload: Bytes, n: nat)
    requires |payload| < WORD && HEADER <= n < |Frame(payload)|
    ensures Frame(payload)[..n] == (Pack32(|payload|) + [UNCOMPRESSED]) + payload[..n - HEADER]
  {
  }

  // ── as the endpoint runs it ───────────────────────────────────────

  /** How much of so many bytes the first calls take. */
  function Taken(answers: nat -> int, total: nat, calls: nat): (taken: nat)
    ensures taken <= total
  {
    if calls == 0 then 0
    else
      var before := Taken(answers, total, calls - 1);
      if answers(calls - 1) <= 0 then before
      else if answers(calls - 1) > total - before then total
      else before + answers(calls - 1)
  }

  lemma OneMoreTaken(answers: nat -> int, total: nat, calls: nat)
    ensures var before, n := Taken(answers, total, calls), answers(calls);
      Taken(answers, total, calls + 1) ==
        before + (if n <= 0 then 0 else if n > total - before then total - before else n)
  {
  }

  lemma HandedOn(data: Bytes, done: nat, n: nat)
    requires done + n <= |data|
    ensures data[..done] + data[done..][..n] == data[..done + n] && data[done..][n..] == data[done + n..]
  {
  }

  /** The two directions of one fd, seen from one end. */
  class FdStream {
    /** Every byte the kernel has taken. */
    var accepted: Bytes
    /** The `StreamReader`: fed and not yet read. */
    var buffer: Bytes
    var waiting: Waiting
    var received: seq<Bytes>

    constructor ()
      ensures accepted == [] && buffer == [] && waiting == Header && received == []
    {
      accepted, buffer, waiting, received := [], [], Header, [];
    }

    /** `answers(k)` is what the k-th `os.write` answers, if it is offered as much. Each but the last of a
        failing one takes that, or what is left. */
    method Write(data: Bytes, answers: nat -> int) returns (ok: bool, calls: nat)
      modifies `accepted
      ensures ok ==> accepted == old(accepted) + data
      ensures !ok ==> exists n :: 0 <= n < |data| && accepted == old(accepted) + data[..n]
      ensures forall k: nat :: k < calls - (if ok then 0 else 1) ==> answers(k) > 0
      ensures !ok ==> calls > 0 && answers(calls - 1) <= 0
      ensures accepted == old(accepted) + data[..Taken(answers, |data|, calls - (if ok then 0 else 1))]
    {
      var rest := data;
      calls, ok := 0, true;
      ghost var done := 0;
      assert Taken(answers, |data|, 0) == 0;
      hide Taken;
      while rest != []
        invariant ok && 0 <= done <= |data| && rest == data[done..]
        invariant accepted == old(accepted) + data[..done] && done == Taken(answers, |data|, calls)
        invariant forall k: nat :: k < calls ==> answers(k) > 0
        decreases |rest|
      {
        var n := if answers(calls) > |rest| then |rest| else answers(calls);
        OneMoreTaken(answers, |data|, calls);
        calls := calls + 1;
        if n <= 0 {
          return false, calls;
        }
        HandedOn(data, done, n);
        accepted := accepted + rest[..n];
        rest, done := rest[n..], done + n;
      }
      assert data[..done] == data;
    }

    /** `Channel.send`: false where it raises, for a payload too long or a write that failed. */
    method Send(payload: Bytes, answers: nat -> int) returns (ok: bool)
      modifies `accepted
      ensures ok ==> |payload| < WORD && accepted == old(accepted) + Frame(payload)
      ensures |payload| >= WORD ==> accepted == old(accepted)
      ensures !ok && |payload| < WORD ==>
        exists n :: 0 <= n < |Frame(payload)| && accepted == old(accepted) + Frame(payload)[..n]
      ensures |payload| < WORD && (forall k: nat :: answers(k) > 0) ==> ok
    {
      var frame := Framed(payload);
      if frame.None? {
        return false;
      }
      var calls;
      ok, calls := Write(frame.value, answers);
    }

    /** `_on_readable`. */
    method Feed(data: Bytes)
      modifies `buffer
      ensures buffer == old(buffer) + data
    {
      buffer := buffer + data;
    }

    /** One `readexactly` of `Channel.recv`, whose bytes are there. */
    method Read(unzip: Bytes -> Bytes) returns (data: Option<Bytes>)
      requires Wanted(waiting) <= |buffer|
      modifies `buffer, `waiting, `received
      ensures (buffer, waiting, received) == old(ReadOne(unzip, buffer, waiting, received))
      ensures received == old(received) + if data.Some? then [data.value] else []
    {
      if waiting == Header {
        waiting := Body(Unpack32(buffer[..4]), buffer[4] != UNCOMPRESSED);
        buffer := buffer[HEADER..];
        data := None;
      } else {
        var body := buffer[..waiting.length];
        var payload := if waiting.compressed then unzip(body) else body;
        buffer := buffer[waiting.length + 1..];
        received := received + [payload];
        waiting := Header;
        data := Some(payload);
      }
    }
  }

  /** Reads as long as there is enough to read: what an awaiting `recv` does after each chunk. */
  method Receive(stream: FdStream, unzip: Bytes -> Bytes, chunk: Bytes, ghost payloads: seq<Bytes>, ghost later: Bytes)
    requires Sendable(payloads)
    requires Remains(stream.buffer + (chunk + later), stream.waiting, payloads)
    modifies stream
    ensures stream.accepted == old(stream.accepted)
    ensures old(stream.received) <= stream.received && stream.received <= old(stream.received) + payloads
    ensures Remains(stream.buffer + later, stream.waiting,
                    (old(stream.received) + payloads)[|stream.received|..])
    ensures later == [] ==> stream.received == old(stream.received) + payloads
  {
    hide Remains, ReadOne, LeftAfter, Sendable, Wanted;
    ghost var todo, before := payloads, stream.received;
    stream.Feed(chunk);
    assert stream.buffer + later == old(stream.buffer) + (chunk + later);
    while Wanted(stream.waiting) <= |stream.buffer|
      invariant Sendable(todo) && Remains(stream.buffer + later, stream.waiting, todo)
      invariant stream.received + todo == before + payloads && before <= stream.received
      invariant stream.accepted == old(stream.accepted)
      decreases |stream.buffer|
    {
      ReadRemains(unzip, stream.buffer, stream.waiting, stream.received, later, todo);
      Shorter(unzip, stream.buffer, stream.waiting, stream.received);
      todo := LeftAfter(stream.waiting, todo);
      var data := stream.Read(unzip);
    }
    assert (stream.received + todo)[|stream.received|..] == todo;
    if later == [] {
      assert stream.buffer + later == stream.buffer;
      QuietMeansDone(stream.buffer, stream.waiting, todo);
      assert stream.received + todo == stream.received;
    }
  }
}
