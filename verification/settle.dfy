/**
  The guests' journals becoming events, and the token barrier at the end of a phase
  (pkgs/uml/uml/session.py:396-463). A guest's file grows at any time; each of `follow`'s drains
  and of `settle`'s reads one file after another, and the lock makes each read of a file whole.
*/
module Settle {
  import opened Options
  import opened Lines
  import opened Journal

  const SETTLE := "uml-settle"

  datatype Entry = Entry(message: string, priority: int, unit: Option<string>, identifier: Option<string>)

  /** `journal.parse`: one line, or nothing if it is not an entry. */
  type Parser = Bytes -> Option<Entry>

  /** What is emitted: a guest's entry under the phase holding the guest, or a phase's end. */
  datatype Item = Heard(machine: string, entry: Entry, under: Option<string>) | Finished(phase: string)

  datatype World = World(files: map<string, Bytes>, places: map<string, Place>, settled: set<string>, events: seq<Item>)

  predicate IsMarker(entry: Entry) {
    entry.identifier == Some(SETTLE)
  }

  /** The line is the marker that carries token `t`. */
  predicate Marks(parse: Parser, line: Bytes, t: string) {
    parse(line).Some? && IsMarker(parse(line).value) && parse(line).value.message == t
  }

  function Tokens(parse: Parser, lines: seq<Bytes>): set<string> {
    set line | line in lines && parse(line).Some? && IsMarker(parse(line).value) :: parse(line).value.message
  }

  /** The entries a reader should see: every line that parses and is not a marker. */
  function Entries(parse: Parser, lines: seq<Bytes>): seq<Entry> {
    if lines == [] then []
    else (if parse(lines[0]).Some? && !IsMarker(parse(lines[0]).value) then [parse(lines[0]).value] else [])
         + Entries(parse, lines[1..])
  }

  function Hear(g: string, phase: Option<string>, entries: seq<Entry>): seq<Item> {
    seq(|entries|, i requires 0 <= i < |entries| => Heard(g, entries[i], phase))
  }

  /** The entries emitted for one guest, in order. */
  function EntriesOf(events: seq<Item>, g: string): seq<Entry> {
    if events == [] then []
    else (if events[0].Heard? && events[0].machine == g then [events[0].entry] else []) + EntriesOf(events[1..], g)
  }

  // ── the steps ─────────────────────────────────────────────────────

  /** A guest writes; a file is read, under whoever holds the guest; a phase ends with its tokens in, or without. */
  datatype Step =
    | Write(guest: string, data: Bytes)
    | Drain(guest: string, under: Option<string>)
    | Finish(phase: string, tokens: set<string>)
    | GiveUp(phase: string)

  predicate Enabled(w: World, step: Step) {
    match step
    case Write(g, _) => g in w.files
    case Drain(g, _) => g in w.files && g in w.places
    case Finish(_, tokens) => tokens <= w.settled
    case GiveUp(_) => true
  }

  function Apply(parse: Parser, w: World, step: Step): World
    requires Enabled(w, step)
  {
    match step
    case Write(g, data) => w.(files := w.files[g := w.files[g] + data])
    case Drain(g, phase) =>
      var (lines, place) := ReadPlace(w.places[g], Some(w.files[g]));
      w.(places := w.places[g := place],
         settled := w.settled + Tokens(parse, lines),
         events := w.events + Hear(g, phase, Entries(parse, lines)))
    case Finish(p, _) => w.(events := w.events + [Finished(p)])
    case GiveUp(p) => w.(events := w.events + [Finished(p)])
  }

  function Execute(parse: Parser, w: World, steps: seq<Step>): Option<World>
    decreases |steps|
  {
    if steps == [] then Some(w)
    else if Enabled(w, steps[0]) then Execute(parse, Apply(parse, w, steps[0]), steps[1..])
    else None
  }

  function Quiet(guests: set<string>): World {
    World(map g | g in guests :: [], map g | g in guests :: Place(0, []), {}, [])
  }

  // ── what every step keeps ─────────────────────────────────────────

  /** The complete lines of a guest's file that have been processed. */
  function Processed(w: World, g: string): seq<Bytes>
    requires g in w.files && g in w.places && w.places[g].offset <= |w.files[g]|
  {
    Split(w.files[g][..w.places[g].offset]).0
  }

  ghost predicate Exact(parse: Parser, w: World, g: string) {
    && g in w.files && g in w.places && w.places[g].offset <= |w.files[g]|
    && At(w.places[g], w.files[g][..w.places[g].offset])
    && EntriesOf(w.events, g) == Entries(parse, Processed(w, g))
    && Tokens(parse, Processed(w, g)) <= w.settled
  }

  ghost predicate AllExact(parse: Parser, w: World) {
    w.files.Keys == w.places.Keys && forall g :: g in w.files ==> Exact(parse, w, g)
  }

  /** The token arrived by a line of this guest's that has been processed. */
  ghost predicate CameBy(parse: Parser, w: World, t: string, g: string) {
    && g in w.files && g in w.places && w.places[g].offset <= |w.files[g]|
    && t in Tokens(parse, Processed(w, g))
  }

  ghost predicate Backed(parse: Parser, w: World) {
    forall t :: t in w.settled ==> exists g :: CameBy(parse, w, t, g)
  }

  ghost predicate Markerless(events: seq<Item>) {
    forall e :: e in events && e.Heard? ==> e.entry.identifier != Some("uml-settle")
  }

  ghost predicate Inv(parse: Parser, w: World) {
    AllExact(parse, w) && Backed(parse, w) && Markerless(w.events)
  }

  /** An event is made of a line exactly if it parses and is not `uml-settle`'s, */
  lemma {:induction false} EntriesExactly(parse: Parser, lines: seq<Bytes>, entry: Entry)
    ensures entry in Entries(parse, lines) <==>
      entry.identifier != Some("uml-settle") && exists line :: line in lines && parse(line) == Some(entry)
    decreases |lines|
  {
    if lines != [] {
      EntriesExactly(parse, lines[1..], entry);
      assert forall line :: line in lines <==> line == lines[0] || line in lines[1..];
    }
  }

  /** and a token is one of those that are. */
  lemma TokensExactly(parse: Parser, lines: seq<Bytes>, t: string)
    ensures t in Tokens(parse, lines) <==> exists line, entry ::
      line in lines && parse(line) == Some(entry) && entry.identifier == Some("uml-settle") && entry.message == t
    ensures t in Tokens(parse, lines) <==> exists line :: line in lines && Marks(parse, line, t)
  {
    if t in Tokens(parse, lines) {
      var line :| line in lines && parse(line).Some? && IsMarker(parse(line).value) && parse(line).value.message == t;
      var entry := parse(line).value;
      assert parse(line) == Some(entry) && Marks(parse, line, t);
    }
  }

  lemma {:induction false} EntriesConcat(parse: Parser, a: seq<Bytes>, b: seq<Bytes>)
    ensures Entries(parse, a + b) == Entries(parse, a) + Entries(parse, b)
    decreases |a|
  {
    if a == [] {
      assert a + b == b;
    } else {
      EntriesConcat(parse, a[1..], b);
      assert (a + b)[1..] == a[1..] + b && (a + b)[0] == a[0];
    }
  }

  lemma TokensConcat(parse: Parser, a: seq<Bytes>, b: seq<Bytes>)
    ensures Tokens(parse, a + b) == Tokens(parse, a) + Tokens(parse, b)
  {
  }

  lemma {:induction false} EntriesOfConcat(a: seq<Item>, b: seq<Item>, g: string)
    ensures EntriesOf(a + b, g) == EntriesOf(a, g) + EntriesOf(b, g)
    decreases |a|
  {
    if a == [] {
      assert a + b == b;
    } else {
      EntriesOfConcat(a[1..], b, g);
      assert (a + b)[1..] == a[1..] + b && (a + b)[0] == a[0];
    }
  }

  lemma {:induction false} HeardBack(g: string, phase: Option<string>, entries: seq<Entry>, h: string)
    ensures EntriesOf(Hear(g, phase, entries), h) == if h == g then entries else []
    decreases |entries|
  {
    if entries != [] {
      HeardBack(g, phase, entries[1..], h);
      assert Hear(g, phase, entries)[1..] == Hear(g, phase, entries[1..]);
      assert [entries[0]] + entries[1..] == entries;
    }
  }

  lemma {:induction false} EntriesAreNoMarkers(parse: Parser, lines: seq<Bytes>)
    ensures forall e :: e in Entries(parse, lines) ==> !IsMarker(e)
  {
    if lines != [] {
      EntriesAreNoMarkers(parse, lines[1..]);
    }
  }

  /** What reading one file does to that guest's books. */
  lemma DrainExact(parse: Parser, w: World, g: string, phase: Option<string>)
    requires Exact(parse, w, g)
    ensures var v := Apply(parse, w, Drain(g, phase));
      var (lines, place) := ReadPlace(w.places[g], Some(w.files[g]));
      Exact(parse, v, g) && Processed(v, g) == Processed(w, g) + lines && v.places[g].offset == |v.files[g]|
  {
    var v := Apply(parse, w, Drain(g, phase));
    var (lines, place) := ReadPlace(w.places[g], Some(w.files[g]));
    var seen := w.files[g][..w.places[g].offset];
    ReadIsExact(w.places[g], seen, Some(w.files[g]));
    TruncationSeenExactly(seen, w.files[g]);
    hide ReadPlace, Split;
    assert v.files[g][..|v.files[g]|] == v.files[g];
    EntriesConcat(parse, Processed(w, g), lines);
    TokensConcat(parse, Processed(w, g), lines);
    EntriesOfConcat(w.events, Hear(g, phase, Entries(parse, lines)), g);
    HeardBack(g, phase, Entries(parse, lines), g);
    hide Entries, Tokens, EntriesOf, Hear;
  }

  lemma DrainOthers(parse: Parser, w: World, g: string, phase: Option<string>, h: string)
    requires g in w.files && g in w.places && h != g && Exact(parse, w, h)
    ensures var v := Apply(parse, w, Drain(g, phase)); Exact(parse, v, h) && Processed(v, h) == Processed(w, h)
  {
    var (lines, place) := ReadPlace(w.places[g], Some(w.files[g]));
    EntriesOfConcat(w.events, Hear(g, phase, Entries(parse, lines)), h);
    HeardBack(g, phase, Entries(parse, lines), h);
    hide ReadPlace, Split, Entries, Tokens, EntriesOf, Hear;
  }

  lemma DrainKeepsExact(parse: Parser, w: World, g: string, phase: Option<string>)
    requires AllExact(parse, w) && g in w.files
    ensures AllExact(parse, Apply(parse, w, Drain(g, phase)))
    ensures forall h :: h in w.files && h != g ==>
      Exact(parse, w, h) && Exact(parse, Apply(parse, w, Drain(g, phase)), h)
      && Processed(Apply(parse, w, Drain(g, phase)), h) == Processed(w, h)
  {
    DrainExact(parse, w, g, phase);
    forall h | h in w.files && h != g
      ensures Exact(parse, w, h) && Exact(parse, Apply(parse, w, Drain(g, phase)), h)
      ensures Processed(Apply(parse, w, Drain(g, phase)), h) == Processed(w, h)
    {
      DrainOthers(parse, w, g, phase, h);
    }
    hide Exact, ReadPlace, Processed;
  }

  /** What a drain settles is what the lines it read settle. */
  lemma DrainSettles(parse: Parser, w: World, g: string, phase: Option<string>)
    requires Exact(parse, w, g)
    ensures var v := Apply(parse, w, Drain(g, phase));
      var lines := ReadPlace(w.places[g], Some(w.files[g])).0;
      && v.settled == w.settled + Tokens(parse, lines) && v.files == w.files
      && Tokens(parse, Processed(v, g)) == Tokens(parse, Processed(w, g)) + Tokens(parse, lines)
  {
    var lines := ReadPlace(w.places[g], Some(w.files[g])).0;
    DrainExact(parse, w, g, phase);
    TokensConcat(parse, Processed(w, g), lines);
    hide ReadPlace, Tokens, Processed, Entries;
  }

  lemma StillCameBy(parse: Parser, w: World, g: string, phase: Option<string>, t: string, h: string)
    requires AllExact(parse, w) && g in w.files && CameBy(parse, w, t, h)
    ensures CameBy(parse, Apply(parse, w, Drain(g, phase)), t, h)
  {
    if h == g {
      DrainExact(parse, w, g, phase);
      DrainSettles(parse, w, g, phase);
      hide ReadPlace, Tokens, Processed;
    } else {
      DrainOthers(parse, w, g, phase, h);
      hide ReadPlace, Tokens, Processed;
    }
  }

  lemma DrainKeepsBacked(parse: Parser, w: World, g: string, phase: Option<string>)
    requires AllExact(parse, w) && Backed(parse, w) && g in w.files
    ensures Backed(parse, Apply(parse, w, Drain(g, phase)))
  {
    var v := Apply(parse, w, Drain(g, phase));
    DrainExact(parse, w, g, phase);
    DrainSettles(parse, w, g, phase);
    hide Apply, Tokens, Processed, EntriesOf, Entries, ReadPlace;
    forall t | t in v.settled ensures exists h :: CameBy(parse, v, t, h) {
      if t in w.settled {
        var h :| CameBy(parse, w, t, h);
        StillCameBy(parse, w, g, phase, t, h);
      } else {
        assert CameBy(parse, v, t, g);
      }
    }
  }

  lemma DrainKeepsMarkerless(parse: Parser, w: World, g: string, phase: Option<string>)
    requires Markerless(w.events) && g in w.files && g in w.places
    ensures Markerless(Apply(parse, w, Drain(g, phase)).events)
  {
    var lines := ReadPlace(w.places[g], Some(w.files[g])).0;
    EntriesAreNoMarkers(parse, lines);
    hide ReadPlace, Entries, Tokens;
    var heard := Hear(g, phase, Entries(parse, lines));
    forall e | e in heard ensures !IsMarker(e.entry) {
      var i :| 0 <= i < |heard| && heard[i] == e;
      assert e.entry == Entries(parse, lines)[i];
    }
  }

  lemma WriteLeaves(parse: Parser, w: World, g: string, data: Bytes, h: string)
    requires g in w.files && Exact(parse, w, h)
    ensures var v := Apply(parse, w, Write(g, data)); Exact(parse, v, h) && Processed(v, h) == Processed(w, h)
  {
    var v := Apply(parse, w, Write(g, data));
    hide Split, Entries, Tokens, EntriesOf, At;
    assert v.files[h][..w.places[h].offset] == w.files[h][..w.places[h].offset];
  }

  lemma WriteKeeps(parse: Parser, w: World, g: string, data: Bytes)
    requires Inv(parse, w) && g in w.files
    ensures Inv(parse, Apply(parse, w, Write(g, data)))
  {
    var v := Apply(parse, w, Write(g, data));
    assert v.files.Keys == w.files.Keys && v == w.(files := v.files);
    hide Apply, Exact, Processed, Tokens, Markerless;
    forall h | h in v.files ensures Exact(parse, v, h) && Processed(v, h) == Processed(w, h) {
      WriteLeaves(parse, w, g, data, h);
    }
    forall t | t in v.settled ensures exists h :: CameBy(parse, v, t, h) {
      var h :| CameBy(parse, w, t, h);
      StillIn(parse, w, v, t, h);
    }
  }

  lemma StillIn(parse: Parser, w: World, v: World, t: string, h: string)
    requires CameBy(parse, w, t, h) && Exact(parse, v, h) && Processed(v, h) == Processed(w, h)
    ensures CameBy(parse, v, t, h)
  {
    hide Processed, Tokens;
  }

  lemma FinishedKeeps(parse: Parser, w: World, p: string)
    requires Inv(parse, w)
    ensures Inv(parse, w.(events := w.events + [Finished(p)]))
  {
    var v := w.(events := w.events + [Finished(p)]);
    assert [Finished(p)][1..] == [];
    forall h | h in v.files ensures Exact(parse, v, h) {
      EntriesOfConcat(w.events, [Finished(p)], h);
      assert EntriesOf([Finished(p)], h) == [];
      assert Processed(v, h) == Processed(w, h);
    }
    hide Split, Entries, Tokens, EntriesOf, At, Exact;
    forall t | t in v.settled ensures exists h :: CameBy(parse, v, t, h) {
      var h :| CameBy(parse, w, t, h);
      assert CameBy(parse, v, t, h);
    }
  }

  lemma StepKeeps(parse: Parser, w: World, step: Step)
    requires Inv(parse, w) && Enabled(w, step)
    ensures Inv(parse, Apply(parse, w, step))
  {
    match step
    case Write(g, data) => WriteKeeps(parse, w, g, data);
    case Drain(g, phase) =>
      DrainKeepsExact(parse, w, g, phase);
      DrainKeepsBacked(parse, w, g, phase);
      DrainKeepsMarkerless(parse, w, g, phase);
    case Finish(p, _) => FinishedKeeps(parse, w, p);
    case GiveUp(p) => FinishedKeeps(parse, w, p);
    hide AllExact, Backed, Markerless, ReadPlace;
  }

  lemma {:induction false} RunKeeps(parse: Parser, w: World, steps: seq<Step>, v: World)
    requires Inv(parse, w) && Execute(parse, w, steps) == Some(v)
    ensures Inv(parse, v)
    decreases |steps|
  {
    if steps != [] {
      StepKeeps(parse, w, steps[0]);
      hide Inv, Apply;
      RunKeeps(parse, Apply(parse, w, steps[0]), steps[1..], v);
    }
  }

  lemma QuietInv(parse: Parser, guests: set<string>)
    ensures Inv(parse, Quiet(guests))
  {
    var w := Quiet(guests);
    forall g | g in w.files ensures Exact(parse, w, g) {
      assert w.files[g][..0] == [] && Split([]) == ([], []);
    }
  }

  lemma ReachableInv(parse: Parser, guests: set<string>, steps: seq<Step>, w: World)
    requires Execute(parse, Quiet(guests), steps) == Some(w)
    ensures Inv(parse, w)
  {
    QuietInv(parse, guests);
    RunKeeps(parse, Quiet(guests), steps, w);
  }

  // ── the theorems ──────────────────────────────────────────────────

  /**
    Under any interleaving of writes and drains, what has been emitted for a guest is exactly the
    parsable non-marker lines read so far, in file order and once each; no marker is an event.
  */
  lemma EventsAreTheFile(parse: Parser, guests: set<string>, steps: seq<Step>, w: World, g: string)
    requires Execute(parse, Quiet(guests), steps) == Some(w) && g in w.files
    ensures g in w.places && w.places[g].offset <= |w.files[g]|
    ensures EntriesOf(w.events, g) == Entries(parse, Processed(w, g))
    ensures Processed(w, g) <= Split(w.files[g]).0
    ensures Markerless(w.events)
  {
    ReachableInv(parse, guests, steps, w);
    hide Execute;
    assert Exact(parse, w, g);
    ProcessedIsPrefix(w, g);
  }

  lemma ProcessedIsPrefix(w: World, g: string)
    requires g in w.files && g in w.places && w.places[g].offset <= |w.files[g]|
    ensures Processed(w, g) <= Split(w.files[g]).0
  {
    var k := w.places[g].offset;
    var seen, more := w.files[g][..k], w.files[g][k..];
    assert seen + more == w.files[g];
    ReadOn(seen, more);
    NonEmptyConcat(Complete(seen), Complete(Partial(seen) + more));
  }

  /** Nobody else's journal carries the token: it names its guest, and only that guest was told it. */
  ghost predicate OnlyIn(parse: Parser, w: World, t: string, g: string) {
    forall h :: h in w.files && h != g ==> t !in Tokens(parse, Split(w.files[h]).0)
  }

  /**
    The settle barrier. Once a guest's token has arrived, every complete line before the token's
    own in that guest's file has been processed, and its entries emitted.
  */
  lemma TokenIsABarrier(parse: Parser, guests: set<string>, steps: seq<Step>, w: World, t: string, g: string, i: nat)
    requires Execute(parse, Quiet(guests), steps) == Some(w) && g in w.files
    requires t in w.settled && OnlyIn(parse, w, t, g)
    requires var lines := Split(w.files[g]).0;
      i < |lines| && forall j :: 0 <= j < i ==> !Marks(parse, lines[j], t)
    ensures g in w.places && w.places[g].offset <= |w.files[g]| && |Processed(w, g)| > i
    ensures Entries(parse, Split(w.files[g]).0[..i]) <= EntriesOf(w.events, g)
  {
    EventsAreTheFile(parse, guests, steps, w, g);
    TokenFromItsGuest(parse, guests, steps, w, t, g);
    hide Execute, Split, Entries, EntriesOf, OnlyIn, Processed, Tokens;
    MarkedPast(parse, Processed(w, g), Split(w.files[g]).0, t, i);
  }

  lemma TokenFromItsGuest(parse: Parser, guests: set<string>, steps: seq<Step>, w: World, t: string, g: string)
    requires Execute(parse, Quiet(guests), steps) == Some(w) && g in w.files
    requires t in w.settled && OnlyIn(parse, w, t, g)
    ensures CameBy(parse, w, t, g)
  {
    ReachableInv(parse, guests, steps, w);
    hide Execute;
    var h :| CameBy(parse, w, t, h);
    ProcessedIsPrefix(w, h);
    hide Split, AllExact, Processed;
    assert Tokens(parse, Processed(w, h)) <= Tokens(parse, Split(w.files[h]).0);
  }

  lemma LineOfToken(parse: Parser, lines: seq<Bytes>, t: string) returns (j: nat)
    requires t in Tokens(parse, lines)
    ensures j < |lines| && Marks(parse, lines[j], t)
  {
    var line :| line in lines && Marks(parse, line, t);
    j :| 0 <= j < |lines| && lines[j] == line;
  }

  /** Lines read up to somewhere, the token among them: so everything before the token too. */
  lemma MarkedPast(parse: Parser, done: seq<Bytes>, lines: seq<Bytes>, t: string, i: nat)
    requires done <= lines && t in Tokens(parse, done) && i < |lines|
    requires forall j :: 0 <= j < i ==> !Marks(parse, lines[j], t)
    ensures |done| > i && Entries(parse, lines[..i]) <= Entries(parse, done)
  {
    hide Entries, Tokens, Marks;
    var j := LineOfToken(parse, done, t);
    assert lines[j] == done[j];
    assert done[..i] == lines[..i] && done[..i] + done[i..] == done;
    EntriesConcat(parse, done[..i], done[i..]);
  }

  /** Tokens and events are only ever added. */
  lemma {:induction false} OnlyAdds(parse: Parser, w: World, steps: seq<Step>, v: World)
    requires Execute(parse, w, steps) == Some(v)
    ensures w.settled <= v.settled && w.events <= v.events
    decreases |steps|
  {
    if steps != [] {
      var u := Apply(parse, w, steps[0]);
      assert w.settled <= u.settled && w.events <= u.events;
      hide Apply;
      OnlyAdds(parse, u, steps[1..], v);
    }
  }

  /**
    So for the rest of the run, what a guest logged before its token stands before the end of the
    phase whose `settle` waited for it.
  */
  lemma LoggedBeforeFinished(parse: Parser, guests: set<string>, before: seq<Step>, w: World,
                             p: string, tokens: set<string>, after: seq<Step>, v: World, t: string, g: string, i: nat)
    requires Execute(parse, Quiet(guests), before) == Some(w) && Enabled(w, Finish(p, tokens))
    requires Execute(parse, Apply(parse, w, Finish(p, tokens)), after) == Some(v)
    requires t in tokens && g in w.files && OnlyIn(parse, w, t, g)
    requires var lines := Split(w.files[g]).0;
      i < |lines| && forall j :: 0 <= j < i ==> !Marks(parse, lines[j], t)
    ensures |w.events| < |v.events| && v.events[|w.events|] == Finished(p)
    ensures Entries(parse, Split(w.files[g]).0[..i]) <= EntriesOf(v.events[..|w.events|], g)
  {
    OnlyAdds(parse, Apply(parse, w, Finish(p, tokens)), after, v);
    TokenIsABarrier(parse, guests, before, w, t, g, i);
    hide Execute, Split, Entries, EntriesOf;
    var ended := w.events + [Finished(p)];
    assert v.events[..|ended|] == ended;
    assert v.events[..|w.events|] == v.events[..|ended|][..|w.events|] == w.events;
    assert v.events[|w.events|] == v.events[..|ended|][|w.events|];
  }

  /** While a phase holds the guest, whoever drains files its lines under that phase. */
  predicate HeldBy(steps: seq<Step>, g: string, phase: string) {
    forall s :: s in steps && s.Drain? && s.guest == g ==> s.under == Some(phase)
  }

  predicate AllUnder(events: seq<Item>, g: string, phase: string) {
    forall e :: e in events && e.Heard? && e.machine == g ==> e.under == Some(phase)
  }

  /** The guest's file and what is processed of it have only grown. */
  predicate Further(w: World, v: World, g: string) {
    && g in w.files && g in w.places && g in v.files && g in v.places
    && w.files[g] <= v.files[g] && w.places[g].offset <= v.places[g].offset
    && w.places[g].offset <= |w.files[g]| && v.places[g].offset <= |v.files[g]|
  }

  /** And all that was heard of it since is filed under the phase. */
  ghost predicate Onward(w: World, v: World, g: string, phase: string) {
    Further(w, v, g) && w.events <= v.events && AllUnder(v.events[|w.events|..], g, phase)
  }

  lemma OnwardAgain(w: World, u: World, v: World, g: string, phase: string)
    requires Onward(w, u, g, phase) && Onward(u, v, g, phase)
    ensures Onward(w, v, g, phase)
  {
    assert v.events[|w.events|..] == u.events[|w.events|..] + v.events[|u.events|..];
  }

  lemma StepFurther(parse: Parser, w: World, step: Step, g: string)
    requires Exact(parse, w, g) && Enabled(w, step)
    ensures Further(w, Apply(parse, w, step), g)
  {
    hide Tokens, Entries, EntriesOf, At, Processed, Split, Hear;
    if step.Drain? && step.guest == g {
      DrainExact(parse, w, g, step.under);
    }
    hide ReadPlace;
  }

  /** What one step adds to the events is filed under who it is told holds the guest. */
  lemma StepHeard(parse: Parser, w: World, step: Step, g: string, phase: string)
    requires Enabled(w, step) && HeldBy([step], g, phase)
    ensures var v := Apply(parse, w, step); w.events <= v.events && AllUnder(v.events[|w.events|..], g, phase)
  {
    assert step in [step];
    hide Tokens, Entries, ReadPlace;
  }

  lemma StepOnward(parse: Parser, w: World, step: Step, g: string, phase: string)
    requires AllExact(parse, w) && Enabled(w, step) && g in w.files && HeldBy([step], g, phase)
    ensures Onward(w, Apply(parse, w, step), g, phase)
  {
    hide Apply, Enabled, Exact, Further, AllUnder, HeldBy;
    StepFurther(parse, w, step, g);
    StepHeard(parse, w, step, g, phase);
  }

  lemma {:induction false} WhileHeld(parse: Parser, w: World, steps: seq<Step>, v: World, g: string, phase: string)
    requires Inv(parse, w) && Execute(parse, w, steps) == Some(v) && g in w.files && HeldBy(steps, g, phase)
    ensures Inv(parse, v) && Onward(w, v, g, phase)
    decreases |steps|
  {
    assert Exact(parse, w, g);
    if steps != [] {
      var u := Apply(parse, w, steps[0]);
      StepKeeps(parse, w, steps[0]);
      assert HeldBy([steps[0]], g, phase) && HeldBy(steps[1..], g, phase);
      StepOnward(parse, w, steps[0], g, phase);
      assert g in u.files;
      hide Inv, Apply, HeldBy, Onward, Exact, Enabled;
      WhileHeld(parse, u, steps[1..], v, g, phase);
      OnwardAgain(w, u, v, g, phase);
    }
  }

  /** Of a file that grew, the lines processed by then begin the lines processed by now. */
  lemma ProcessedGrows(w: World, v: World, g: string)
    requires Further(w, v, g)
    ensures Processed(w, g) <= Processed(v, g)
  {
    var seen, now := w.files[g][..w.places[g].offset], v.files[g][..v.places[g].offset];
    assert seen == now[..|seen|];
    assert seen + now[|seen|..] == now;
    ReadOn(seen, now[|seen|..]);
    NonEmptyConcat(Complete(seen), Complete(Partial(seen) + now[|seen|..]));
    hide Complete, Partial, NonEmpty;
  }

  /**
    While every drain of a guest files under one phase, each parsable non-marker line read is one event
    under that phase, in order. That the drains do is the scheduler's part: `Attribution`.
  */
  lemma HeardWhileHeld(parse: Parser, guests: set<string>, before: seq<Step>, w: World,
                           during: seq<Step>, v: World, g: string, phase: string)
    requires Execute(parse, Quiet(guests), before) == Some(w) && g in w.files
    requires Execute(parse, w, during) == Some(v) && HeldBy(during, g, phase)
    ensures g in w.places && w.places[g].offset <= |w.files[g]|
    ensures g in v.files && g in v.places && v.places[g].offset <= |v.files[g]|
    ensures w.events <= v.events && Processed(w, g) <= Processed(v, g)
    ensures var heard, lines := v.events[|w.events|..], Processed(v, g)[|Processed(w, g)|..];
      EntriesOf(heard, g) == Entries(parse, lines) && AllUnder(heard, g, phase)
  {
    ReachableInv(parse, guests, before, w);
    WhileHeld(parse, w, during, v, g, phase);
    hide Execute, AllUnder, HeldBy, Split, At, Tokens, Backed, Markerless;
    assert Exact(parse, w, g) && Exact(parse, v, g);
    hide AllExact;
    ProcessedGrows(w, v, g);
    HeardSince(parse, w, v, g);
  }

  lemma HeardSince(parse: Parser, w: World, v: World, g: string)
    requires Exact(parse, w, g) && Exact(parse, v, g) && w.events <= v.events && Processed(w, g) <= Processed(v, g)
    ensures EntriesOf(v.events[|w.events|..], g) == Entries(parse, Processed(v, g)[|Processed(w, g)|..])
  {
    hide Entries, EntriesOf, Processed, At, Tokens;
    BothTails(parse, w.events, v.events, Processed(w, g), Processed(v, g), g);
  }

  lemma BothTails(parse: Parser, events: seq<Item>, more: seq<Item>, lines: seq<Bytes>, longer: seq<Bytes>, g: string)
    requires events <= more && lines <= longer
    requires EntriesOf(events, g) == Entries(parse, lines) && EntriesOf(more, g) == Entries(parse, longer)
    ensures EntriesOf(more[|events|..], g) == Entries(parse, longer[|lines|..])
  {
    hide Entries, EntriesOf;
    EntriesOfConcat(events, more[|events|..], g);
    EntriesConcat(parse, lines, longer[|lines|..]);
    assert events + more[|events|..] == more && lines + longer[|lines|..] == longer;
    SameTail(EntriesOf(events, g), EntriesOf(more[|events|..], g), Entries(parse, longer[|lines|..]));
  }

  lemma SameTail<T>(front: seq<T>, a: seq<T>, b: seq<T>)
    requires front + a == front + b
    ensures a == b
  {
    assert (front + a)[|front|..] == a && (front + b)[|front|..] == b;
  }

  /** And the wait is for reading alone: a token whose line is in the file is in after one drain of it. */
  lemma DrainBringsTokens(parse: Parser, guests: set<string>, steps: seq<Step>, w: World, g: string,
      phase: Option<string>)
    requires Execute(parse, Quiet(guests), steps) == Some(w) && g in w.files
    ensures g in w.places && Tokens(parse, Split(w.files[g]).0) <= Apply(parse, w, Drain(g, phase)).settled
  {
    ReachableInv(parse, guests, steps, w);
    hide Execute;
    assert Exact(parse, w, g);
    DrainExact(parse, w, g, phase);
    var v := Apply(parse, w, Drain(g, phase));
    assert v.files[g][..|v.files[g]|] == w.files[g];
    hide ReadPlace, Tokens, Split, Entries, EntriesOf, At;
  }

  /** A drain, field by field. */
  lemma DrainIs(parse: Parser, g: string, content: Bytes, places: map<string, Place>, settled: set<string>,
                events: seq<Item>, under: Option<string>)
    requires g in places
    ensures var v := Apply(parse, World(map[g := content], places, settled, events), Step.Drain(g, under));
      var (lines, place) := ReadPlace(places[g], Some(content));
      && v.places == places[g := place] && v.settled == settled + Tokens(parse, lines)
      && v.events == events + Hear(g, under, Entries(parse, lines))
  {
    hide Tokens, Entries, Hear, ReadPlace;
  }

  /** In the books of a run, a drain settles what all the complete lines of the file settle. */
  lemma DrainSettlesFile(parse: Parser, w: World, g: string, under: Option<string>)
    requires Exact(parse, w, g)
    ensures Apply(parse, w, Drain(g, under)).settled == w.settled + Tokens(parse, Split(w.files[g]).0)
  {
    DrainExact(parse, w, g, under);
    DrainSettles(parse, w, g, under);
    var v := Apply(parse, w, Drain(g, under));
    assert v.files[g][..|v.files[g]|] == w.files[g];
    hide ReadPlace, Tokens, Split, Entries, EntriesOf, At;
  }

  ghost predicate HeardAre(events: seq<Item>, more: seq<Item>, g: string, entries: seq<Entry>, under: Option<string>) {
    && events <= more && |more| == |events| + |entries|
    && forall i :: 0 <= i < |entries| ==> more[|events| + i] == Heard(g, entries[i], under)
  }

  lemma DrainHears(parse: Parser, w: World, g: string, under: Option<string>)
    requires Exact(parse, w, g)
    ensures var lines, v := Split(w.files[g]).0, Apply(parse, w, Drain(g, under));
      && v.files == w.files && Processed(w, g) <= lines
      && HeardAre(w.events, v.events, g, Entries(parse, lines[|Processed(w, g)|..]), under)
  {
    var v := Apply(parse, w, Drain(g, under));
    DrainExact(parse, w, g, under);
    assert v.files[g][..|v.files[g]|] == w.files[g];
    hide ReadPlace, Split, Entries, Tokens, Exact;
    var lines := ReadPlace(w.places[g], Some(w.files[g])).0;
    assert (Processed(w, g) + lines)[|Processed(w, g)|..] == lines;
  }

  /** What has been written, and nothing else, is heard at the next drain: each entry of a line completed
      since the last one, in the file's order, under who holds the guest then. */
  lemma DrainTakesAll(parse: Parser, w: World, g: string, data: Bytes, under: Option<string>)
    requires Inv(parse, w) && g in w.files
    ensures g in w.places && w.places[g].offset <= |w.files[g]|
    ensures var lines := Split(w.files[g] + data).0;
      var v := Apply(parse, Apply(parse, w, Write(g, data)), Drain(g, under));
      && v.files == w.files[g := w.files[g] + data] && v.settled == w.settled + Tokens(parse, lines)
      && Processed(w, g) <= lines && HeardAre(w.events, v.events, g, Entries(parse, lines[|Processed(w, g)|..]), under)
  {
    var grown := Apply(parse, w, Write(g, data));
    assert Exact(parse, w, g);
    WriteLeaves(parse, w, g, data, g);
    DrainHears(parse, grown, g, under);
    DrainSettlesFile(parse, grown, g, under);
    hide ReadPlace, Split, Entries, Tokens, Inv, Exact, HeardAre, Processed;
  }

  /** A file grows and is drained: the books stay in order, and have the tokens of all its lines. */
  lemma GrownAndDrained(parse: Parser, w: World, g: string, content: Bytes, under: Option<string>)
    requires Inv(parse, w) && g in w.files && w.files[g] <= content
    ensures var grown := w.(files := w.files[g := content]);
      && g in grown.files && g in grown.places && Inv(parse, Apply(parse, grown, Drain(g, under)))
      && Apply(parse, grown, Drain(g, under)).settled == w.settled + Tokens(parse, Split(content).0)
  {
    var grown := w.(files := w.files[g := content]);
    var more := content[|w.files[g]|..];
    assert w.files[g] + more == content && Apply(parse, w, Write(g, more)) == grown;
    StepKeeps(parse, w, Write(g, more));
    assert Exact(parse, grown, g);
    DrainSettlesFile(parse, grown, g, under);
    StepKeeps(parse, grown, Drain(g, under));
  }

  /** What one line more adds to what those before it have. */
  lemma OneLine(parse: Parser, g: string, under: Option<string>, lines: seq<Bytes>, i: nat,
                settled: set<string>, events: seq<Item>)
    requires i < |lines|
    ensures var entry := parse(lines[i]);
      var marker := entry.Some? && IsMarker(entry.value);
      && settled + Tokens(parse, lines[..i + 1]) ==
           (settled + Tokens(parse, lines[..i])) + (if marker then {entry.value.message} else {})
      && events + Hear(g, under, Entries(parse, lines[..i + 1])) ==
           (events + Hear(g, under, Entries(parse, lines[..i])))
           + (if entry.Some? && !marker then [Heard(g, entry.value, under)] else [])
  {
    var one: seq<Bytes> := [lines[i]];
    assert lines[..i + 1] == lines[..i] + one;
    TokensConcat(parse, lines[..i], one);
    EntriesConcat(parse, lines[..i], one);
    assert one[1..] == [] && Entries(parse, one[1..]) == [];
  }

  // ── as the session does it ────────────────────────────────────────

  /** The session's journal books, one guest's part of `drain` at a time. */
  class Drainer {
    var places: map<string, Place>
    var settled: set<string>
    var events: seq<Item>

    constructor (guests: set<string>)
      ensures places == Quiet(guests).places && settled == {} && events == []
    {
      places := map g | g in guests :: Place(0, []);
      settled, events := {}, [];
    }

    method DrainGuest(parse: Parser, g: string, content: Bytes, under: Option<string>)
      requires g in places
      modifies this
      ensures var w := World(map[g := content], old(places), old(settled), old(events));
        var v := Apply(parse, w, Step.Drain(g, under));
        places == v.places && settled == v.settled && events == v.events
    {
      DrainIs(parse, g, content, places, settled, events, under);
      hide Tokens, Entries, Hear, ReadPlace, Apply;
      var (lines, place) := ReadPlace(places[g], Some(content));
      places := places[g := place];
      assert lines[..0] == [] && lines[..|lines|] == lines;
      for i := 0 to |lines|
        invariant places == old(places)[g := place]
        invariant settled == old(settled) + Tokens(parse, lines[..i])
        invariant events == old(events) + Hear(g, under, Entries(parse, lines[..i]))
      {
        var entry := parse(lines[i]);
        OneLine(parse, g, under, lines, i, old(settled), old(events));
        if entry.None? {
          continue;
        }
        if entry.value.identifier == Some(SETTLE) {
          settled := settled + {entry.value.message};
          continue;
        }
        events := events + [Heard(g, entry.value, under)];
      }
    }

    /** The guests' files as they are, and what the session has made of them. */
    ghost function View(files: map<string, Bytes>): World
      reads this
    {
      World(files, places, settled, events)
    }

    /** One guest's part of it. */
    method DrainNext(parse: Parser, names: seq<string>, found: Found, i: nat, ghost files: map<string, Bytes>)
      requires CanRead(names, found, files) && i < |names| && names[i] in places
      modifies this
      ensures places.Keys == old(places).Keys
      ensures Execute(parse, old(View(Grown(files, names, found, i))), OneRead(files, names, found, i))
        == Some(View(Grown(files, names, found, i + 1)))
    {
      var g := names[i];
      GrownElsewhere(files, names, found, i, i);
      GrowsAndDrains(parse, View(Grown(files, names, found, i)), g, found.contents[i], found.unders[i]);
      hide ReadPlace, Tokens, Entries, Hear, CanRead;
      DrainGuest(parse, g, found.contents[i], found.unders[i]);
    }

    /** `drain`: every guest's file in turn, as it is by then, under whoever holds the guest by then. */
    method Drain(parse: Parser, names: seq<string>, found: Found, ghost files: map<string, Bytes>)
      requires CanRead(names, found, files) && forall g :: g in names ==> g in places
      modifies this
      ensures places.Keys == old(places).Keys && old(settled) <= settled && old(events) <= events
      ensures Execute(parse, old(View(files)), PassSteps(files, names, found, |names|))
        == Some(View(Grown(files, names, found, |names|)))
    {
      ghost var start := View(files);
      PassBegins(parse, start, names, found, files);
      hide Execute, Grown, OneRead, PassSteps, CanRead;
      for i := 0 to |names|
        invariant places.Keys == old(places).Keys
        invariant Execute(parse, start, PassSteps(files, names, found, i)) == Some(View(Grown(files, names, found, i)))
      {
        ghost var before := View(Grown(files, names, found, i));
        ExecuteConcat(parse, start, PassSteps(files, names, found, i), before, OneRead(files, names, found, i));
        DrainNext(parse, names, found, i, files);
      }
      OnlyAdds(parse, start, PassSteps(files, names, found, |names|), View(Grown(files, names, found, |names|)));
    }

    /** One more drain at the end of a run. */
    method DrainOnce(parse: Parser, names: seq<string>, found: nat -> Found, pass: nat, ghost start: World,
                     ghost steps: seq<Step>, ghost files: map<string, Bytes>)
      returns (ghost longer: seq<Step>, ghost after: map<string, Bytes>)
      requires CanRead(names, found(pass), files) && forall g :: g in names ==> g in places
      requires Execute(parse, start, steps) == Some(View(files)) && InOrder(parse, start, found, pass, View(files))
      modifies this
      ensures after == Grown(files, names, found(pass), |names|) && Execute(parse, start, longer) == Some(View(after))
      ensures places.Keys == old(places).Keys && old(settled) <= settled && old(events) <= events
      ensures InOrder(parse, start, found, pass + 1, View(after))
    {
      ghost var before, more := View(files), PassSteps(files, names, found(pass), |names|);
      after := Grown(files, names, found(pass), |names|);
      hide Execute, Grown, PassSteps, CanRead, InOrder;
      ExecuteConcat(parse, start, steps, before, more);
      Drain(parse, names, found(pass), files);
      PassInOrder(parse, start, names, found, pass, before, View(after));
      longer := steps + more;
    }

    /** One of its own, and those of `follow` while it sleeps. */
    method Round(parse: Parser, names: seq<string>, found: nat -> Found, pass: nat, drains: nat, ghost start: World,
                 ghost steps: seq<Step>, ghost files: map<string, Bytes>)
      returns (ghost longer: seq<Step>, ghost after: map<string, Bytes>)
      requires CanRead(names, found(pass), files) && forall g :: g in names ==> g in places
      requires forall p, q :: 0 <= p <= q ==> Later(names, found(p), found(q))
      requires Execute(parse, start, steps) == Some(View(files)) && InOrder(parse, start, found, pass, View(files))
      modifies this
      ensures Execute(parse, start, longer) == Some(View(after)) && CanRead(names, found(pass + drains), after)
      ensures places.Keys == old(places).Keys && old(settled) <= settled && old(events) <= events
      ensures InOrder(parse, start, found, pass + drains, View(after))
    {
      longer, after := steps, files;
      hide Execute, CanRead, Later, Grown, InOrder;
      for k := 0 to drains
        invariant places.Keys == old(places).Keys && CanRead(names, found(pass + k), after)
        invariant old(settled) <= settled && old(events) <= events
        invariant Execute(parse, start, longer) == Some(View(after))
        invariant InOrder(parse, start, found, pass + k, View(after))
      {
        GrownIsFound(after, names, found(pass + k), found(pass + k + 1));
        longer, after := DrainOnce(parse, names, found, pass + k, start, longer, after);
      }
    }

    /**
      The end of `settle`: drains until every token is in or the time is up, after `rounds` drains of
      its own, and once more. After its k-th it sleeps, and `follow` may drain, `theirs(k)` times.
      `found(p)` is what the p-th of all those drains finds. So in the books of a run it ends in time
      exactly if the tokens were in before, or are found complete by some drain within the rounds; it
      waits no longer than that, and no shorter; and then it has them, and all that its last drain finds.
    */
    method Settle(parse: Parser, names: seq<string>, tokens: set<string>, rounds: nat, theirs: nat -> nat,
                  found: nat -> Found, ghost files: map<string, Bytes>)
      returns (inTime: bool, ghost waited: nat, ghost steps: seq<Step>, ghost after: map<string, Bytes>)
      requires CanRead(names, found(0), files) && forall g :: g in names ==> g in places
      requires forall p, q :: 0 <= p <= q ==> Later(names, found(p), found(q))
      modifies this
      ensures Execute(parse, old(View(files)), steps) == Some(View(after))
      ensures old(settled) <= settled && old(events) <= events
      ensures inTime ==> forall phase :: Enabled(View(after), Finish(phase, tokens))
      ensures waited <= rounds && (!inTime ==> waited == rounds) && (tokens <= old(settled) ==> inTime && waited == 0)
      ensures Inv(parse, old(View(files))) ==>
        && (inTime <==> exists r :: 0 <= r <= rounds && InBy(parse, tokens, old(settled), found, Drains(theirs, r)))
        && (forall r :: 0 <= r < waited ==> !InBy(parse, tokens, old(settled), found, Drains(theirs, r)))
        && settled == old(settled) + Brought(parse, found, Drains(theirs, waited) + 1)
        && Inv(parse, View(after))
    {
      ghost var start := View(files);
      StartsInOrder(parse, start, found, tokens, theirs);
      hide Execute, CanRead, Later, PassSteps, Grown, InOrder, NotYet, Inv, InBy;
      var mine, pass;
      mine, pass, steps, after := WaitFor(parse, names, tokens, rounds, theirs, found, start, files);
      inTime, waited := tokens <= settled, mine;
      SettleEnds(parse, start, tokens, found, theirs, mine, rounds, View(after));
      steps, after := DrainOnce(parse, names, found, pass, start, steps, after);
      LastInOrder(parse, start, found, pass + 1, View(after));
    }

    /** The loop of it. */
    method WaitFor(parse: Parser, names: seq<string>, tokens: set<string>, rounds: nat, theirs: nat -> nat,
                   found: nat -> Found, ghost start: World, ghost files: map<string, Bytes>)
      returns (mine: nat, pass: nat, ghost steps: seq<Step>, ghost after: map<string, Bytes>)
      requires CanRead(names, found(0), files) && forall g :: g in names ==> g in places
      requires forall p, q :: 0 <= p <= q ==> Later(names, found(p), found(q))
      requires start == View(files) && InOrder(parse, start, found, 0, start)
      requires NotYet(parse, start, tokens, found, theirs, 0)
      modifies this
      ensures Execute(parse, start, steps) == Some(View(after)) && CanRead(names, found(pass), after)
      ensures places.Keys == old(places).Keys && old(settled) <= settled && old(events) <= events
      ensures mine <= rounds && (tokens <= settled || mine == rounds) && (tokens <= old(settled) ==> mine == 0)
      ensures pass == Drains(theirs, mine) && InOrder(parse, start, found, pass, View(after))
      ensures NotYet(parse, start, tokens, found, theirs, mine)
    {
      mine, pass, steps, after := 0, 0, [], files;
      hide CanRead, Later, PassSteps, Grown, InOrder, NotYet;
      while !(tokens <= settled) && mine < rounds
        invariant mine <= rounds && pass == Drains(theirs, mine) && (mine > 0 ==> !(tokens <= old(settled)))
        invariant places.Keys == old(places).Keys && CanRead(names, found(pass), after)
        invariant old(settled) <= settled && old(events) <= events
        invariant Execute(parse, start, steps) == Some(View(after)) && InOrder(parse, start, found, pass, View(after))
        invariant NotYet(parse, start, tokens, found, theirs, mine)
        decreases rounds - mine
      {
        MissingStill(parse, start, tokens, found, theirs, mine, View(after));
        steps, after := Round(parse, names, found, pass, 1 + theirs(mine), start, steps, after);
        mine, pass := mine + 1, pass + 1 + theirs(mine);
      }
    }
  }

  /** If the books were in order they are, and what has been settled since is what the drains found. */
  ghost predicate InOrder(parse: Parser, start: World, found: nat -> Found, drains: nat, now: World) {
    Inv(parse, start) ==> Inv(parse, now) && now.settled == start.settled + Brought(parse, found, drains)
  }

  /** After none of the first rounds were the tokens all in. */
  ghost predicate NotYet(parse: Parser, start: World, tokens: set<string>, found: nat -> Found, theirs: nat -> nat,
      rounds: nat)
  {
    Inv(parse, start) ==> forall r :: 0 <= r < rounds ==> !InBy(parse, tokens, start.settled, found, Drains(theirs, r))
  }

  lemma StartsInOrder(parse: Parser, start: World, found: nat -> Found, tokens: set<string>, theirs: nat -> nat)
    ensures InOrder(parse, start, found, 0, start) && NotYet(parse, start, tokens, found, theirs, 0)
  {
    hide Inv;
  }

  lemma MissingStill(parse: Parser, start: World, tokens: set<string>, found: nat -> Found, theirs: nat -> nat,
      mine: nat, now: World)
    requires NotYet(parse, start, tokens, found, theirs, mine) && !(tokens <= now.settled)
    requires InOrder(parse, start, found, Drains(theirs, mine), now)
    ensures NotYet(parse, start, tokens, found, theirs, mine + 1)
  {
    hide Inv, Drains, Brought;
  }

  /** Why the waiting is over. */
  lemma SettleEnds(parse: Parser, start: World, tokens: set<string>, found: nat -> Found, theirs: nat -> nat,
      mine: nat, rounds: nat, now: World)
    requires NotYet(parse, start, tokens, found, theirs, mine) && (tokens <= now.settled || mine == rounds)
    requires mine <= rounds && InOrder(parse, start, found, Drains(theirs, mine), now)
    ensures Inv(parse, start) ==>
      && (tokens <= now.settled <==>
            exists r :: 0 <= r <= rounds && InBy(parse, tokens, start.settled, found, Drains(theirs, r)))
      && forall r :: 0 <= r < mine ==> !InBy(parse, tokens, start.settled, found, Drains(theirs, r))
  {
    hide Inv, Drains, Brought;
    if Inv(parse, start) {
      assert InBy(parse, tokens, start.settled, found, Drains(theirs, mine)) <==> tokens <= now.settled;
    }
  }

  lemma LastInOrder(parse: Parser, start: World, found: nat -> Found, drains: nat, now: World)
    requires InOrder(parse, start, found, drains, now)
    ensures Inv(parse, start) ==> Inv(parse, now) && now.settled == start.settled + Brought(parse, found, drains)
  {
  }

  /** A drain keeps the books in order, and settles what it finds. */
  lemma PassInOrder(parse: Parser, start: World, names: seq<string>, found: nat -> Found, pass: nat, w: World, v: World)
    requires InOrder(parse, start, found, pass, w) && CanRead(names, found(pass), w.files)
    requires forall g :: g in names ==> g in w.places
    requires Execute(parse, w, PassSteps(w.files, names, found(pass), |names|)) == Some(v)
    ensures InOrder(parse, start, found, pass + 1, v)
  {
    hide Inv, Execute, Told, CanRead, PassSteps, Grown;
    if Inv(parse, start) {
      var u := PassSettles(parse, w, names, found(pass), |names|);
      SameSizes(names, found(pass), w.files);
    }
  }

  lemma SameSizes(names: seq<string>, found: Found, files: map<string, Bytes>)
    requires CanRead(names, found, files)
    ensures |found.contents| == |found.unders| == |names|
  {
  }

  lemma {:induction false} PassSettles(parse: Parser, w: World, names: seq<string>, found: Found, i: nat)
    returns (v: World)
    requires Inv(parse, w) && i <= |names| && CanRead(names, found, w.files) && forall g :: g in names ==> g in w.places
    ensures Execute(parse, w, PassSteps(w.files, names, found, i)) == Some(v)
    ensures Inv(parse, v) && v.settled == w.settled + Told(parse, found, i)
    ensures v.files == Grown(w.files, names, found, i) && v.places.Keys == w.places.Keys
    decreases i
  {
    hide Inv, Execute, CanRead, TokensAt, OneRead;
    if i == 0 {
      v := w;
      NoSteps(parse, w);
    } else {
      var u := PassSettles(parse, w, names, found, i - 1);
      PassGoesOn(w.files, names, found, i - 1);
      GrownElsewhere(w.files, names, found, i - 1, i - 1);
      v := OneSettles(parse, u, w.files, names, found, i - 1);
      ExecuteConcat(parse, w, PassSteps(w.files, names, found, i - 1), u, OneRead(w.files, names, found, i - 1));
    }
  }

  lemma OneSettles(parse: Parser, w: World, files: map<string, Bytes>, names: seq<string>, found: Found, i: nat)
    returns (v: World)
    requires Inv(parse, w) && i < |names| && CanRead(names, found, files)
    requires names[i] in w.files && names[i] in w.places && w.files[names[i]] == files[names[i]]
    ensures Execute(parse, w, OneRead(files, names, found, i)) == Some(v) && Inv(parse, v)
    ensures v.settled == w.settled + TokensAt(parse, found, i) && v.places.Keys == w.places.Keys
    ensures v.files == w.files[names[i] := found.contents[i]]
  {
    var g := names[i];
    var grown := w.(files := w.files[g := found.contents[i]]);
    v := Apply(parse, grown, Drain(g, found.unders[i]));
    GrowsAndDrains(parse, w, g, found.contents[i], found.unders[i]);
    GrownAndDrained(parse, w, g, found.contents[i], found.unders[i]);
    hide Inv, Execute, ReadPlace, Tokens, Entries, Hear, Split;
  }

  lemma NoSteps(parse: Parser, w: World)
    ensures Execute(parse, w, []) == Some(w)
  {
  }

  /** What a drain finds as it comes to each guest: the file, and who holds the guest. */
  datatype Found = Found(contents: seq<Bytes>, unders: seq<Option<string>>)

  /** The tokens in the complete lines of the i-th guest's file. */
  ghost function TokensAt(parse: Parser, found: Found, i: nat): set<string>
    requires i < |found.contents|
  {
    Tokens(parse, Split(found.contents[i]).0)
  }

  /** And of the first n guests' files. */
  ghost function Told(parse: Parser, found: Found, n: nat): set<string>
    requires n <= |found.contents|
  {
    if n == 0 then {} else Told(parse, found, n - 1) + TokensAt(parse, found, n - 1)
  }

  /** The tokens that the first so many drains find. */
  ghost function Brought(parse: Parser, found: nat -> Found, drains: nat): set<string> {
    if drains == 0 then {}
    else Brought(parse, found, drains - 1) + Told(parse, found(drains - 1), |found(drains - 1).contents|)
  }

  /** So many drains find the tokens not there before. */
  ghost predicate InBy(parse: Parser, tokens: set<string>, before: set<string>, found: nat -> Found, drains: nat) {
    tokens <= before + Brought(parse, found, drains)
  }

  /** How many drains there are in so many rounds: in each its own, and those of `follow` as it sleeps. */
  ghost function Drains(theirs: nat -> nat, rounds: nat): nat {
    if rounds == 0 then 0 else Drains(theirs, rounds - 1) + 1 + theirs(rounds - 1)
  }

  /** Guests in their order, and files that have only grown. */
  ghost predicate CanRead(names: seq<string>, found: Found, files: map<string, Bytes>) {
    && |found.contents| == |found.unders| == |names|
    && (forall i, j :: 0 <= i < j < |names| ==> names[i] != names[j])
    && forall i :: 0 <= i < |names| ==> names[i] in files && files[names[i]] <= found.contents[i]
  }

  ghost predicate Later(names: seq<string>, one: Found, two: Found) {
    && |one.contents| == |two.contents| == |two.unders| == |names|
    && forall i :: 0 <= i < |names| ==> one.contents[i] <= two.contents[i]
  }

  /** The files once the first i guests' have been read. */
  ghost function Grown(files: map<string, Bytes>, names: seq<string>, found: Found, i: nat): map<string, Bytes>
    requires i <= |names| && |found.contents| == |names|
  {
    if i == 0 then files else Grown(files, names, found, i - 1)[names[i - 1] := found.contents[i - 1]]
  }

  ghost function OneRead(files: map<string, Bytes>, names: seq<string>, found: Found, i: nat): seq<Step>
    requires i < |names| && CanRead(names, found, files)
  {
    [Write(names[i], found.contents[i][|files[names[i]]|..]), Drain(names[i], found.unders[i])]
  }

  ghost function PassSteps(files: map<string, Bytes>, names: seq<string>, found: Found, i: nat): seq<Step>
    requires i <= |names| && CanRead(names, found, files)
  {
    if i == 0 then [] else PassSteps(files, names, found, i - 1) + OneRead(files, names, found, i - 1)
  }

  lemma PassBegins(parse: Parser, start: World, names: seq<string>, found: Found, files: map<string, Bytes>)
    requires CanRead(names, found, files)
    ensures |found.contents| == |found.unders| == |names| && Grown(files, names, found, 0) == files
    ensures Execute(parse, start, PassSteps(files, names, found, 0)) == Some(start)
  {
  }

  lemma PassGoesOn(files: map<string, Bytes>, names: seq<string>, found: Found, i: nat)
    requires i < |names| && CanRead(names, found, files)
    ensures names[i] in names
    ensures PassSteps(files, names, found, i + 1) == PassSteps(files, names, found, i) + OneRead(files, names, found, i)
  {
    hide CanRead, OneRead;
  }

  lemma {:induction false} GrownElsewhere(files: map<string, Bytes>, names: seq<string>, found: Found, i: nat, j: nat)
    requires i <= j < |names| && CanRead(names, found, files)
    ensures names[j] in Grown(files, names, found, i)
    ensures Grown(files, names, found, i)[names[j]] == files[names[j]]
    decreases i
  {
    if i > 0 {
      GrownElsewhere(files, names, found, i - 1, j);
    }
  }

  lemma {:induction false} GrownHere(files: map<string, Bytes>, names: seq<string>, found: Found, i: nat, j: nat)
    requires j < i <= |names| && CanRead(names, found, files)
    ensures names[j] in Grown(files, names, found, i)
    ensures Grown(files, names, found, i)[names[j]] == found.contents[j]
    decreases i
  {
    if j < i - 1 {
      GrownHere(files, names, found, i - 1, j);
    }
  }

  lemma GrownIsFound(files: map<string, Bytes>, names: seq<string>, found: Found, next: Found)
    requires CanRead(names, found, files) && Later(names, found, next)
    ensures CanRead(names, next, Grown(files, names, found, |names|))
  {
    forall i | 0 <= i < |names|
      ensures var grown := Grown(files, names, found, |names|); names[i] in grown && grown[names[i]] <= next.contents[i]
    {
      GrownHere(files, names, found, |names|, i);
    }
  }

  /** The file grows to what is found, and is read. */
  lemma GrowsAndDrains(parse: Parser, w: World, g: string, content: Bytes, under: Option<string>)
    requires g in w.files && g in w.places && w.files[g] <= content
    ensures var grown := w.(files := w.files[g := content]);
      Execute(parse, w, [Write(g, content[|w.files[g]|..]), Drain(g, under)])
        == Some(Apply(parse, grown, Drain(g, under)))
  {
    var write := Write(g, content[|w.files[g]|..]);
    assert w.files[g] + content[|w.files[g]|..] == content;
    var grown := Apply(parse, w, write);
    assert grown == w.(files := w.files[g := content]);
    var steps := [write, Drain(g, under)];
    assert steps[1..] == [Drain(g, under)] && steps[1..][1..] == [];
    hide ReadPlace, Tokens, Entries, Hear;
    var last := Apply(parse, grown, Drain(g, under));
    assert Execute(parse, last, []) == Some(last);
    assert Execute(parse, grown, steps[1..]) == Some(last);
  }

  function Holder(holders: map<string, string>, g: string): Option<string> {
    if g in holders then Some(holders[g]) else None
  }

  lemma {:induction false} ExecuteConcat(parse: Parser, w: World, a: seq<Step>, v: World, b: seq<Step>)
    requires Execute(parse, w, a) == Some(v)
    ensures Execute(parse, w, a + b) == Execute(parse, v, b)
    decreases |a|
  {
    hide Apply, Enabled;
    if a == [] {
      assert a + b == b;
    } else {
      ExecuteConcat(parse, Apply(parse, w, a[0]), a[1..], v, b);
      assert (a + b)[0] == a[0] && (a + b)[1..] == a[1..] + b;
    }
  }
}
