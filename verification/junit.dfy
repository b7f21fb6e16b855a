/**
  A run's events as a JUnit report (pkgs/uml/uml/events.py:154-247). A row is a `<testcase>`, before
  it is put into XML.
*/
module JUnit {
  import opened Options

  datatype Kind = PhaseFinished | Case | OtherKind

  /** What the events carry in `data`: an absent field is None, or the empty string where the two are alike. */
  datatype Data = Data(
    state: string, outcome: string, byHand: bool, message: string, error: Option<string>, reason: Option<string>)

  datatype Event = Event(kind: Kind, phase: Option<string>, text: string, ms: int, data: Data)

  datatype Body = Plain | Failure(summary: string, error: string) | Skipped(reason: string)

  datatype Row = Row(classname: string, name: string, ms: int, body: Body)

  datatype Suite = Suite(name: string, rows: seq<Row>, failures: nat, skipped: nat, ms: int)

  predicate Kept(e: Event) {
    e.kind != OtherKind && !e.data.byHand
  }

  predicate FailingCase(e: Event) {
    e.kind == Case && (e.data.outcome == "failed" || e.data.outcome == "error")
  }

  predicate FailedPhase(e: Event) {
    e.kind == PhaseFinished && (e.data.state == "failed" || e.data.state == "interrupted")
  }

  predicate Failed(e: Event) {
    FailingCase(e) || FailedPhase(e)
  }

  /** The phases that have tests, and those with a failing one. */
  datatype Tested = Tested(withCases: set<Option<string>>, failing: set<Option<string>>)

  function TestedOf(kept: seq<Event>): Tested {
    Tested(set e | e in kept && e.kind == Case :: e.phase, set e | e in kept && FailingCase(e) :: e.phase)
  }

  predicate LineBreak(c: char) {
    c in {'\n', '\r'} || c as int in {0x0b, 0x0c, 0x1c, 0x1d, 0x1e, 0x85, 0x2028, 0x2029}
  }

  function UpToBreak(text: string): string {
    if text == "" || LineBreak(text[0]) then "" else [text[0]] + UpToBreak(text[1..])
  }

  /** What stands for an error in a table cell. */
  function FirstLine(error: string): string {
    if error == "" then "failed" else UpToBreak(error)
  }

  function Default(text: Option<string>, other: string): string {
    if text.Some? then text.value else other
  }

  /** The row's state: an error of a test, or an interruption of a phase, is a failure. */
  function StateOf(e: Event): (state: string)
    ensures e.kind != OtherKind ==> (state == "failed" <==> Failed(e))
  {
    if Failed(e) then "failed" else if e.kind == Case then e.data.outcome else e.data.state
  }

  function BodyOf(e: Event): (body: Body)
    ensures e.kind != OtherKind ==> (body.Failure? <==> Failed(e))
  {
    if StateOf(e) == "failed" then
      var error := Default(e.data.error, "failed");
      Failure(if e.data.message != "" then e.data.message else FirstLine(error), error)
    else if StateOf(e) == "skipped" then Skipped(Default(e.data.reason, "a phase it needs failed"))
    else Plain
  }

  predicate LeftOut(e: Event, tested: Tested) {
    && e.kind == PhaseFinished
    && (e.data.state == "deselected"
        || (e.phase in tested.withCases && !(StateOf(e) == "failed" && e.phase !in tested.failing)))
  }

  predicate HasRow(e: Event, tested: Tested) {
    Kept(e) && !LeftOut(e, tested)
  }

  function RowOf(name: string, e: Event): (row: Row)
    ensures row.body == BodyOf(e) && row.ms == e.ms
  {
    if e.kind == Case then Row(name + "." + Default(e.phase, "None"), e.text, e.ms, BodyOf(e))
    else Row(name, Default(e.phase, ""), e.ms, BodyOf(e))
  }

  /** The events of the report: those that were not by hand, of a phase's end or a test. */
  function KeptOf(events: seq<Event>): seq<Event> {
    if events == [] then []
    else KeptOf(events[..|events| - 1]) + if Kept(events[|events| - 1]) then [events[|events| - 1]] else []
  }

  /** Their rows, in their order, and the sums over them. */
  function SuiteFrom(name: string, events: seq<Event>, tested: Tested): Suite {
    if events == [] then Suite(name, [], 0, 0, 0)
    else
      var e := events[|events| - 1];
      var before := SuiteFrom(name, events[..|events| - 1], tested);
      if HasRow(e, tested) then AddRow(before, RowOf(name, e)) else before
  }

  function AddRow(suite: Suite, row: Row): Suite {
    Suite(suite.name, suite.rows + [row], suite.failures + if row.body.Failure? then 1 else 0,
          suite.skipped + if row.body.Skipped? then 1 else 0, suite.ms + row.ms)
  }

  function SuiteOf(name: string, events: seq<Event>): Suite {
    SuiteFrom(name, KeptOf(events), TestedOf(KeptOf(events)))
  }

  lemma {:induction false} KeptExactly(events: seq<Event>)
    ensures forall e :: e in KeptOf(events) <==> e in events && Kept(e)
    decreases |events|
  {
    if events != [] {
      KeptExactly(events[..|events| - 1]);
      assert forall e :: e in events <==> e in events[..|events| - 1] || e == events[|events| - 1];
    }
  }

  lemma OneMore(name: string, events: seq<Event>, i: nat, tested: Tested)
    requires i < |events|
    ensures var before := SuiteFrom(name, events[..i], tested);
      SuiteFrom(name, events[..i + 1], tested) ==
        if HasRow(events[i], tested) then AddRow(before, RowOf(name, events[i])) else before
  {
    assert events[..i + 1][..i] == events[..i];
  }

  /** `junit`, up to its XML. */
  method Report(name: string, events: seq<Event>) returns (suite: Suite)
    ensures suite == SuiteOf(name, events)
  {
    var kept := KeptOf(events);
    var tested := TestedOf(kept);
    var cases: seq<Row> := [];
    var failures: nat, skipped: nat, ms := 0, 0, 0;
    KeptExactly(events);
    assert kept[..0] == [];
    hide KeptOf, TestedOf, RowOf, BodyOf, LeftOut, Kept;
    for i := 0 to |kept|
      invariant Suite(name, cases, failures, skipped, ms) == SuiteFrom(name, kept[..i], tested)
    {
      OneMore(name, kept, i, tested);
      var event := kept[i];
      assert event in kept && Kept(event);
      if !LeftOut(event, tested) {
        var row := RowOf(name, event);
        ms := ms + row.ms;
        if row.body.Failure? {
          failures := failures + 1;
        } else if row.body.Skipped? {
          skipped := skipped + 1;
        }
        cases := cases + [row];
      }
    }
    assert kept[..|kept|] == kept;
    suite := Suite(name, cases, failures, skipped, ms);
  }

  // ── what the report agrees with ───────────────────────────────────

  /** The event is one of the report's, and has a row in it. */
  ghost predicate Shown(events: seq<Event>, e: Event) {
    e in KeptOf(events) && HasRow(e, TestedOf(KeptOf(events)))
  }

  /** A finished phase that failed, or was interrupted, has no row of its own exactly when a failing
      test of it has one. */
  lemma OwnRowUnlessShown(events: seq<Event>, e: Event)
    requires e in events && Kept(e) && FailedPhase(e)
    ensures !Shown(events, e) <==> exists c :: FailingCase(c) && c.phase == e.phase && Shown(events, c)
  {
    KeptExactly(events);
    if e.phase in TestedOf(KeptOf(events)).failing {
      var c :| c in KeptOf(events) && FailingCase(c) && c.phase == e.phase;
      assert Shown(events, c);
    }
  }

  /**
    An event has a row exactly if it was not by hand, and is a test's, or the end of a phase that somebody
    asked for and that either has no test in the report, or failed or was interrupted without a failing one.
  */
  lemma RowExactly(events: seq<Event>, e: Event)
    requires e in events
    ensures Shown(events, e) <==>
      && !e.data.byHand && e.kind != OtherKind
      && (e.kind == PhaseFinished ==>
            && e.data.state != "deselected"
            && ((forall c :: c in events && c.kind == Case && c.phase == e.phase ==> c.data.byHand)
                || (e.data.state in {"failed", "interrupted"}
                    && forall c :: c in events && c.kind == Case && c.phase == e.phase && !c.data.byHand ==>
                         c.data.outcome !in {"failed", "error"})))
  {
    KeptExactly(events);
    var tested := TestedOf(KeptOf(events));
    if c :| c in events && c.kind == Case && c.phase == e.phase && !c.data.byHand {
      assert c in KeptOf(events) && e.phase in tested.withCases;
    }
    if c :| c in events && FailingCase(c) && c.phase == e.phase && !c.data.byHand {
      assert c in KeptOf(events) && e.phase in tested.failing;
    }
  }

  /** The characters a line ends at, by their numbers: Python has ten. */
  const LINE_BOUNDARIES := {10, 11, 12, 13, 28, 29, 30, 133, 8232, 8233}

  /** The line a text begins with. */
  ghost predicate FirstLineIs(text: string, line: string) {
    && line <= text && (forall c :: c in line ==> c as int !in LINE_BOUNDARIES)
    && (|line| < |text| ==> text[|line|] as int in LINE_BOUNDARIES)
  }

  lemma {:induction false} UpToBreakIsLine(text: string)
    ensures FirstLineIs(text, UpToBreak(text))
    decreases |text|
  {
    if text != "" && !LineBreak(text[0]) {
      UpToBreakIsLine(text[1..]);
      assert text == [text[0]] + text[1..];
    }
  }

  /** A failure says the whole error, and in short the message or else the first line; a skip its reason. */
  lemma BodySays(e: Event)
    requires e.kind != OtherKind
    ensures var body, how := BodyOf(e), if e.kind == Case then e.data.outcome else e.data.state;
      var failed := if e.kind == Case then how in {"failed", "error"} else how in {"failed", "interrupted"};
      var error := if e.data.error.Some? then e.data.error.value else "failed";
      && (body.Failure? <==> failed) && (body.Skipped? <==> how == "skipped")
      && (failed ==> body.error == error)
      && (failed && e.data.message != "" ==> body.summary == e.data.message)
      && (failed && e.data.message == "" ==>
            if error == "" then body.summary == "failed" else FirstLineIs(error, body.summary))
      && (how == "skipped" ==>
            body.reason == if e.data.reason.Some? then e.data.reason.value else "a phase it needs failed")
  {
    UpToBreakIsLine(Default(e.data.error, "failed"));
    hide UpToBreak, FirstLineIs, LineBreak;
  }

  /**
    A row: a test's is classed under its phase, a phase's under the suite. It is a failure exactly if
    the test failed or broke down, or the phase failed or was interrupted; skipped if they were.
  */
  lemma RowSays(name: string, e: Event)
    requires e.kind != OtherKind
    ensures var row, how := RowOf(name, e), if e.kind == Case then e.data.outcome else e.data.state;
      && (row.body.Failure? <==> how == "failed" || how == if e.kind == Case then "error" else "interrupted")
      && (row.body.Skipped? <==> how == "skipped") && row.body == BodyOf(e) && row.ms == e.ms
      && row.name == (if e.kind == Case then e.text else if e.phase.Some? then e.phase.value else "")
      && row.classname ==
           (if e.kind == Case then name + "." + (if e.phase.Some? then e.phase.value else "None") else name)
  {
    BodySays(e);
    hide BodyOf, FirstLineIs;
  }

  ghost function FailureAt(rows: seq<Row>): set<nat> {
    set i: nat | i < |rows| && rows[i].body.Failure?
  }

  ghost function SkippedAt(rows: seq<Row>): set<nat> {
    set i: nat | i < |rows| && rows[i].body.Skipped?
  }

  ghost function Time(rows: seq<Row>): int {
    if rows == [] then 0 else Time(rows[..|rows| - 1]) + rows[|rows| - 1].ms
  }

  lemma OneMoreFailure(rows: seq<Row>, row: Row)
    ensures |FailureAt(rows + [row])| == |FailureAt(rows)| + if row.body.Failure? then 1 else 0
  {
    var more := if row.body.Failure? then {|rows|} else {};
    assert forall i: nat :: i in FailureAt(rows + [row]) <==> i in FailureAt(rows) + more;
    assert FailureAt(rows + [row]) == FailureAt(rows) + more;
  }

  lemma OneMoreSkipped(rows: seq<Row>, row: Row)
    ensures |SkippedAt(rows + [row])| == |SkippedAt(rows)| + if row.body.Skipped? then 1 else 0
  {
    var more := if row.body.Skipped? then {|rows|} else {};
    assert forall i: nat :: i in SkippedAt(rows + [row]) <==> i in SkippedAt(rows) + more;
    assert SkippedAt(rows + [row]) == SkippedAt(rows) + more;
  }

  /** The sums are over the rows. */
  lemma {:induction false} SumsExactly(name: string, events: seq<Event>, tested: Tested)
    ensures var suite := SuiteFrom(name, events, tested);
      && suite.failures == |FailureAt(suite.rows)| && suite.skipped == |SkippedAt(suite.rows)|
      && suite.ms == Time(suite.rows)
    decreases |events|
  {
    hide RowOf, HasRow;
    if events == [] {
      assert FailureAt([]) == {} && SkippedAt([]) == {};
    } else {
      var e := events[|events| - 1];
      var rows, row := SuiteFrom(name, events[..|events| - 1], tested).rows, RowOf(name, e);
      SumsExactly(name, events[..|events| - 1], tested);
      OneMoreFailure(rows, row);
      OneMoreSkipped(rows, row);
      assert (rows + [row])[..|rows|] == rows;
    }
  }

  /** The phases that failed, or one of whose tests did, as far as the report is of them. */
  function FailedPhases(events: seq<Event>): set<Option<string>> {
    set e | e in events && Kept(e) && Failed(e) :: e.phase
  }

  /** Of those, the ones with a row. */
  function ShownPhases(events: seq<Event>, tested: Tested): set<Option<string>> {
    set e | e in events && HasRow(e, tested) && Failed(e) :: e.phase
  }

  lemma OneMorePhase(events: seq<Event>, e: Event, tested: Tested)
    ensures ShownPhases(events + [e], tested) ==
      ShownPhases(events, tested) + if HasRow(e, tested) && Failed(e) then {e.phase} else {}
  {
    hide HasRow, Failed;
    assert forall x :: x in events + [e] <==> x in events || x == e;
  }

  /** Each has one, and there is no other failure. */
  lemma {:induction false} CountsFit(name: string, events: seq<Event>, tested: Tested)
    ensures var suite := SuiteFrom(name, events, tested);
      && suite.failures + suite.skipped <= |suite.rows|
      && |ShownPhases(events, tested)| <= suite.failures
      && (suite.failures == 0 <==> ShownPhases(events, tested) == {})
    decreases |events|
  {
    if events == [] {
      assert ShownPhases(events, tested) == {};
    } else {
      hide ShownPhases, BodyOf, StateOf, RowOf, Failed, LeftOut;
      var front, last := events[..|events| - 1], events[|events| - 1];
      CountsFit(name, front, tested);
      OneMorePhase(front, last, tested);
      assert front + [last] == events;
      OneMoreShown(ShownPhases(front, tested), last.phase);
    }
  }

  lemma OneMoreShown(shown: set<Option<string>>, phase: Option<string>)
    ensures |shown| <= |shown + {phase}| <= |shown| + 1 && shown + {} == shown
  {
    assert shown + {phase} == shown + ({phase} - shown);
    assert {phase} - shown == {} || {phase} - shown == {phase};
  }

  lemma FailedAreShown(events: seq<Event>)
    ensures ShownPhases(KeptOf(events), TestedOf(KeptOf(events))) == FailedPhases(events)
  {
    KeptExactly(events);
    forall p | p in FailedPhases(events) ensures p in ShownPhases(KeptOf(events), TestedOf(KeptOf(events))) {
      var e :| e in events && Kept(e) && Failed(e) && e.phase == p;
      if FailedPhase(e) {
        OwnRowUnlessShown(events, e);
      }
    }
  }

  /**
    What the run says of a phase, its report says: each phase that failed, was interrupted or has a
    failing test contributes a failure of its own, and without such a phase there is none. The counts
    fit the rows.
  */
  lemma ReportAgrees(name: string, events: seq<Event>)
    ensures var suite := SuiteOf(name, events);
      && suite.failures + suite.skipped <= |suite.rows|
      && |FailedPhases(events)| <= suite.failures
      && (suite.failures == 0 <==> FailedPhases(events) == {})
  {
    CountsFit(name, KeptOf(events), TestedOf(KeptOf(events)));
    FailedAreShown(events);
  }

  lemma {:induction false} KeptConcat(a: seq<Event>, b: seq<Event>)
    ensures KeptOf(a + b) == KeptOf(a) + KeptOf(b)
    decreases |b|
  {
    if b == [] {
      assert a + b == a;
    } else {
      var front := b[..|b| - 1];
      KeptConcat(a, front);
      assert (a + b)[..|a + b| - 1] == a + front;
    }
  }

  /** So the events of the report are the run's, in its order and each as often, less what is not for it. */
  lemma KeptOne(e: Event)
    ensures KeptOf([e]) == if e.kind != OtherKind && !e.data.byHand then [e] else []
  {
    assert [e][..0] == [];
  }

  /** What was run by hand, at any time, changes nothing of the report. */
  lemma ByHandCountsForNothing(name: string, before: seq<Event>, e: Event, later: seq<Event>)
    requires e.data.byHand
    ensures SuiteOf(name, before + [e] + later) == SuiteOf(name, before + later)
  {
    KeptConcat(before + [e], later);
    KeptConcat(before, [e]);
    KeptConcat(before, later);
    KeptOne(e);
    assert KeptOf(before) + [] == KeptOf(before);
  }

  // ── into XML ──────────────────────────────────────────────────────

  /** Every occurrence of one character replaced. */
  function Replace(text: string, needle: char, with: string): string {
    if text == "" then "" else ReplaceChar(text[0], needle, with) + Replace(text[1..], needle, with)
  }

  function ReplaceChar(c: char, needle: char, with: string): string {
    if c == needle then with else [c]
  }

  /** `_xml_escape`. */
  function XmlEscape(text: string): string {
    Replace(Replace(Replace(Replace(text, '&', "&amp;"), '<', "&lt;"), '>', "&gt;"), '"', "&quot;")
  }

  /** What section 2.4 of XML 1.0 has for each character, by the entities of its section 4.6. */
  function EscapedChar(c: char): string {
    if c == '&' then "&amp;"
    else if c == '<' then "&lt;"
    else if c == '>' then "&gt;"
    else if c == '"' then "&quot;"
    else [c]
  }

  function Escaped(text: string): string {
    if text == "" then "" else EscapedChar(text[0]) + Escaped(text[1..])
  }

  /** An XML reader's way back: the four entities, wherever one begins. */
  function Unescaped(text: string): string {
    if text == "" then ""
    else if "&amp;" <= text then "&" + Unescaped(text[5..])
    else if "&lt;" <= text then "<" + Unescaped(text[4..])
    else if "&gt;" <= text then ">" + Unescaped(text[4..])
    else if "&quot;" <= text then "\"" + Unescaped(text[6..])
    else [text[0]] + Unescaped(text[1..])
  }

  lemma {:induction false} ReplaceConcat(a: string, b: string, needle: char, with: string)
    ensures Replace(a + b, needle, with) == Replace(a, needle, with) + Replace(b, needle, with)
    decreases |a|
  {
    if a == "" {
      assert a + b == b;
    } else {
      assert (a + b)[0] == a[0] && (a + b)[1..] == a[1..] + b;
      ReplaceConcat(a[1..], b, needle, with);
    }
  }

  /** Text without the needle is left alone. */
  lemma {:induction false} ReplaceNothing(text: string, needle: char, with: string)
    requires needle !in text
    ensures Replace(text, needle, with) == text
    decreases |text|
  {
    if text != "" {
      ReplaceNothing(text[1..], needle, with);
      assert [text[0]] + text[1..] == text;
    }
  }

  lemma ReplaceOne(c: char, needle: char, with: string)
    ensures Replace([c], needle, with) == ReplaceChar(c, needle, with)
  {
    var one := [c];
    assert one[1..] == "";
    assert ReplaceChar(c, needle, with) + "" == ReplaceChar(c, needle, with);
  }

  /** The four replacements of one character, the ampersand's first. */
  lemma EscapeOne(c: char)
    ensures XmlEscape([c]) == EscapedChar(c)
  {
    hide Replace;
    ReplaceOne(c, '&', "&amp;");
    var first := ReplaceChar(c, '&', "&amp;");
    if c == '&' {
      ReplaceNothing(first, '<', "&lt;");
      ReplaceNothing(first, '>', "&gt;");
      ReplaceNothing(first, '"', "&quot;");
    } else {
      ReplaceOne(c, '<', "&lt;");
      if c == '<' {
        ReplaceNothing("&lt;", '>', "&gt;");
        ReplaceNothing("&lt;", '"', "&quot;");
      } else {
        ReplaceOne(c, '>', "&gt;");
        if c == '>' {
          ReplaceNothing("&gt;", '"', "&quot;");
        } else {
          ReplaceOne(c, '"', "&quot;");
        }
      }
    }
  }

  lemma XmlEscapeConcat(a: string, b: string)
    ensures XmlEscape(a + b) == XmlEscape(a) + XmlEscape(b)
  {
    var a1, b1 := Replace(a, '&', "&amp;"), Replace(b, '&', "&amp;");
    var a2, b2 := Replace(a1, '<', "&lt;"), Replace(b1, '<', "&lt;");
    ReplaceConcat(a, b, '&', "&amp;");
    ReplaceConcat(a1, b1, '<', "&lt;");
    ReplaceConcat(a2, b2, '>', "&gt;");
    ReplaceConcat(Replace(a2, '>', "&gt;"), Replace(b2, '>', "&gt;"), '"', "&quot;");
  }

  /** Four passes over the whole text, each over what the last one put there, come to one pass over
      its characters. */
  lemma {:induction false} ChainIsMap(text: string)
    ensures XmlEscape(text) == Escaped(text)
    decreases |text|
  {
    if text != "" {
      EscapeOne(text[0]);
      ChainIsMap(text[1..]);
      XmlEscapeConcat([text[0]], text[1..]);
      hide XmlEscape;
      assert [text[0]] + text[1..] == text;
    }
  }

  lemma UnescapeFront(c: char, rest: string)
    ensures Unescaped(EscapedChar(c) + rest) == [c] + Unescaped(rest)
  {
    var all := EscapedChar(c) + rest;
    var n := |EscapedChar(c)|;
    assert all[n..] == rest && all[..n] == EscapedChar(c);
    assert all[0] == EscapedChar(c)[0];
    if c in {'<', '>', '"'} {
      assert all[1] == EscapedChar(c)[1];
    }
    if c == '"' {
      assert "&quot;" <= all;
    }
  }

  /** A reader has the text back, and no markup can be made of it or of the attribute it is in. */
  lemma {:induction false} EscapeRoundTrip(text: string)
    ensures Unescaped(XmlEscape(text)) == text
    ensures forall c :: c in XmlEscape(text) ==> c !in {'<', '>', '"'}
    decreases |text|
  {
    ChainIsMap(text);
    EscapedIsClean(text);
    UnescapedEscaped(text);
  }

  lemma {:induction false} EscapedIsClean(text: string)
    ensures forall c :: c in Escaped(text) ==> c !in {'<', '>', '"'}
    decreases |text|
  {
    if text != "" {
      EscapedIsClean(text[1..]);
    }
  }

  lemma {:induction false} UnescapedEscaped(text: string)
    ensures Unescaped(Escaped(text)) == text
    decreases |text|
  {
    if text != "" {
      UnescapedEscaped(text[1..]);
      UnescapeFront(text[0], Escaped(text[1..]));
      assert [text[0]] + text[1..] == text;
    }
  }

  // ── what a document can hold, and keep ────────────────────────────

  /** The characters section 2.2 of XML 1.0 has; a `char` is never a surrogate. */
  predicate Legal(c: char) {
    var n := c as int;
    n in {0x9, 0xa, 0xd} || 0x20 <= n <= 0xd7ff || 0xe000 <= n <= 0xfffd || 0x1_0000 <= n <= 0x10_ffff
  }

  /** Section 2.11: however a line ends, a reader is given a newline. */
  function LineEnds(text: string): string {
    if text == "" then ""
    else if text[0] != '\r' then [text[0]] + LineEnds(text[1..])
    else if |text| > 1 && text[1] == '\n' then LineEnds(text[1..])
    else "\n" + LineEnds(text[1..])
  }

  /** Section 3.3.3: white space in the value of an attribute is given as spaces. */
  function Spaced(text: string): string {
    seq(|text|, i requires 0 <= i < |text| => if text[i] in {'\t', '\n', '\r'} then ' ' else text[i])
  }

  /** A character that is neither escaped nor in an entity is there once escaped exactly if it was before. */
  lemma {:induction false} EscapedHolds(text: string, c: char)
    requires c !in {'&', '<', '>', '"'} && c !in "ampltgquo;"
    ensures c in Escaped(text) <==> c in text
    decreases |text|
  {
    if text != "" {
      EscapedHolds(text[1..], c);
      assert c in text <==> c == text[0] || c in text[1..];
      assert c in EscapedChar(text[0]) <==> c == text[0];
    }
  }

  /** Escaping makes no text legal that was not, and none illegal: an ANSI escape stays one. */
  lemma LegalExactly(text: string)
    ensures (forall c :: c in XmlEscape(text) ==> Legal(c)) <==> forall c :: c in text ==> Legal(c)
  {
    ChainIsMap(text);
    forall c | !Legal(c) ensures c in Escaped(text) <==> c in text {
      EscapedHolds(text, c);
    }
  }

  /** Unescaping puts nothing there but what the entities stand for. */
  lemma {:induction false} UnescapedHolds(text: string, c: char)
    requires c !in text && c !in {'&', '<', '>', '"'}
    ensures c !in Unescaped(text)
    decreases |text|
  {
    if text != "" {
      var n := if "&amp;" <= text then 5 else if "&lt;" <= text || "&gt;" <= text then 4
               else if "&quot;" <= text then 6 else 1;
      assert forall x :: x in text[n..] ==> x in text;
      UnescapedHolds(text[n..], c);
    }
  }

  lemma EndingIsNewline(ending: string, rest: string)
    requires ending in {"\n", "\r\n"} || (ending == "\r" && !("\n" <= rest))
    ensures LineEnds(ending + rest) == "\n" + LineEnds(rest)
  {
    var text := ending + rest;
    assert text[|ending|..] == rest;
    if ending == "\r\n" {
      assert text[1..][0] == '\n' && text[1..][1..] == rest;
    }
  }

  lemma {:induction false} LineKept(line: string, tail: string)
    requires '\r' !in line
    ensures LineEnds(line + tail) == line + LineEnds(tail)
    decreases |line|
  {
    if line == "" {
      assert line + tail == tail;
    } else {
      LineKept(line[1..], tail);
      assert (line + tail)[1..] == line[1..] + tail;
      assert [line[0]] + (line[1..] + LineEnds(tail)) == line + LineEnds(tail);
    }
  }

  /** A line is kept, and ends with a newline, if with that, a carriage return alone, or one and then that. */
  lemma LineEndsExactly(line: string, ending: string, rest: string)
    requires '\r' !in line
    requires ending in {"\n", "\r\n"} || (ending == "\r" && !("\n" <= rest))
    ensures LineEnds(line + ending + rest) == line + "\n" + LineEnds(rest)
  {
    LineKept(line, ending + rest);
    EndingIsNewline(ending, rest);
    hide LineEnds;
    assert line + (ending + rest) == line + ending + rest;
    assert line + ("\n" + LineEnds(rest)) == line + "\n" + LineEnds(rest);
  }

  lemma {:induction false} LineEndsKeep(text: string)
    ensures '\r' !in LineEnds(text) && ('\r' !in text ==> LineEnds(text) == text)
    decreases |text|
  {
    if text != "" {
      LineEndsKeep(text[1..]);
      assert [text[0]] + text[1..] == text;
    }
  }

  /** The body of a failure comes back as it was exactly if it has no carriage return. */
  lemma BodyKept(text: string)
    ensures Unescaped(LineEnds(XmlEscape(text))) == text <==> '\r' !in text
  {
    EscapeRoundTrip(text);
    ChainIsMap(text);
    EscapedHolds(text, '\r');
    LineEndsKeep(XmlEscape(text));
    UnescapedHolds(LineEnds(XmlEscape(text)), '\r');
  }

  /** And its message exactly if it has no white space but spaces. */
  lemma AttributeKept(text: string)
    ensures Unescaped(Spaced(LineEnds(XmlEscape(text)))) == text
      <==> '\t' !in text && '\n' !in text && '\r' !in text
  {
    EscapeRoundTrip(text);
    LineEndsKeep(XmlEscape(text));
    SpacedKeeps(LineEnds(XmlEscape(text)));
    ChainIsMap(text);
    hide Escaped, XmlEscape, LineEnds, Spaced, Unescaped;
    EscapedHolds(text, '\t');
    EscapedHolds(text, '\n');
    EscapedHolds(text, '\r');
    NoneUnescaped(Spaced(LineEnds(XmlEscape(text))));
  }

  lemma SpacedKeeps(text: string)
    ensures '\t' !in Spaced(text) && '\n' !in Spaced(text) && '\r' !in Spaced(text)
    ensures '\t' !in text && '\n' !in text && '\r' !in text ==> Spaced(text) == text
  {
  }

  lemma NoneUnescaped(text: string)
    requires '\t' !in text && '\n' !in text && '\r' !in text
    ensures '\t' !in Unescaped(text) && '\n' !in Unescaped(text) && '\r' !in Unescaped(text)
  {
    UnescapedHolds(text, '\t');
    UnescapedHolds(text, '\n');
    UnescapedHolds(text, '\r');
  }
}
