/**
  The time a run's steps cover, counted by a sweep (pkgs/uml-runner/uml_runner/report.py:39-79,
  167-185), in whole milliseconds.
*/
module Report {
  datatype Step = Step(at: int, machine: string, kind: string, what: string, ms: int)

  const WIDTH := 200
  const BEFORE_ALL := -1000

  function End(s: Step): int {
    s.at + s.ms
  }

  /** Earlier steps first, and of those that begin together the longer. */
  predicate Precedes(s: Step, t: Step) {
    s.at < t.at || (s.at == t.at && s.ms >= t.ms)
  }

  function Insert(sorted: seq<Step>, s: Step): seq<Step> {
    if sorted == [] then [s]
    else if Precedes(sorted[0], s) then [sorted[0]] + Insert(sorted[1..], s)
    else [s] + sorted
  }

  /** In that order; steps alike in both stay as they came. */
  function SortedSteps(steps: seq<Step>): seq<Step> {
    if steps == [] then [] else Insert(SortedSteps(steps[..|steps| - 1]), steps[|steps| - 1])
  }

  /** The steps the sweep counts, the last of which ended at `end`. */
  function Counted(sorted: seq<Step>): seq<Step> {
    if sorted == [] then []
    else
      var s := sorted[|sorted| - 1];
      Counted(sorted[..|sorted| - 1]) + if s.at >= Reached(sorted[..|sorted| - 1]) then [s] else []
  }

  function Reached(sorted: seq<Step>): int {
    if sorted == [] then BEFORE_ALL
    else
      var s, before := sorted[|sorted| - 1], Reached(sorted[..|sorted| - 1]);
      if s.at >= before then End(s) else before
  }

  function Total(steps: seq<Step>): int {
    if steps == [] then 0 else Total(steps[..|steps| - 1]) + steps[|steps| - 1].ms
  }

  lemma OneMore(sorted: seq<Step>, s: Step)
    ensures Reached(sorted + [s]) == if s.at >= Reached(sorted) then End(s) else Reached(sorted)
    ensures Counted(sorted + [s]) == Counted(sorted) + if s.at >= Reached(sorted) then [s] else []
    ensures Total(sorted + [s]) == Total(sorted) + s.ms
  {
    assert (sorted + [s])[..|sorted|] == sorted;
  }

  /** One step of the sweep. */
  lemma SweepOne(sorted: seq<Step>, i: nat)
    requires i < |sorted|
    ensures var s, end := sorted[i], Reached(sorted[..i]);
      && Reached(sorted[..i + 1]) == (if s.at >= end then s.at + s.ms else end)
      && Total(Counted(sorted[..i + 1])) == Total(Counted(sorted[..i])) + (if s.at >= end then s.ms else 0)
  {
    hide Counted, Reached, Total;
    assert sorted[..i + 1] == sorted[..i] + [sorted[i]];
    OneMore(sorted[..i], sorted[i]);
    OneMore(Counted(sorted[..i]), sorted[i]);
    assert Counted(sorted[..i]) + [] == Counted(sorted[..i]);
  }

  /** `_toplevel`. */
  method Toplevel(steps: seq<Step>) returns (total: int)
    ensures total == Total(Counted(SortedSteps(steps)))
  {
    var sorted := SortedSteps(steps);
    total := 0;
    var end := BEFORE_ALL;
    assert sorted[..0] == [];
    assert Total(Counted(sorted[..0])) == 0 && Reached(sorted[..0]) == BEFORE_ALL;
    hide Counted, Reached, Total, SortedSteps;
    for i := 0 to |sorted|
      invariant total == Total(Counted(sorted[..i])) && end == Reached(sorted[..i])
    {
      var s := sorted[i];
      SweepOne(sorted, i);
      if s.at >= end {
        total := total + s.ms;
        end := s.at + s.ms;
      }
    }
    assert sorted[..|sorted|] == sorted;
  }

  // ── what it is to count ───────────────────────────────────────────

  function Cells(from: int, to: int): (cells: set<int>)
    ensures forall t :: t in cells <==> from <= t < to
    decreases if from < to then to - from else 0
  {
    if from < to then Cells(from, to - 1) + {to - 1} else {}
  }

  /** Every millisecond some step covers. */
  function Covered(steps: seq<Step>): set<int> {
    if steps == [] then {} else Covered(steps[..|steps| - 1]) + Cells(steps[|steps| - 1].at, End(steps[|steps| - 1]))
  }

  lemma {:induction false} CellCount(from: int, to: int)
    requires from <= to
    ensures |Cells(from, to)| == to - from
    decreases if from < to then to - from else 0
  {
    if from < to {
      CellCount(from, to - 1);
    }
  }

  lemma {:induction false} CoveredExactly(steps: seq<Step>, t: int)
    ensures t in Covered(steps) <==> exists s :: s in steps && s.at <= t < End(s)
    decreases |steps|
  {
    if steps != [] {
      CoveredExactly(steps[..|steps| - 1], t);
      assert forall s :: s in steps <==> s in steps[..|steps| - 1] || s == steps[|steps| - 1];
    }
  }

  predicate Lengths(steps: seq<Step>) {
    forall s :: s in steps ==> s.ms >= 0
  }

  predicate InOrder(steps: seq<Step>) {
    forall i, j :: 0 <= i < j < |steps| ==> Precedes(steps[i], steps[j])
  }

  lemma {:induction false} InsertKeeps(sorted: seq<Step>, s: Step)
    ensures forall x :: x in Insert(sorted, s) <==> x in sorted || x == s
    decreases |sorted|
  {
    if sorted != [] {
      assert forall x :: x in sorted <==> x == sorted[0] || x in sorted[1..];
      InsertKeeps(sorted[1..], s);
    }
  }

  lemma {:induction false} InsertSorts(sorted: seq<Step>, s: Step)
    requires InOrder(sorted)
    ensures InOrder(Insert(sorted, s))
    decreases |sorted|
  {
    if sorted != [] && Precedes(sorted[0], s) {
      var rest := Insert(sorted[1..], s);
      InsertSorts(sorted[1..], s);
      InsertKeeps(sorted[1..], s);
      hide Insert;
      forall i | 0 <= i < |rest| ensures Precedes(sorted[0], rest[i]) {
        assert rest[i] in rest;
        if rest[i] != s {
          var j :| 0 <= j < |sorted[1..]| && sorted[1..][j] == rest[i];
          assert sorted[j + 1] == rest[i];
        }
      }
    }
  }

  lemma {:induction false} SortedExactly(steps: seq<Step>)
    ensures InOrder(SortedSteps(steps))
    ensures forall s :: s in SortedSteps(steps) <==> s in steps
    decreases |steps|
  {
    if steps != [] {
      var front, last := steps[..|steps| - 1], steps[|steps| - 1];
      SortedExactly(front);
      InsertSorts(SortedSteps(front), last);
      InsertKeeps(SortedSteps(front), last);
      hide Insert, Precedes;
      assert forall s :: s in steps <==> s in front || s == last;
    }
  }

  /** Sorting changes nothing of what is covered. */
  lemma SortedCovers(steps: seq<Step>)
    ensures Covered(SortedSteps(steps)) == Covered(steps)
  {
    SortedExactly(steps);
    forall t ensures t in Covered(SortedSteps(steps)) <==> t in Covered(steps) {
      CoveredExactly(SortedSteps(steps), t);
      CoveredExactly(steps, t);
    }
  }

  /** Each counted step starts where or after the one before it ended. */
  ghost predicate Apart(steps: seq<Step>) {
    forall i, j :: 0 <= i < j < |steps| ==> End(steps[i]) <= steps[j].at
  }

  lemma {:induction false} CountedApart(sorted: seq<Step>)
    requires Lengths(sorted)
    ensures Apart(Counted(sorted)) && Lengths(Counted(sorted))
    ensures forall s :: s in Counted(sorted) ==> s in sorted && End(s) <= Reached(sorted)
    decreases |sorted|
  {
    if sorted != [] {
      var front, last := sorted[..|sorted| - 1], sorted[|sorted| - 1];
      CountedApart(front);
      assert forall s :: s in front ==> s in sorted;
      assert last in sorted;
      var before := Counted(front);
      assert forall i :: 0 <= i < |before| ==> before[i] in before;
      hide Counted, Reached;
      assert last.at >= Reached(front) ==> Apart(before + [last]);
    }
  }

  /** So their lengths add up to what they cover. */
  lemma {:induction false} ApartCovers(steps: seq<Step>)
    requires Apart(steps) && Lengths(steps)
    ensures |Covered(steps)| == Total(steps)
    decreases |steps|
  {
    if steps != [] {
      var front, last := steps[..|steps| - 1], steps[|steps| - 1];
      ApartCovers(front);
      CellCount(last.at, End(last));
      forall t | t in Covered(front) ensures t < last.at {
        CoveredExactly(front, t);
      }
      assert Covered(front) !! Cells(last.at, End(last));
    }
  }

  lemma SmallerSubset(a: set<int>, b: set<int>)
    requires a <= b
    ensures |b| == |a| + |b - a|
  {
    assert b == a + (b - a);
  }

  /**
    Whatever the steps, overlapping at will: the counted ones are among them and apart from each
    other, so the sum falls short of the time covered by exactly what no counted step covers.
  */
  lemma NeverTooMuch(steps: seq<Step>)
    requires Lengths(steps)
    ensures var counted := Counted(SortedSteps(steps));
      && (forall s :: s in counted ==> s in steps) && Apart(counted)
      && Total(counted) == |Covered(steps)| - |Covered(steps) - Covered(counted)|
  {
    SortedExactly(steps);
    SortedCovers(steps);
    var sorted := SortedSteps(steps);
    CountedApart(sorted);
    var counted := Counted(sorted);
    ApartCovers(counted);
    forall t | t in Covered(counted) ensures t in Covered(steps) {
      CoveredExactly(counted, t);
      CoveredExactly(steps, t);
    }
    SmallerSubset(Covered(counted), Covered(steps));
  }

  /** Two steps of which one is inside the other, or which share no more than an instant. */
  predicate Nested(s: Step, t: Step) {
    || End(s) <= t.at || End(t) <= s.at
    || (t.at <= s.at && End(s) <= End(t)) || (s.at <= t.at && End(t) <= End(s))
  }

  predicate Laminar(steps: seq<Step>) {
    forall s, t :: s in steps && t in steps ==> Nested(s, t)
  }

  predicate Started(steps: seq<Step>) {
    forall s :: s in steps ==> s.at >= BEFORE_ALL
  }

  /** A step the sweep passes over lies inside the last it counted. */
  lemma SkippedIsInside(c: Step, s: Step)
    requires Precedes(c, s) && Nested(c, s) && s.at < End(c) && s.ms >= 0
    ensures Cells(s.at, End(s)) <= Cells(c.at, End(c))
  {
  }

  /** Every step so far is covered by what the sweep counted, the last of which ended where it is. */
  lemma {:induction false} CountedCovers(sorted: seq<Step>)
    requires InOrder(sorted) && Laminar(sorted) && Lengths(sorted) && Started(sorted)
    ensures Covered(Counted(sorted)) == Covered(sorted)
    ensures sorted != [] ==> var c := Counted(sorted);
      c != [] && End(c[|c| - 1]) == Reached(sorted) && c[|c| - 1] in sorted
    decreases |sorted|
  {
    if sorted != [] {
      var front, last := sorted[..|sorted| - 1], sorted[|sorted| - 1];
      assert forall s :: s in front ==> s in sorted;
      assert last in sorted && sorted == front + [last];
      CountedCovers(front);
      OneMore(front, last);
      CoveredOneMore(front, last);
      CoveredOneMore(Counted(front), last);
      if last.at < Reached(front) {
        hide Counted, Reached, Total, Covered;
        SkippedIsCovered(sorted, Counted(front));
        assert Counted(front) + [] == Counted(front);
      }
    }
  }

  lemma CoveredOneMore(steps: seq<Step>, s: Step)
    ensures Covered(steps + [s]) == Covered(steps) + Cells(s.at, End(s))
  {
    assert (steps + [s])[..|steps|] == steps;
  }

  lemma SkippedIsCovered(sorted: seq<Step>, counted: seq<Step>)
    requires InOrder(sorted) && Laminar(sorted) && Lengths(sorted) && sorted != [] && counted != []
    requires counted[|counted| - 1] in sorted[..|sorted| - 1]
    requires sorted[|sorted| - 1].at < End(counted[|counted| - 1])
    ensures Cells(sorted[|sorted| - 1].at, End(sorted[|sorted| - 1])) <= Covered(counted)
  {
    var front, last, c := sorted[..|sorted| - 1], sorted[|sorted| - 1], counted[|counted| - 1];
    var i :| 0 <= i < |front| && front[i] == c;
    assert sorted[i] == c && c in sorted && last in sorted;
    SkippedIsInside(c, last);
    LastIsCovered(counted);
  }

  lemma LastIsCovered(steps: seq<Step>)
    requires steps != []
    ensures Cells(steps[|steps| - 1].at, End(steps[|steps| - 1])) <= Covered(steps)
  {
  }

  /** Of steps that nest, the sweep's sum is the time they cover. */
  lemma NestedIsExact(steps: seq<Step>)
    requires Laminar(steps) && Lengths(steps) && Started(steps)
    ensures Total(Counted(SortedSteps(steps))) == |Covered(steps)|
  {
    SortedExactly(steps);
    CountedCovers(SortedSteps(steps));
    SortedCovers(steps);
    NeverTooMuch(steps);
    assert Covered(steps) - Covered(steps) == {};
  }

  /** Two guests that boot together, the second starting later and ending later: the sum leaves out
      the end of the second. */
  lemma OverlapIsLost(a: Step, b: Step)
    requires BEFORE_ALL <= a.at < b.at < End(a) < End(b)
    ensures Total(Counted(SortedSteps([a, b]))) == a.ms < |Covered([a, b])| == End(b) - a.at
  {
    hide SortedSteps, Counted, Reached, Total, Covered, Cells;
    SortedPair(a, b);
    JustOne(a);
    OneMore([a], b);
    CoveredOneMore([a], b);
    CellCount(a.at, End(b));
    var none: seq<Step> := [];
    assert [a] + [b] == [a, b] && [a] + none == [a];
    assert Covered([a, b]) == Cells(a.at, End(b));
  }

  lemma SortedPair(a: Step, b: Step)
    requires Precedes(a, b)
    ensures SortedSteps([a, b]) == [a, b]
  {
    var none: seq<Step> := [];
    assert [a, b][..1] == [a] && [a][1..] == none && [a][..0] == none;
    assert SortedSteps([a]) == [a];
    assert Insert([a], b) == [a] + Insert(none, b);
  }

  lemma JustOne(a: Step)
    requires a.at >= BEFORE_ALL
    ensures Counted([a]) == [a] && Reached([a]) == End(a) && Total([a]) == a.ms && Covered([a]) == Cells(a.at, End(a))
  {
    var none: seq<Step> := [];
    assert none + [a] == [a];
    OneMore(none, a);
    CoveredOneMore(none, a);
  }

  /** A step recorded already that began before this one, and ended inside it. */
  predicate Crosses(s: Step, t: Step) {
    s.at < t.at < End(s) < End(t)
  }

  lemma NestedSteps(s: Step, t: Step)
    requires End(s) <= End(t) && s.ms >= 0 && t.ms >= 0
    ensures !Nested(s, t) <==> Crosses(s, t)
    ensures Nested(s, t) <==> Nested(t, s)
  {
  }

  lemma OneMoreLaminar(steps: seq<Step>, t: Step)
    requires forall s :: s in steps ==> End(s) <= End(t) && s.ms >= 0
    requires t.ms >= 0
    ensures Laminar(steps + [t]) <==> Laminar(steps) && forall s :: s in steps ==> !Crosses(s, t)
  {
    var more := steps + [t];
    assert more[|steps|] == t && forall s :: s in more <==> s in steps || s == t;
    forall s | s in steps ensures !Nested(s, t) <==> Crosses(s, t) {
      NestedSteps(s, t);
    }
    forall s | s in steps ensures Nested(s, t) <==> Nested(t, s) {
      NestedSteps(s, t);
    }
  }

  // ── as a run records them ─────────────────────────────────────────

  /** A run's report, and the timers that are running: any of them may end next, as phases do. */
  class Recorder {
    const started: int
    var now: int
    /** When each timer that has not ended began, in that order. */
    var open: seq<int>
    var steps: seq<Step>

    ghost predicate Valid()
      reads this
    {
      && started <= now
      && (forall o :: o in open ==> started <= o <= now)
      && (forall i, j :: 0 <= i < j < |open| ==> open[i] <= open[j])
      && (forall s :: s in steps ==> 0 <= s.at && 0 <= s.ms && started + End(s) <= now)
    }

    constructor (clock: int)
      ensures Valid() && now == started == clock && open == [] && steps == []
    {
      started, now, open, steps := clock, clock, [], [];
    }

    method Tick(ms: nat)
      requires Valid()
      modifies `now
      ensures Valid() && now == old(now) + ms
    {
      now := now + ms;
    }

    method Enter()
      requires Valid()
      modifies `open
      ensures Valid() && open == old(open) + [now]
    {
      open := open + [now];
      assert forall o :: o in open <==> o in old(open) || o == now;
      assert forall i :: 0 <= i < |old(open)| ==> old(open)[i] in old(open);
    }

    /**
      `step`: a step of this length that ends now, after all recorded before it. It keeps the steps
      nested exactly if none of those began before it and ended inside it.
    */
    method Record(machine: string, kind: string, what: string, ms: int)
      requires Valid() && 0 <= ms <= now - started
      modifies `steps
      ensures Valid() && |steps| == |old(steps)| + 1 && old(steps) <= steps
      ensures var last := steps[|steps| - 1];
        && started + End(last) == now && last.ms == ms && last.machine == machine && last.kind == kind
        && last.what <= what && |last.what| == (if |what| <= 200 then |what| else 200)
        && (forall s :: s in old(steps) ==> End(s) <= End(last))
        && (Laminar(steps) <==> Laminar(old(steps)) && forall s :: s in old(steps) ==> !Crosses(s, last))
    {
      var last := Step(now - started - ms, machine, kind, Truncated(what), ms);
      OneMoreLaminar(steps, last);
      steps := steps + [last];
      assert forall s :: s in steps <==> s in old(steps) || s == last;
    }

    /** The timer that began i-th of those running ends. */
    method Exit(i: nat, machine: string, kind: string, what: string)
      requires Valid() && i < |open|
      modifies `open, `steps
      ensures Valid() && open == old(open[..i] + open[i + 1..]) && |steps| == |old(steps)| + 1 && old(steps) <= steps
      ensures var last := steps[|steps| - 1];
        && started + last.at == old(open[i]) && started + End(last) == now
        && (Laminar(steps) <==> Laminar(old(steps)) && forall s :: s in old(steps) ==> !Crosses(s, last))
    {
      var began := open[i];
      assert began in open;
      open := open[..i] + open[i + 1..];
      assert forall o :: o in open ==> o in old(open);
      Record(machine, kind, what, now - began);
    }

    /** The sum is the time covered where the steps nest, and else falls short by what it passed over. */
    method Accounted() returns (total: int)
      requires Valid()
      ensures total == |Covered(steps)| - |Covered(steps) - Covered(Counted(SortedSteps(steps)))|
      ensures Laminar(steps) ==> total == |Covered(steps)|
    {
      NeverTooMuch(steps);
      if Laminar(steps) {
        NestedIsExact(steps);
      }
      total := Toplevel(steps);
    }
  }

  lemma CoveredPair(inner: Step, outer: Step)
    requires outer.at <= inner.at && End(inner) <= End(outer) && inner.ms >= 0 && outer.ms >= 0
    ensures |Covered([inner, outer])| == outer.ms
  {
    hide Cells;
    var none: seq<Step> := [];
    assert Covered(none) == {};
    hide Covered;
    CoveredOneMore(none, inner);
    CoveredOneMore([inner], outer);
    CellCount(outer.at, End(outer));
    assert none + [inner] == [inner] && [inner] + [outer] == [inner, outer];
    assert Covered([inner, outer]) == Cells(outer.at, End(outer));
  }

  lemma OneIsLaminar(s: Step)
    ensures Laminar([s])
  {
  }

  /** Timers that end innermost first: the steps nest, and the whole time is accounted for. */
  method TimersInside(clock: int, before: nat, inside: nat, after: nat) returns (total: int)
    ensures total == before + inside + after
  {
    hide Laminar, Covered, Counted, SortedSteps, Recorder.Valid;
    var run := new Recorder(clock);
    run.Enter();
    run.Tick(before);
    run.Enter();
    run.Tick(inside);
    run.Exit(1, "one", "rpc", "true");
    ghost var inner := run.steps[0];
    run.Tick(after);
    assert run.steps == [inner];
    run.Exit(0, "one", "wait", "for it");
    ghost var outer := run.steps[1];
    assert run.steps == [inner, outer] && outer.at == 0 && End(outer) == before + inside + after;
    OneIsLaminar(inner);
    CoveredPair(inner, outer);
    total := run.Accounted();
  }

  /** Two phases side by side, the first begun ending first: what the second ran after it is left out. */
  method PhasesSideBySide(clock: int, alone: nat, together: nat, after: nat) returns (total: int, steps: seq<Step>)
    requires alone > 0 && together > 0 && after > 0
    ensures |Covered(steps)| == alone + together + after && total == alone + together
  {
    hide Laminar, Crosses, Covered, Counted, SortedSteps, Total, Recorder.Valid;
    var run := new Recorder(clock);
    run.Enter();
    run.Tick(alone);
    run.Enter();
    run.Tick(together);
    run.Exit(0, "", "phase", "first");
    ghost var first := run.steps[0];
    run.Tick(after);
    assert run.steps == [first];
    run.Exit(0, "", "phase", "second");
    ghost var second := run.steps[1];
    assert run.steps == [first, second];
    OverlapIsLost(first, second);
    steps := run.steps;
    total := Toplevel(steps);
  }

  function Truncated(what: string): string {
    if |what| <= WIDTH then what else what[..WIDTH]
  }
}
