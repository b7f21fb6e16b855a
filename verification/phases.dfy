/** The graph of phases and the choices made on it (pkgs/uml/uml/phases.py). */
module Phases {

  datatype PhaseState = Pending | Running | Passed | Failed | Skipped | Interrupted | Deselected

  /** One unit of work. Exactly one of a script and a pytest run: `pytest` says which. */
  datatype Phase = Phase(name: string, after: seq<string>, nodes: seq<string>, always: bool, pytest: bool)

  type States = map<string, PhaseState>

  /** A phase nobody has recorded counts as pending. */
  function StateOf(state: States, name: string): PhaseState {
    if name in state then state[name] else Pending
  }

  predicate Unfinished(st: PhaseState) {
    st.Pending? || st.Running?
  }

  function Names(phases: seq<Phase>): set<string> {
    set p | p in phases :: p.name
  }

  /** The elements worth keeping, in the order given. */
  function Filter<T(!new)>(xs: seq<T>, keep: T -> bool): (kept: seq<T>)
    ensures forall x :: x in kept <==> x in xs && keep(x)
  {
    if xs == [] then []
    else if keep(xs[0]) then [xs[0]] + Filter(xs[1..], keep)
    else Filter(xs[1..], keep)
  }

  // ── what depends on what ──────────────────────────────────────────

  /** `later` is skipped when `before` fails: it names it, and is not an `always` phase. */
  ghost predicate Needs(phases: seq<Phase>, before: string, later: string) {
    exists p :: p in phases && p.name == later && !p.always && before in p.after
  }

  ghost predicate Chain(phases: seq<Phase>, path: seq<string>) {
    forall i :: 0 <= i < |path| - 1 ==> Needs(phases, path[i], path[i + 1])
  }

  /** `path` leads from `root` to `d` through at least one link. */
  ghost predicate Leads(phases: seq<Phase>, root: string, path: seq<string>, d: string) {
    |path| >= 2 && path[0] == root && path[|path| - 1] == d && Chain(phases, path)
  }

  ghost predicate DependsOn(phases: seq<Phase>, root: string, d: string) {
    exists path :: Leads(phases, root, path, d)
  }

  ghost function DependentsOf(root: string, phases: seq<Phase>): set<string> {
    set d | d in Names(phases) && d != root && DependsOn(phases, root, d)
  }

  /** One link more keeps a dependent a dependent. */
  lemma ExtendChain(phases: seq<Phase>, root: string, d: string, later: string)
    requires d == root || DependsOn(phases, root, d)
    requires Needs(phases, d, later)
    ensures DependsOn(phases, root, later)
  {
    if d == root {
      assert Leads(phases, root, [root, later], later);
    } else {
      var path :| Leads(phases, root, path, d);
      assert Leads(phases, root, path + [later], later);
    }
  }

  lemma JoinChains(phases: seq<Phase>, root: string, d: string, later: string)
    requires DependsOn(phases, root, d) && DependsOn(phases, d, later)
    ensures DependsOn(phases, root, later)
  {
    var front :| Leads(phases, root, front, d);
    var back :| Leads(phases, d, back, later);
    var path := front + back[1..];
    forall i | 0 <= i < |path| - 1 ensures Needs(phases, path[i], path[i + 1]) {
      if i < |front| - 1 {
        assert Needs(phases, front[i], front[i + 1]);
      } else {
        var j := i - (|front| - 1);
        assert Needs(phases, back[j], back[j + 1]);
      }
    }
    assert Leads(phases, root, path, later);
  }

  /** A set holding the root and closed under one link holds every dependent. */
  ghost predicate Closed(phases: seq<Phase>, found: set<string>) {
    forall before, later :: before in found && Needs(phases, before, later) ==> later in found
  }

  lemma {:induction false} ClosedHoldsChain(phases: seq<Phase>, found: set<string>, path: seq<string>)
    requires Closed(phases, found) && Chain(phases, path) && |path| >= 1 && path[0] in found
    ensures path[|path| - 1] in found
    decreases |path|
  {
    if |path| > 1 {
      var front := path[..|path| - 1];
      ClosedHoldsChain(phases, found, front);
      assert Needs(phases, path[|path| - 2], path[|path| - 1]);
    }
  }

  /** `DependentsOf` with its root is the least closed set holding the root. */
  lemma DependentsLeastFixpoint(root: string, phases: seq<Phase>, found: set<string>)
    ensures Closed(phases, {root} + DependentsOf(root, phases))
    ensures root in found && Closed(phases, found) ==> DependentsOf(root, phases) <= found
  {
    var deps := DependentsOf(root, phases);
    forall before, later | before in {root} + deps && Needs(phases, before, later)
      ensures later in {root} + deps
    {
      ExtendChain(phases, root, before, later);
    }
    if root in found && Closed(phases, found) {
      forall d | d in deps ensures d in found {
        var path :| Leads(phases, root, path, d);
        ClosedHoldsChain(phases, found, path);
      }
    }
  }

  /** The answer is about which phases there are, never about their order in the list. */
  lemma DependentsIgnoreOrder(root: string, phases: seq<Phase>, shuffled: seq<Phase>)
    requires forall p :: p in phases <==> p in shuffled
    ensures DependentsOf(root, phases) == DependentsOf(root, shuffled)
  {
    forall path, d ensures Leads(phases, root, path, d) <==> Leads(shuffled, root, path, d) {
      forall before, later ensures Needs(phases, before, later) <==> Needs(shuffled, before, later) {
      }
    }
    assert forall d :: DependsOn(phases, root, d) <==> DependsOn(shuffled, root, d);
    assert Names(phases) == Names(shuffled);
  }

  /** The phases one more link reaches from `found`. */
  function Grown(found: set<string>, phases: seq<Phase>): set<string> {
    set p | p in phases && !p.always && found * (set a | a in p.after) != {} :: p.name
  }

  lemma GrownIsNeeds(found: set<string>, phases: seq<Phase>)
    ensures forall later ::
      later in Grown(found, phases) <==> exists before :: before in found && Needs(phases, before, later)
  {
    forall later | later in Grown(found, phases)
      ensures exists before :: before in found && Needs(phases, before, later)
    {
      var p :| p in phases && !p.always && found * (set a | a in p.after) != {} && p.name == later;
      var before :| before in found * (set a | a in p.after);
      assert Needs(phases, before, later);
    }
    forall later, before | before in found && Needs(phases, before, later)
      ensures later in Grown(found, phases)
    {
      var p :| p in phases && p.name == later && !p.always && before in p.after;
      assert before in found * (set a | a in p.after);
    }
  }

  /** `dependents`: adds whatever one link more reaches, until a pass over the list adds nothing. */
  method Dependents(root: string, phases: seq<Phase>) returns (r: set<string>)
    ensures r == DependentsOf(root, phases)
  {
    var found := {root};
    while true
      invariant root in found && found <= {root} + Names(phases)
      invariant forall d :: d in found && d != root ==> DependsOn(phases, root, d)
      decreases ({root} + Names(phases)) - found
    {
      GrownIsNeeds(found, phases);
      var grown := found + Grown(found, phases);
      forall later | later in grown && later !in found ensures DependsOn(phases, root, later) {
        var before :| before in found && Needs(phases, before, later);
        ExtendChain(phases, root, before, later);
      }
      if grown == found {
        assert Closed(phases, found);
        DependentsLeastFixpoint(root, phases, found);
        return found - {root};
      }
      found := grown;
    }
  }

  // ── what may start ────────────────────────────────────────────────

  function Runnable(phases: seq<Phase>, state: States): seq<Phase> {
    Filter(phases, (p: Phase) => StateOf(state, p.name).Pending?)
  }

  predicate Answered(p: Phase, state: States) {
    forall a :: a in p.after ==> !Unfinished(StateOf(state, a))
  }

  /** What could be started as far as the graph goes: it keeps the order of the list. */
  function Ready(phases: seq<Phase>, state: States): seq<Phase> {
    Filter(Runnable(phases, state), (p: Phase) => Answered(p, state))
  }

  /** What a phase excludes others from: every guest, unless it is a script that names some. */
  function Claims(p: Phase, every: set<string>): set<string> {
    if p.pytest || p.nodes == [] then every else set n | n in p.nodes
  }

  function Held(running: set<Phase>, every: set<string>): set<string> {
    set p, g | p in running && g in Claims(p, every) :: g
  }

  function Greedy(ready: seq<Phase>, held: set<string>, every: set<string>): seq<Phase> {
    if ready == [] then []
    else if held * Claims(ready[0], every) != {} then Greedy(ready[1..], held, every)
    else [ready[0]] + Greedy(ready[1..], held + Claims(ready[0], every), every)
  }

  function Launchable(ready: seq<Phase>, running: set<Phase>, every: set<string>): seq<Phase> {
    Greedy(ready, Held(running, every), every)
  }

  /** The greedy pass over the ready phases, first come first served. */
  method ChooseLaunchable(ready: seq<Phase>, running: set<Phase>, every: set<string>) returns (chosen: seq<Phase>)
    ensures chosen == Launchable(ready, running, every)
  {
    var held := Held(running, every);
    chosen := [];
    for i := 0 to |ready|
      invariant chosen + Greedy(ready[i..], held, every) == Launchable(ready, running, every)
    {
      var wants := Claims(ready[i], every);
      assert ready[i..][0] == ready[i] && ready[i..][1..] == ready[i + 1..];
      if held * wants != {} {
        continue;
      }
      held := held + wants;
      chosen := chosen + [ready[i]];
    }
  }

  /**
    The choice is exclusive and maximal: chosen phases are ready, share no guest with `held` or
    with each other, and every ready phase left out shares a guest with `held` or a chosen one.
  */
  lemma {:induction false} GreedyExclusiveAndMaximal(ready: seq<Phase>, held: set<string>, every: set<string>)
    ensures var chosen := Greedy(ready, held, every);
      && (forall p :: p in chosen ==> p in ready && Claims(p, every) !! held)
      && (forall i, j :: 0 <= i < j < |chosen| ==> Claims(chosen[i], every) !! Claims(chosen[j], every))
      && (forall p :: p in ready ==>
            p in chosen || Claims(p, every) * held != {}
            || exists q :: q in chosen && Claims(p, every) * Claims(q, every) != {})
    decreases |ready|
  {
    if ready != [] {
      var p, rest := ready[0], ready[1..];
      assert ready == [p] + rest;
      var chosen := Greedy(ready, held, every);
      if held * Claims(p, every) != {} {
        GreedyExclusiveAndMaximal(rest, held, every);
      } else {
        var wider := held + Claims(p, every);
        GreedyExclusiveAndMaximal(rest, wider, every);
        var tail := Greedy(rest, wider, every);
        assert chosen == [p] + tail;
        assert held <= wider;
        forall q | q in chosen ensures Claims(q, every) !! held {
          if q == p {
            assert forall g :: g in held && g in Claims(p, every) ==> g in held * Claims(p, every);
          } else {
            assert q in tail;
          }
        }
        forall q | q in rest && q !in chosen && Claims(q, every) * held == {}
          ensures exists r :: r in chosen && Claims(q, every) * Claims(r, every) != {}
        {
          if Claims(q, every) * wider != {} {
            assert Claims(q, every) * Claims(p, every) != {};
            assert p in chosen;
          } else {
            var r :| r in tail && Claims(q, every) * Claims(r, every) != {};
            assert r in chosen;
          }
        }
      }
    }
  }

  /** Two phases that may not run side by side: one is a pytest run, or names no guest, or both name one. */
  predicate Clash(p: Phase, q: Phase) {
    p.pytest || q.pytest || p.nodes == [] || q.nodes == [] || exists g :: g in p.nodes && g in q.nodes
  }

  /** Where there are guests at all, claims meet exactly if the phases clash. */
  lemma ClaimsMeet(p: Phase, q: Phase, every: set<string>)
    requires every != {} && forall g :: g in p.nodes || g in q.nodes ==> g in every
    ensures Claims(p, every) * Claims(q, every) != {} <==> Clash(p, q)
  {
    var g :| g in every;
    var a := if p.nodes != [] then p.nodes[0] else g;
    var b := if q.nodes != [] then q.nodes[0] else g;
    assert a in Claims(p, every) && b in Claims(q, every);
    if p.pytest || p.nodes == [] {
      assert b in Claims(p, every) * Claims(q, every);
    } else if q.pytest || q.nodes == [] {
      assert a in Claims(p, every) * Claims(q, every);
    } else {
      assert forall h :: h in Claims(p, every) * Claims(q, every) <==> h in p.nodes && h in q.nodes;
    }
  }

  /** The phases picked, in the order of the list. */
  function PickedOf(ready: seq<Phase>, picked: seq<bool>): seq<Phase>
    requires |picked| == |ready|
  {
    if ready == [] then []
    else (if picked[0] then [ready[0]] else []) + PickedOf(ready[1..], picked[1..])
  }

  /** First come first served: picked are exactly those that share no guest with what is held or with one
      picked before. */
  ghost predicate InTurn(ready: seq<Phase>, held: set<string>, every: set<string>, picked: seq<bool>) {
    && |picked| == |ready|
    && forall i :: 0 <= i < |ready| ==> (
        picked[i] <==>
          && Claims(ready[i], every) !! held
          && forall k :: 0 <= k < i && picked[k] ==> Claims(ready[k], every) !! Claims(ready[i], every))
  }

  lemma {:induction false} FirstComeFirstServed(ready: seq<Phase>, held: set<string>, every: set<string>)
    returns (picked: seq<bool>)
    ensures InTurn(ready, held, every, picked) && Greedy(ready, held, every) == PickedOf(ready, picked)
    decreases |ready|
  {
    if ready == [] {
      picked := [];
    } else {
      var fits := held * Claims(ready[0], every) == {};
      var wider := if fits then held + Claims(ready[0], every) else held;
      var later := FirstComeFirstServed(ready[1..], wider, every);
      picked := [fits] + later;
      assert picked[1..] == later;
      OneMoreServed(ready, held, every, later);
    }
  }

  lemma ApartFromBoth(a: set<string>, b: set<string>, c: set<string>)
    ensures a !! (b + c) <==> a !! b && c !! a
  {
  }

  lemma NoneInBoth(a: set<string>, b: set<string>)
    ensures a * b == {} <==> b !! a
  {
    assert forall g :: g in a * b <==> g in b && g in a;
    if b !! a {
      assert forall g :: g !in a * b;
    }
  }

  lemma OneMoreServed(ready: seq<Phase>, held: set<string>, every: set<string>, later: seq<bool>)
    requires ready != []
    requires var fits := held * Claims(ready[0], every) == {};
      InTurn(ready[1..], if fits then held + Claims(ready[0], every) else held, every, later)
    ensures InTurn(ready, held, every, [held * Claims(ready[0], every) == {}] + later)
  {
    hide Claims;
    var fits, rest := held * Claims(ready[0], every) == {}, ready[1..];
    var picked := [fits] + later;
    forall i | 0 <= i < |ready|
      ensures picked[i] <==>
        && Claims(ready[i], every) !! held
        && forall k :: 0 <= k < i && picked[k] ==> Claims(ready[k], every) !! Claims(ready[i], every)
    {
      if i == 0 {
        NoneInBoth(held, Claims(ready[0], every));
      } else {
        var j := i - 1;
        assert picked[i] == later[j] && ready[i] == rest[j] && picked[0] == fits;
        ApartFromBoth(Claims(rest[j], every), held, Claims(ready[0], every));
        if later[j] {
          forall k | 0 <= k < i && picked[k] ensures Claims(ready[k], every) !! Claims(ready[i], every) {
            if k > 0 {
              assert later[k - 1] && rest[k - 1] == ready[k];
            }
          }
        } else if Claims(rest[j], every) !! (if fits then held + Claims(ready[0], every) else held) {
          var k :| 0 <= k < j && later[k] && !(Claims(rest[k], every) !! Claims(rest[j], every));
          assert picked[k + 1] && ready[k + 1] == rest[k];
        }
      }
    }
  }

  /** So of the ready phases exactly those start, in their order, that share no guest with a running one or
      one picked before. */
  lemma LaunchableExactly(ready: seq<Phase>, running: set<Phase>, every: set<string>) returns (picked: seq<bool>)
    ensures |picked| == |ready| && Launchable(ready, running, every) == PickedOf(ready, picked)
    ensures forall i :: 0 <= i < |ready| ==> (
        picked[i] <==>
          && (forall q :: q in running ==> Claims(q, every) !! Claims(ready[i], every))
          && forall k :: 0 <= k < i && picked[k] ==> Claims(ready[k], every) !! Claims(ready[i], every))
  {
    picked := FirstComeFirstServed(ready, Held(running, every), every);
    forall i | 0 <= i < |ready|
      ensures Claims(ready[i], every) !! Held(running, every)
        <==> forall q :: q in running ==> Claims(q, every) !! Claims(ready[i], every)
    {
      HeldApart(ready[i], running, every);
    }
    hide Claims, Held;
  }

  lemma HeldApart(p: Phase, running: set<Phase>, every: set<string>)
    ensures Claims(p, every) !! Held(running, every) <==>
      forall q :: q in running ==> Claims(q, every) !! Claims(p, every)
  {
    hide Claims;
    if forall q :: q in running ==> Claims(q, every) !! Claims(p, every) {
      forall g | g in Claims(p, every) ensures g !in Held(running, every) {
      }
    } else {
      var q :| q in running && !(Claims(q, every) !! Claims(p, every));
      assert Claims(q, every) <= Held(running, every);
    }
  }

  /** With nothing held, the first ready phase always starts. */
  lemma FirstStarts(ready: seq<Phase>, every: set<string>)
    requires ready != []
    ensures Launchable(ready, {}, every) != [] && Launchable(ready, {}, every)[0] == ready[0]
  {
    assert Held({}, every) == {};
  }

  // ── the verdict ───────────────────────────────────────────────────

  /** Only passes count, but for what was left out on request. */
  predicate Succeeded(state: States) {
    forall name :: name in state ==> state[name].Passed? || state[name].Deselected?
  }

  /** One phase that is pending, running, failed, skipped or interrupted is enough not to have passed. */
  lemma AnythingElseFails(state: States, name: string)
    requires name in state && !state[name].Passed? && !state[name].Deselected?
    ensures !Succeeded(state)
  {
  }

  // ── what Nix promises of a spec (modules/run.nix) ─────────────────

  ghost predicate DistinctNames(phases: seq<Phase>) {
    forall i, j :: 0 <= i < j < |phases| ==> phases[i].name != phases[j].name
  }

  lemma SameNameSamePhase(phases: seq<Phase>, p: Phase, q: Phase)
    requires DistinctNames(phases) && p in phases && q in phases && p.name == q.name
    ensures p == q
  {
  }

  ghost predicate AfterClosed(phases: seq<Phase>) {
    forall p, a :: p in phases && a in p.after ==> a in Names(phases)
  }

  lemma DependsOnNamed(phases: seq<Phase>, n: string, m: string)
    requires AfterClosed(phases) && DependsOn(phases, n, m)
    ensures n in Names(phases) && m in Names(phases)
  {
    var path :| Leads(phases, n, path, m);
    var last := |path| - 2;
    assert Needs(phases, path[0], path[0 + 1]) && Needs(phases, path[last], path[last + 1]);
  }

  /** Each phase ranks above everything it names. */
  ghost predicate Ranked(phases: seq<Phase>, rank: map<string, nat>) {
    && (forall p :: p in phases ==> p.name in rank)
    && (forall p, a :: p in phases && a in p.after ==> a in rank && rank[a] < rank[p.name])
  }

  ghost predicate Acyclic(phases: seq<Phase>) {
    exists rank :: Ranked(phases, rank)
  }

  /** The list Nix hands over: everything a phase names comes earlier. */
  ghost predicate Sorted(phases: seq<Phase>) {
    forall j, a :: 0 <= j < |phases| && a in phases[j].after ==> a in Names(phases[..j])
  }

  ghost function Place(phases: seq<Phase>, n: string): (i: nat)
    requires n in Names(phases)
    ensures i < |phases| && phases[i].name == n
  {
    var p :| p in phases && p.name == n;
    var i :| 0 <= i < |phases| && phases[i] == p;
    i
  }

  lemma PlaceIs(phases: seq<Phase>, i: nat)
    requires DistinctNames(phases) && i < |phases|
    ensures phases[i].name in Names(phases) && Place(phases, phases[i].name) == i
  {
    assert phases[i] in phases;
    var j := Place(phases, phases[i].name);
    if i < j {} else {}
  }

  /** What the phase at `j` of a sorted list names has its place before. */
  lemma SortedPlaces(phases: seq<Phase>, j: nat, a: string)
    requires DistinctNames(phases) && Sorted(phases) && j < |phases| && a in phases[j].after
    ensures a in Names(phases) && Place(phases, a) < j
  {
    assert a in Names(phases[..j]);
    var q :| q in phases[..j] && q.name == a;
    var i :| 0 <= i < j && phases[..j][i] == q;
    assert phases[i] == q;
    PlaceIs(phases, i);
  }

  /** Such a list names nothing but its own phases, and has no cycle. */
  lemma SortedIsAcyclic(phases: seq<Phase>)
    requires DistinctNames(phases) && Sorted(phases)
    ensures AfterClosed(phases) && Acyclic(phases)
  {
    var rank := map n | n in Names(phases) :: Place(phases, n);
    hide DistinctNames, Sorted, Place;
    forall p, a | p in phases && a in p.after
      ensures p.name in rank && a in rank && rank[a] < rank[p.name]
    {
      var j :| 0 <= j < |phases| && phases[j] == p;
      SortedPlaces(phases, j, a);
      PlaceIs(phases, j);
    }
    assert Ranked(phases, rank);
  }

  lemma {:induction false} ChainRises(phases: seq<Phase>, rank: map<string, nat>, path: seq<string>)
    requires Ranked(phases, rank) && Chain(phases, path) && |path| >= 2
    ensures path[0] in rank && path[|path| - 1] in rank && rank[path[0]] < rank[path[|path| - 1]]
    decreases |path|
  {
    assert Needs(phases, path[|path| - 2], path[|path| - 1]);
    if |path| > 2 {
      ChainRises(phases, rank, path[..|path| - 1]);
    }
  }
}
