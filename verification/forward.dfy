/**
  Port forwards: rules, the addresses they are given, and the two places that say where a guest's
  port ends up, what passt is told and what the user is told
  (pkgs/uml-runner/uml_runner/forward.py).
*/
module Forward {
  import opened Options

  /** `127.0.0.octet`, or an address of any other kind. */
  datatype Address = Loopback(octet: int) | Elsewhere(text: string)

  datatype PortMap = PortMap(host: int, guest: int)

  datatype Ports = All | Listed(maps: seq<PortMap>)

  datatype Rule = Rule(
    address: Option<Address>, ports: Ports, protocols: seq<string>, remapPrivileged: bool, privilegedOffset: int)

  const FIRST := 2
  const LAST := 254
  const SENTINEL_PORT := 65534
  const PORTS := 65536

  // ── resolution: what the kernel will not give us ──────────────────

  /** What the user is told of a rule. */
  datatype Note =
    | NotForwarded(below: int)
    | Shifted(below: int, offset: int)
    | Moved(port: PortMap, to: int)
    | Unreachable(port: PortMap)

  function KeptPort(rule: Rule, start: int, port: PortMap): seq<PortMap> {
    if port.host >= start then [port]
    else if rule.remapPrivileged then [port.(host := port.host + rule.privilegedOffset)]
    else []
  }

  function NoteOf(rule: Rule, start: int, port: PortMap): seq<Note> {
    if port.host >= start then []
    else if rule.remapPrivileged then [Moved(port, port.host + rule.privilegedOffset)]
    else [Unreachable(port)]
  }

  function KeptPorts(rule: Rule, start: int, ports: seq<PortMap>): seq<PortMap> {
    if ports == [] then [] else KeptPorts(rule, start, ports[..|ports| - 1]) + KeptPort(rule, start, ports[|ports| - 1])
  }

  function NotesOf(rule: Rule, start: int, ports: seq<PortMap>): seq<Note> {
    if ports == [] then [] else NotesOf(rule, start, ports[..|ports| - 1]) + NoteOf(rule, start, ports[|ports| - 1])
  }

  /** `_remap`, as a value. */
  function Remapped(rule: Rule, start: int): (Rule, seq<Note>) {
    if start <= 1 then (rule, [])
    else
      match rule.ports
      case All =>
        (rule, [if rule.remapPrivileged then Shifted(start, rule.privilegedOffset) else NotForwarded(start)])
      case Listed(maps) =>
        (rule.(ports := Listed(KeptPorts(rule, start, maps))), NotesOf(rule, start, maps))
  }

  method Remap(rule: Rule, start: int) returns (moved: Rule, notes: seq<Note>)
    ensures (moved, notes) == Remapped(rule, start)
  {
    notes := [];
    if start <= 1 {
      return rule, notes;
    }
    if rule.ports.All? {
      if !rule.remapPrivileged {
        return rule, [NotForwarded(start)];
      }
      return rule, [Shifted(start, rule.privilegedOffset)];
    }
    var kept;
    kept, notes := MovePorts(rule, start, rule.ports.maps);
    moved := rule.(ports := Listed(kept));
  }

  method MovePorts(rule: Rule, start: int, ports: seq<PortMap>) returns (kept: seq<PortMap>, notes: seq<Note>)
    ensures kept == KeptPorts(rule, start, ports) && notes == NotesOf(rule, start, ports)
  {
    kept, notes := [], [];
    for i := 0 to |ports|
      invariant kept == KeptPorts(rule, start, ports[..i]) && notes == NotesOf(rule, start, ports[..i])
    {
      var port := ports[i];
      assert ports[..i + 1][..i] == ports[..i];
      if port.host >= start {
        kept := kept + [port];
      } else if rule.remapPrivileged {
        var to := port.(host := port.host + rule.privilegedOffset);
        kept := kept + [to];
        notes := notes + [Moved(port, to.host)];
      } else {
        notes := notes + [Unreachable(port)];
      }
    }
    assert ports[..|ports|] == ports;
  }

  lemma {:induction false} KeptExactly(rule: Rule, start: int, ports: seq<PortMap>, q: PortMap)
    ensures q in KeptPorts(rule, start, ports) <==>
      exists p :: p in ports && q in KeptPort(rule, start, p)
    decreases |ports|
  {
    if ports != [] {
      KeptExactly(rule, start, ports[..|ports| - 1], q);
      assert forall p :: p in ports <==> p in ports[..|ports| - 1] || p == ports[|ports| - 1];
    }
  }

  lemma {:induction false} NotedExactly(rule: Rule, start: int, ports: seq<PortMap>, note: Note)
    ensures note in NotesOf(rule, start, ports) <==>
      exists p :: p in ports && note in NoteOf(rule, start, p)
    decreases |ports|
  {
    if ports != [] {
      NotedExactly(rule, start, ports[..|ports| - 1], note);
      assert forall p :: p in ports <==> p in ports[..|ports| - 1] || p == ports[|ports| - 1];
    }
  }

  ghost predicate Told(notes: seq<Note>, port: PortMap) {
    Unreachable(port) in notes || exists to :: Moved(port, to) in notes
  }

  /** The port another listed one is moved to. */
  predicate Lands(rule: Rule, start: int, q: PortMap, port: PortMap) {
    q.host < start && rule.remapPrivileged && port == PortMap(q.host + rule.privilegedOffset, q.guest)
  }

  /**
    A remap is never silent: a note names a listed port exactly if the kernel keeps its host port from
    us. It is then moved by the offset, or not forwarded if that is off; and a listed port is still
    there exactly if no note names it, or another is moved to where it was.
  */
  lemma NeverSilent(rule: Rule, start: int, port: PortMap)
    requires rule.ports.Listed? && port in rule.ports.maps && start > 1
    ensures var (moved, notes) := Remapped(rule, start);
      && (Told(notes, port) <==> port.host < start)
      && (Moved(port, port.host + rule.privilegedOffset) in notes <==> port.host < start && rule.remapPrivileged)
      && (Unreachable(port) in notes <==> port.host < start && !rule.remapPrivileged)
      && (Moved(port, port.host + rule.privilegedOffset) in notes ==>
            PortMap(port.host + rule.privilegedOffset, port.guest) in moved.ports.maps)
      && (Unreachable(port) in notes ==> port !in moved.ports.maps)
      && (port in moved.ports.maps <==>
            !Told(notes, port) || exists q :: q in rule.ports.maps && Lands(rule, start, q, port))
  {
    hide KeptPorts, NotesOf, KeptPort;
    NotesTell(rule, start, port);
    KeptExactly(rule, start, rule.ports.maps, port);
    KeptExactly(rule, start, rule.ports.maps, PortMap(port.host + rule.privilegedOffset, port.guest));
    forall q | q in rule.ports.maps
      ensures port in KeptPort(rule, start, q) <==> (q == port && port.host >= start) || Lands(rule, start, q, port)
    {
      KeptOrLands(rule, start, q, port);
    }
    KeptOrLands(rule, start, port, PortMap(port.host + rule.privilegedOffset, port.guest));
    KeptOrLands(rule, start, port, port);
  }

  lemma KeptOrLands(rule: Rule, start: int, q: PortMap, port: PortMap)
    ensures port in KeptPort(rule, start, q) <==> (q == port && port.host >= start) || Lands(rule, start, q, port)
  {
  }

  /** Which notes name a port. */
  lemma NotesTell(rule: Rule, start: int, port: PortMap)
    requires rule.ports.Listed? && port in rule.ports.maps && start > 1
    ensures var notes := Remapped(rule, start).1;
      && (Told(notes, port) <==> port.host < start)
      && (Moved(port, port.host + rule.privilegedOffset) in notes <==> port.host < start && rule.remapPrivileged)
      && (Unreachable(port) in notes <==> port.host < start && !rule.remapPrivileged)
  {
    var maps, to := rule.ports.maps, port.host + rule.privilegedOffset;
    NotedExactly(rule, start, maps, Unreachable(port));
    NotedExactly(rule, start, maps, Moved(port, to));
    forall x ensures Moved(port, x) in Remapped(rule, start).1 ==> port.host < start && rule.remapPrivileged {
      NotedExactly(rule, start, maps, Moved(port, x));
    }
    hide KeptPorts, NotesOf;
  }

  /** Nothing else is forwarded than what was asked for, in its place or moved. */
  lemma NothingElse(rule: Rule, start: int, port: PortMap)
    requires rule.ports.Listed? && start > 1
    ensures port in Remapped(rule, start).0.ports.maps <==>
      || (port in rule.ports.maps && port.host >= start)
      || exists q :: q in rule.ports.maps && Lands(rule, start, q, port)
  {
    KeptExactly(rule, start, rule.ports.maps, port);
    hide KeptPorts, NotesOf;
    forall q | q in rule.ports.maps
      ensures port in KeptPort(rule, start, q) <==> (q == port && port.host >= start) || Lands(rule, start, q, port)
    {
    }
  }

  // ── resolution: addresses ─────────────────────────────────────────

  /** The host ports a rule needs bound; the sentinel stands in for all of them. */
  function HostPorts(rule: Rule): seq<int> {
    match rule.ports
    case All => [SENTINEL_PORT]
    case Listed(maps) => seq(|maps|, i requires 0 <= i < |maps| => maps[i].host)
  }

  function Insert(ports: seq<int>, p: int): seq<int> {
    if ports == [] || p < ports[0] then [p] + ports
    else if p == ports[0] then ports
    else [ports[0]] + Insert(ports[1..], p)
  }

  function InsertAll(ports: seq<int>, more: seq<int>): seq<int>
    decreases |more|
  {
    if more == [] then ports else InsertAll(Insert(ports, more[0]), more[1..])
  }

  /** The ports of all the rules together, ascending and each once. */
  function Wanted(rules: seq<Rule>): seq<int> {
    if rules == [] then [] else InsertAll(Wanted(rules[1..]), HostPorts(rules[0]))
  }

  predicate Ascending(ports: seq<int>) {
    forall i, j :: 0 <= i < j < |ports| ==> ports[i] < ports[j]
  }

  lemma {:induction false} InsertKeeps(ports: seq<int>, p: int)
    ensures forall q :: q in Insert(ports, p) <==> q in ports || q == p
    decreases |ports|
  {
    if ports != [] {
      assert forall q :: q in ports <==> q == ports[0] || q in ports[1..];
      InsertKeeps(ports[1..], p);
    }
  }

  lemma {:induction false} InsertSorts(ports: seq<int>, p: int)
    requires Ascending(ports)
    ensures Ascending(Insert(ports, p))
    decreases |ports|
  {
    if ports != [] && p > ports[0] {
      var rest := Insert(ports[1..], p);
      InsertSorts(ports[1..], p);
      InsertKeeps(ports[1..], p);
      hide Insert;
      forall i | 0 <= i < |rest| ensures ports[0] < rest[i] {
        assert rest[i] in rest;
      }
    }
  }

  lemma {:induction false} InsertAllSorts(ports: seq<int>, more: seq<int>)
    requires Ascending(ports)
    ensures Ascending(InsertAll(ports, more))
    ensures forall q :: q in InsertAll(ports, more) <==> q in ports || q in more
    decreases |more|
  {
    if more != [] {
      InsertSorts(ports, more[0]);
      InsertKeeps(ports, more[0]);
      InsertAllSorts(Insert(ports, more[0]), more[1..]);
      assert forall q :: q in more <==> q == more[0] || q in more[1..];
    }
  }

  /** A wide rule needs port 65534, any other the host ports it lists. */
  ghost predicate Needed(rule: Rule, port: int) {
    (rule.ports.All? && port == 65534) || (rule.ports.Listed? && exists m :: m in rule.ports.maps && m.host == port)
  }

  lemma HostPortsNeeded(rule: Rule)
    ensures forall q :: q in HostPorts(rule) <==> Needed(rule, q)
  {
    if rule.ports.Listed? {
      var maps := rule.ports.maps;
      forall m | m in maps ensures m.host in HostPorts(rule) {
        var i :| 0 <= i < |maps| && maps[i] == m;
        assert HostPorts(rule)[i] == m.host;
      }
      forall q | q in HostPorts(rule) ensures exists m :: m in maps && m.host == q {
        var i :| 0 <= i < |maps| && HostPorts(rule)[i] == q;
        assert maps[i] in maps;
      }
    }
  }

  /** Every port any of the rules needs, each once. */
  lemma {:induction false} WantedExactly(rules: seq<Rule>)
    ensures Ascending(Wanted(rules))
    ensures forall q :: q in Wanted(rules) <==> exists rule :: rule in rules && Needed(rule, q)
    decreases |rules|
  {
    if rules != [] {
      WantedExactly(rules[1..]);
      HostPortsNeeded(rules[0]);
      hide HostPorts, Needed;
      InsertAllSorts(Wanted(rules[1..]), HostPorts(rules[0]));
      assert forall rule :: rule in rules <==> rule == rules[0] || rule in rules[1..];
    }
  }

  /** Whether the host will bind a port on an address, while one guest is resolved. */
  type Host = (Address, int) -> bool

  ghost predicate FirstClash(canBind: Host, address: Address, ports: seq<int>, i: nat)
    requires i < |ports|
  {
    !canBind(address, ports[i]) && forall j :: 0 <= j < i ==> canBind(address, ports[j])
  }

  /** `_probe`: the first of the ports that will not bind. */
  method Probe(canBind: Host, address: Address, ports: seq<int>) returns (clash: Option<int>)
    ensures clash.None? <==> forall p :: p in ports ==> canBind(address, p)
    ensures clash.Some? ==>
      exists i :: 0 <= i < |ports| && clash.value == ports[i] && FirstClash(canBind, address, ports, i)
  {
    for i := 0 to |ports|
      invariant forall j :: 0 <= j < i ==> canBind(address, ports[j])
    {
      var port := ports[i];
      if !canBind(address, port) {
        assert FirstClash(canBind, address, ports, i);
        assert port in ports && !canBind(address, port);
        return Some(port);
      }
    }
    return None;
  }

  function Unaddressed(rules: seq<Rule>): seq<Rule> {
    if rules == [] then []
    else (if rules[0].address.None? then [rules[0]] else []) + Unaddressed(rules[1..])
  }

  /**
    An address a guest can have: one of 127.0.0.2 to 127.0.0.254, nobody else's, on which port 65534
    binds if any of its rules without one is wide, and every host port they list.
  */
  ghost predicate Free(canBind: Host, rules: seq<Rule>, taken: set<Address>, octet: int) {
    && 2 <= octet <= 254 && Loopback(octet) !in taken
    && (forall rule :: rule in rules && rule.ports.All? ==> canBind(Loopback(octet), 65534))
    && (forall rule, m :: rule in rules && rule.ports.Listed? && m in rule.ports.maps ==>
          canBind(Loopback(octet), m.host))
  }

  lemma FreeIsWanted(canBind: Host, rules: seq<Rule>, taken: set<Address>, octet: int)
    ensures Free(canBind, rules, taken, octet) <==>
      && FIRST <= octet <= LAST && Loopback(octet) !in taken
      && forall p :: p in Wanted(rules) ==> canBind(Loopback(octet), p)
  {
    WantedExactly(rules);
    hide Wanted;
    if forall p :: p in Wanted(rules) ==> canBind(Loopback(octet), p) {
      forall rule | rule in rules && rule.ports.All? ensures canBind(Loopback(octet), 65534) {
        assert Needed(rule, 65534);
      }
      forall rule, m | rule in rules && rule.ports.Listed? && m in rule.ports.maps
        ensures canBind(Loopback(octet), m.host)
      {
        assert Needed(rule, m.host);
      }
    }
  }

  /** The least such octet there is; None when there is none. */
  ghost predicate LeastFree(canBind: Host, rules: seq<Rule>, taken: set<Address>, octet: Option<int>) {
    match octet
    case Some(o) => Free(canBind, rules, taken, o) && forall lower :: lower < o ==> !Free(canBind, rules, taken, lower)
    case None => forall o :: !Free(canBind, rules, taken, o)
  }

  /** `_assign`. */
  method Assign(canBind: Host, rules: seq<Rule>, taken: set<Address>) returns (octet: Option<int>)
    ensures LeastFree(canBind, rules, taken, octet)
  {
    var wanted := Wanted(rules);
    forall o ensures Free(canBind, rules, taken, o) <==>
      FIRST <= o <= LAST && Loopback(o) !in taken && forall p :: p in wanted ==> canBind(Loopback(o), p)
    {
      FreeIsWanted(canBind, rules, taken, o);
    }
    hide Free;
    for o := FIRST to LAST + 1
      invariant forall lower :: lower < o ==> !Free(canBind, rules, taken, lower)
    {
      if Loopback(o) !in taken {
        var clash := Probe(canBind, Loopback(o), wanted);
        if clash.None? {
          return Some(o);
        }
        assert exists p :: p in wanted && !canBind(Loopback(o), p);
      }
      assert !Free(canBind, rules, taken, o);
    }
    return None;
  }

  function WithAddress(rule: Rule, address: Address): Rule {
    if rule.address.None? then rule.(address := Some(address)) else rule
  }

  function AllWithAddress(rules: seq<Rule>, address: Address): seq<Rule> {
    seq(|rules|, i requires 0 <= i < |rules| => WithAddress(rules[i], address))
  }

  function Survives(rule: Rule): bool {
    rule.ports == All || rule.ports.maps != []
  }

  /** The rules that are left, remapped, and what is said of each. */
  function ResolvedRules(rules: seq<Rule>, start: int): seq<Rule> {
    if rules == [] then []
    else
      var rule := Remapped(rules[|rules| - 1], start).0;
      ResolvedRules(rules[..|rules| - 1], start) + if Survives(rule) then [rule] else []
  }

  function SaidNotes(rules: seq<Rule>, start: int): seq<(Option<Address>, seq<Note>)> {
    if rules == [] then []
    else
      var rule := rules[|rules| - 1];
      SaidNotes(rules[..|rules| - 1], start) + [(rule.address, Remapped(rule, start).1)]
  }

  /** What one guest is given: no address if it needs none; None where `ForwardError` is raised. */
  ghost predicate Given(canBind: Host, rules: seq<Rule>, taken: set<Address>, ok: bool, octet: Option<int>) {
    if Unaddressed(rules) == [] then ok && octet == None
    else LeastFree(canBind, Unaddressed(rules), taken, octet) && (ok <==> octet.Some?)
  }

  function Addressed(rules: seq<Rule>, octet: Option<int>): seq<Rule> {
    if octet.Some? then AllWithAddress(rules, Loopback(octet.value)) else rules
  }

  method RemapAll(rules: seq<Rule>, start: int) returns (resolved: seq<Rule>, notes: seq<(Option<Address>, seq<Note>)>)
    ensures resolved == ResolvedRules(rules, start) && notes == SaidNotes(rules, start)
  {
    resolved, notes := [], [];
    for i := 0 to |rules|
      invariant resolved == ResolvedRules(rules[..i], start) && notes == SaidNotes(rules[..i], start)
    {
      assert rules[..i + 1][..i] == rules[..i];
      var rule, said := Remap(rules[i], start);
      hide Remapped;
      if rule.ports == All || rule.ports.maps != [] {
        resolved := resolved + [rule];
      }
      notes := notes + [(rules[i].address, said)];
    }
    assert rules[..|rules|] == rules;
  }

  /** The addresses handed to the guests of a run. */
  class Addresses {
    var taken: set<Address>

    constructor ()
      ensures taken == {}
    {
      taken := {};
    }

    method Resolve(canBind: Host, rules: seq<Rule>, start: int)
      returns (ok: bool, octet: Option<int>, resolved: seq<Rule>, notes: seq<(Option<Address>, seq<Note>)>)
      modifies this
      ensures Given(canBind, rules, old(taken), ok, octet)
      ensures taken == old(taken) + if octet.Some? then {Loopback(octet.value)} else {}
      ensures ok ==> resolved == ResolvedRules(Addressed(rules, octet), start)
      ensures ok ==> notes == SaidNotes(Addressed(rules, octet), start)
    {
      octet, resolved, notes, ok := None, [], [], true;
      var unaddressed := Unaddressed(rules);
      var all := rules;
      if unaddressed != [] {
        octet := Assign(canBind, unaddressed, taken);
        if octet.None? {
          ok := false;
          return;
        }
        taken := taken + {Loopback(octet.value)};
        all := AllWithAddress(rules, Loopback(octet.value));
      }
      resolved, notes := RemapAll(all, start);
    }
  }

  lemma {:induction false} UnaddressedExactly(rules: seq<Rule>)
    ensures forall rule :: rule in Unaddressed(rules) <==> rule in rules && rule.address.None?
    decreases |rules|
  {
    if rules != [] {
      UnaddressedExactly(rules[1..]);
      assert forall rule :: rule in rules <==> rule == rules[0] || rule in rules[1..];
    }
  }

  lemma {:induction false} ResolvedFrom(rules: seq<Rule>, start: int)
    ensures forall r :: r in ResolvedRules(rules, start) <==>
      exists rule :: rule in rules && r == Remapped(rule, start).0 && Survives(r)
    decreases |rules|
  {
    if rules != [] {
      ResolvedFrom(rules[..|rules| - 1], start);
      hide Remapped;
      assert forall rule :: rule in rules <==> rule == rules[|rules| - 1] || rule in rules[..|rules| - 1];
    }
  }

  /** A rule goes exactly if it lists ports and none of them is left. */
  lemma DroppedExactly(rule: Rule, start: int)
    ensures Survives(Remapped(rule, start).0) <==>
      || rule.ports.All?
      || exists m :: m in rule.ports.maps && (start <= 1 || m.host >= start || rule.remapPrivileged)
  {
    if rule.ports.Listed? && rule.ports.maps != [] {
      assert rule.ports.maps[0] in rule.ports.maps;
      if start > 1 {
        KeptNothing(rule, start, rule.ports.maps);
      }
    }
  }

  lemma KeptNothing(rule: Rule, start: int, maps: seq<PortMap>)
    ensures KeptPorts(rule, start, maps) != [] <==>
      exists m :: m in maps && (m.host >= start || rule.remapPrivileged)
  {
    var kept := KeptPorts(rule, start, maps);
    forall q ensures q in kept <==> exists p :: p in maps && q in KeptPort(rule, start, p) {
      KeptExactly(rule, start, maps, q);
    }
    hide KeptPorts;
    if kept != [] {
      assert kept[0] in kept;
    }
    if m :| m in maps && (m.host >= start || rule.remapPrivileged) {
      assert KeptPort(rule, start, m)[0] in KeptPort(rule, start, m);
    }
  }

  function AddressFor(rule: Rule, octet: Option<int>): Option<Address> {
    if rule.address.Some? || octet.None? then rule.address else Some(Loopback(octet.value))
  }

  /** Whatever resolves has an address: its own, or the one its guest was given for every rule that
      had none. */
  lemma ResolvedHaveAddresses(canBind: Host, rules: seq<Rule>, taken: set<Address>, start: int, octet: Option<int>)
    requires Given(canBind, rules, taken, true, octet)
    ensures forall r :: r in ResolvedRules(Addressed(rules, octet), start) ==>
      r.address.Some? && exists rule :: rule in rules && r.address == AddressFor(rule, octet)
  {
    var all := Addressed(rules, octet);
    ResolvedFrom(all, start);
    UnaddressedExactly(rules);
    forall r | r in ResolvedRules(all, start)
      ensures r.address.Some? && exists rule :: rule in rules && r.address == AddressFor(rule, octet)
    {
      var rule :| rule in all && r == Remapped(rule, start).0;
      var i :| 0 <= i < |all| && all[i] == rule;
      assert rules[i] in rules;
      assert r.address == rule.address == AddressFor(rules[i], octet);
    }
  }

  /** A guest of a run: its rules, and what the host would bind while they are resolved. */
  datatype Guest = Guest(rules: seq<Rule>, canBind: Host)

  function HandedOut(octets: seq<Option<int>>): set<Address> {
    set o | o in octets && o.Some? :: Loopback(o.value)
  }

  /** What each of the first guests was given, each after those before it. */
  ghost predicate Allocated(guests: seq<Guest>, taken: set<Address>, octets: seq<Option<int>>) {
    && |octets| <= |guests|
    && forall k :: 0 <= k < |octets| ==>
      Given(guests[k].canBind, guests[k].rules, taken + HandedOut(octets[..k]), true, octets[k])
  }

  lemma AllocatedNext(guests: seq<Guest>, taken: set<Address>, octets: seq<Option<int>>, octet: Option<int>)
    requires Allocated(guests, taken, octets) && |octets| < |guests|
    requires var next := guests[|octets|]; Given(next.canBind, next.rules, taken + HandedOut(octets), true, octet)
    ensures Allocated(guests, taken, octets + [octet])
  {
    hide Given, HandedOut;
    var more := octets + [octet];
    assert more[..|octets|] == octets;
    assert forall k :: 0 <= k < |octets| ==> more[..k] == octets[..k];
  }

  /** Every guest of a run in turn; the first that cannot be given an address ends it. */
  method ResolveAll(addresses: Addresses, guests: seq<Guest>, start: int)
    returns (octets: seq<Option<int>>, resolved: seq<seq<Rule>>)
    modifies addresses
    ensures Allocated(guests, old(addresses.taken), octets)
    ensures addresses.taken == old(addresses.taken) + HandedOut(octets)
    ensures |octets| < |guests| ==>
      var next := guests[|octets|];
      && Unaddressed(next.rules) != []
      && LeastFree(next.canBind, Unaddressed(next.rules), addresses.taken, None)
    ensures |resolved| == |octets|
    ensures forall k :: 0 <= k < |octets| ==> resolved[k] == ResolvedRules(Addressed(guests[k].rules, octets[k]), start)
  {
    octets, resolved := [], [];
    assert Allocated(guests, addresses.taken, []) && addresses.taken + HandedOut([]) == addresses.taken;
    hide ResolvedRules, Given, LeastFree, Addressed, Allocated, HandedOut;
    for i := 0 to |guests|
      invariant |octets| == |resolved| == i
      invariant Allocated(guests, old(addresses.taken), octets)
      invariant addresses.taken == old(addresses.taken) + HandedOut(octets)
      invariant forall k :: 0 <= k < i ==> resolved[k] == ResolvedRules(Addressed(guests[k].rules, octets[k]), start)
    {
      ghost var taken := addresses.taken;
      var ok, octet, rules, _ := addresses.Resolve(guests[i].canBind, guests[i].rules, start);
      if !ok {
        GivenNothing(guests[i].canBind, guests[i].rules, taken, octet);
        return;
      }
      HandedOutGrows(octets, octet);
      AllocatedNext(guests, old(addresses.taken), octets, octet);
      octets, resolved := octets + [octet], resolved + [rules];
    }
  }

  lemma GivenNothing(canBind: Host, rules: seq<Rule>, taken: set<Address>, octet: Option<int>)
    requires Given(canBind, rules, taken, false, octet)
    ensures octet == None && Unaddressed(rules) != [] && LeastFree(canBind, Unaddressed(rules), taken, None)
  {
  }

  lemma HandedOutGrows(octets: seq<Option<int>>, octet: Option<int>)
    ensures HandedOut(octets + [octet]) == HandedOut(octets) + if octet.Some? then {Loopback(octet.value)} else {}
  {
    assert forall o :: o in octets + [octet] <==> o in octets || o == octet;
  }

  /** No two guests of a run share an assigned address, nor does it belong to anybody before. */
  lemma AddressesDistinct(guests: seq<Guest>, taken: set<Address>, octets: seq<Option<int>>)
    requires Allocated(guests, taken, octets)
    ensures forall k :: 0 <= k < |octets| && octets[k].Some? ==>
      2 <= octets[k].value <= 254 && Loopback(octets[k].value) !in taken
    ensures forall j, k :: 0 <= j < k < |octets| && octets[j].Some? && octets[k].Some? ==> octets[j] != octets[k]
    ensures forall k :: 0 <= k < |octets| ==> (octets[k].Some? <==> Unaddressed(guests[k].rules) != [])
  {
    forall j, k | 0 <= j < k < |octets| && octets[j].Some? && octets[k].Some? ensures octets[j] != octets[k] {
      assert octets[..k][j] == octets[j];
      assert Loopback(octets[j].value) in HandedOut(octets[..k]);
    }
  }

  /**
    But an address handed out is another guest's too exactly if a rule of that one's names it: what the
    rules name is never looked at when addresses are handed out.
  */
  lemma SharedExactly(guests: seq<Guest>, taken: set<Address>, octets: seq<Option<int>>, start: int, j: nat, k: nat)
    requires Allocated(guests, taken, octets) && j < |octets| && k < |octets| && j != k && octets[k].Some?
    ensures var address := Some(Loopback(octets[k].value));
      (exists r :: r in ResolvedRules(Addressed(guests[j].rules, octets[j]), start) && r.address == address)
      <==> exists rule :: rule in guests[j].rules && rule.address == address && Survives(Remapped(rule, start).0)
  {
    AddressesDistinct(guests, taken, octets);
    hide Allocated, ResolvedRules, Addressed, Remapped, Survives, Unaddressed;
    ResolvedElsewhere(guests[j].rules, octets[j], start, Loopback(octets[k].value));
  }

  /** An address a guest was not given is one of its resolved rules' exactly if one of its rules names it. */
  lemma ResolvedElsewhere(rules: seq<Rule>, octet: Option<int>, start: int, address: Address)
    requires octet.Some? ==> Loopback(octet.value) != address
    ensures (exists r :: r in ResolvedRules(Addressed(rules, octet), start) && r.address == Some(address))
      <==> exists rule :: rule in rules && rule.address == Some(address) && Survives(Remapped(rule, start).0)
  {
    var all := Addressed(rules, octet);
    ResolvedFrom(all, start);
    hide ResolvedRules, Remapped, Survives;
    if r :| r in ResolvedRules(all, start) && r.address == Some(address) {
      var rule :| rule in all && r == Remapped(rule, start).0;
      RemapKeepsAddress(rule, start);
      var i :| 0 <= i < |all| && all[i] == rule;
      assert rules[i] in rules && rules[i] == rule;
    }
    if rule :| rule in rules && rule.address == Some(address) && Survives(Remapped(rule, start).0) {
      RemapKeepsAddress(rule, start);
      var i :| 0 <= i < |rules| && rules[i] == rule;
      assert all[i] == rule;
    }
  }

  lemma RemapKeepsAddress(rule: Rule, start: int)
    ensures Remapped(rule, start).0.address == rule.address
  {
  }

  /** One guest names 127.0.0.2, the next has no address; everything binds, and both are there with all their ports. */
  lemma TwoOnOneAddress(canBind: Host, named: Rule, other: Rule, start: int)
    returns (octets: seq<Option<int>>)
    requires BindsAll(canBind) && named.ports == other.ports == All
    requires named.address == Some(Loopback(2)) && other.address == None
    ensures var guests := [Guest([named], canBind), Guest([other], canBind)];
      && Allocated(guests, {}, octets) && |octets| == 2
      && (exists r :: r in ResolvedRules(Addressed([named], octets[0]), start)
            && r.ports == All && r.address == Some(Loopback(2)))
      && (exists r :: r in ResolvedRules(Addressed([other], octets[1]), start)
            && r.ports == All && r.address == Some(Loopback(2)))
  {
    var guests := [Guest([named], canBind), Guest([other], canBind)];
    octets := [None, Some(2)];
    OneRule(named);
    OneRule(other);
    assert Unaddressed([named]) == [] && Unaddressed([other]) == [other];
    NextFree(canBind, [other], []);
    assert octets[..0] == [] && octets[..1] == [None] && HandedOut([None]) == {} == HandedOut([]);
    assert {} + HandedOut(octets[..1]) == {};
    assert Given(canBind, [other], {}, true, octets[1]);
    WideResolved(named, start);
    WideResolved(other.(address := Some(Loopback(2))), start);
    assert Addressed([named], None) == [named];
    assert Addressed([other], Some(2)) == [other.(address := Some(Loopback(2)))];
  }

  lemma OneRule(rule: Rule)
    ensures Unaddressed([rule]) == if rule.address.None? then [rule] else []
  {
    assert [rule][1..] == [];
  }

  lemma WideResolved(rule: Rule, start: int)
    requires rule.ports == All
    ensures Remapped(rule, start).0 in ResolvedRules([rule], start)
    ensures Remapped(rule, start).0.ports == All && Remapped(rule, start).0.address == rule.address
  {
    ResolvedFrom([rule], start);
    assert rule in [rule];
  }

  ghost predicate BindsAll(canBind: Host) {
    forall a, p :: canBind(a, p)
  }

  /** On a host where everything binds, the guests that need an address get 127.0.0.2 and on, in turn,
      and there is one for 253 of them. */
  lemma {:induction false} FreshHost(guests: seq<Guest>, octets: seq<Option<int>>)
    requires Allocated(guests, {}, octets)
    requires forall k :: 0 <= k < |guests| ==> Unaddressed(guests[k].rules) != [] && BindsAll(guests[k].canBind)
    ensures |octets| <= 253
    ensures forall k :: 0 <= k < |octets| ==> octets[k] == Some(2 + k)
    decreases |octets|
  {
    hide Allocated, LeastFree, BindsAll, HandedOut, Unaddressed;
    if octets != [] {
      var n := |octets| - 1;
      LastAllocated(guests, {}, octets, n);
      FreshHost(guests, octets[..n]);
      assert {} + HandedOut(octets[..n]) == HandedOut(octets[..n]);
      NextIsLeast(guests[n].canBind, Unaddressed(guests[n].rules), octets[..n], octets[n]);
    }
  }

  lemma LastAllocated(guests: seq<Guest>, taken: set<Address>, octets: seq<Option<int>>, n: nat)
    requires Allocated(guests, taken, octets) && n == |octets| - 1
    ensures n < |guests| && Allocated(guests, taken, octets[..n])
    ensures Given(guests[n].canBind, guests[n].rules, taken + HandedOut(octets[..n]), true, octets[n])
  {
    hide Given;
    assert forall k :: 0 <= k < n ==> octets[..n][..k] == octets[..k];
  }

  /** The 254th has none, and it is the first that has none. */
  lemma FreshHostFull(guests: seq<Guest>, octets: seq<Option<int>>)
    requires Allocated(guests, {}, octets) && |octets| < |guests|
    requires forall k :: 0 <= k < |guests| ==> Unaddressed(guests[k].rules) != [] && BindsAll(guests[k].canBind)
    ensures LeastFree(guests[|octets|].canBind, Unaddressed(guests[|octets|].rules), HandedOut(octets), None) <==>
      |octets| == 253
  {
    FreshHost(guests, octets);
    hide Allocated;
    var next := guests[|octets|];
    NextFree(next.canBind, Unaddressed(next.rules), octets);
  }

  lemma NextIsLeast(canBind: Host, rules: seq<Rule>, octets: seq<Option<int>>, octet: Option<int>)
    requires |octets| <= 253 && forall k :: 0 <= k < |octets| ==> octets[k] == Some(2 + k)
    requires BindsAll(canBind)
    requires LeastFree(canBind, rules, HandedOut(octets), octet)
    ensures octet == if |octets| <= 252 then Some(2 + |octets|) else None
  {
    NextFree(canBind, rules, octets);
    hide Free, HandedOut;
  }

  lemma NextFree(canBind: Host, rules: seq<Rule>, octets: seq<Option<int>>)
    requires |octets| <= 253 && forall k :: 0 <= k < |octets| ==> octets[k] == Some(2 + k)
    requires BindsAll(canBind)
    ensures forall o :: Free(canBind, rules, HandedOut(octets), o) <==> 2 + |octets| <= o <= 254
    ensures |octets| < 253 ==> Free(canBind, rules, HandedOut(octets), 2 + |octets|)
  {
    forall o ensures Loopback(o) in HandedOut(octets) <==> 2 <= o < 2 + |octets| {
      if 2 <= o < 2 + |octets| {
        assert octets[o - 2] == Some(o);
        assert Some(o) in octets;
      }
    }
  }

  // ── passt's arguments, and what the user is told ──────────────────

  /** One passt port spec: an explicit list; all but some ranges, weakly; or a block shifted down. */
  datatype Spec =
    | Exactly(maps: seq<PortMap>)
    | AllBut(excluded: seq<(int, int)>)
    | Shift(first: int, last: int, to: int)

  /** The host's ephemeral range. */
  datatype Ephemeral = Ephemeral(low: int, high: int)

  predicate Within(range: (int, int), port: int) {
    range.0 <= port <= range.1
  }

  /** Whether passt takes a host port to this guest port: in weak mode what cannot be bound is left out. */
  predicate Forwards(spec: Spec, start: int, host: int, guest: int) {
    match spec
    case Exactly(maps) => PortMap(host, guest) in maps
    case AllBut(excluded) =>
      && host == guest && 0 < host < PORTS && host >= start
      && forall range :: range in excluded ==> !Within(range, host)
    case Shift(first, last, to) => first <= host <= last && guest == to + (host - first)
  }

  function InsertPort(maps: seq<PortMap>, p: PortMap): seq<PortMap> {
    if maps == [] || p.host < maps[0].host then [p] + maps else [maps[0]] + InsertPort(maps[1..], p)
  }

  /** By host port; ports with the same one stay as they were listed. */
  function SortedByHost(maps: seq<PortMap>): seq<PortMap> {
    if maps == [] then [] else InsertPort(SortedByHost(maps[..|maps| - 1]), maps[|maps| - 1])
  }

  lemma {:induction false} InsertPortKeeps(maps: seq<PortMap>, p: PortMap)
    ensures forall q :: q in InsertPort(maps, p) <==> q in maps || q == p
    decreases |maps|
  {
    if maps != [] {
      assert forall q :: q in maps <==> q == maps[0] || q in maps[1..];
      InsertPortKeeps(maps[1..], p);
    }
  }

  lemma {:induction false} SortedKeeps(maps: seq<PortMap>)
    ensures forall q :: q in SortedByHost(maps) <==> q in maps
    decreases |maps|
  {
    if maps != [] {
      var front, last := maps[..|maps| - 1], maps[|maps| - 1];
      assert forall q :: q in maps <==> q in front || q == last;
      SortedKeeps(front);
      InsertPortKeeps(SortedByHost(front), last);
    }
  }

  ghost predicate ByHost(maps: seq<PortMap>) {
    forall i, j :: 0 <= i < j < |maps| ==> maps[i].host <= maps[j].host
  }

  ghost function OfHost(maps: seq<PortMap>, host: int): seq<PortMap> {
    if maps == [] then []
    else if maps[0].host == host then [maps[0]] + OfHost(maps[1..], host)
    else OfHost(maps[1..], host)
  }

  lemma {:induction false} OfHostMore(maps: seq<PortMap>, p: PortMap, host: int)
    ensures OfHost(maps + [p], host) == OfHost(maps, host) + if p.host == host then [p] else []
    decreases |maps|
  {
    var all := maps + [p];
    if maps == [] {
      assert all[1..] == [];
    } else {
      OfHostMore(maps[1..], p, host);
      assert all[0] == maps[0] && all[1..] == maps[1..] + [p];
    }
  }

  lemma {:induction false} NoneOfHost(maps: seq<PortMap>, host: int)
    requires forall m :: m in maps ==> m.host > host
    ensures OfHost(maps, host) == []
    decreases |maps|
  {
    if maps != [] {
      NoneOfHost(maps[1..], host);
    }
  }

  lemma {:induction false} InsertPortByHost(maps: seq<PortMap>, p: PortMap)
    requires ByHost(maps)
    ensures ByHost(InsertPort(maps, p))
    decreases |maps|
  {
    if maps != [] && p.host >= maps[0].host {
      var rest := InsertPort(maps[1..], p);
      InsertPortByHost(maps[1..], p);
      InsertPortKeeps(maps[1..], p);
      hide InsertPort;
      assert forall m :: m in rest ==> m.host >= maps[0].host;
      assert forall i :: 0 <= i < |rest| ==> rest[i] in rest;
    }
  }

  lemma {:induction false} InsertPortLast(maps: seq<PortMap>, p: PortMap, host: int)
    requires ByHost(maps)
    ensures OfHost(InsertPort(maps, p), host) == OfHost(maps, host) + if p.host == host then [p] else []
    decreases |maps|
  {
    var all := InsertPort(maps, p);
    if maps == [] || p.host < maps[0].host {
      assert all[1..] == maps;
      if p.host == host {
        NoneOfHost(maps, host);
      }
    } else {
      InsertPortLast(maps[1..], p, host);
      assert all[0] == maps[0] && all[1..] == InsertPort(maps[1..], p);
    }
  }

  /** What passt is given is in the order of host ports, and where that is the same in the rule's. */
  lemma {:induction false} SortedInPlace(maps: seq<PortMap>, host: int)
    ensures ByHost(SortedByHost(maps)) && OfHost(SortedByHost(maps), host) == OfHost(maps, host)
    decreases |maps|
  {
    if maps != [] {
      var front, last := maps[..|maps| - 1], maps[|maps| - 1];
      SortedInPlace(front, host);
      InsertPortByHost(SortedByHost(front), last);
      InsertPortLast(SortedByHost(front), last, host);
      OfHostMore(front, last, host);
      assert maps == front + [last];
    }
  }

  /** `_specs`. */
  function Specs(rule: Rule, start: int, ephemeral: Ephemeral): seq<Spec> {
    match rule.ports
    case Listed(maps) => [Exactly(SortedByHost(maps))]
    case All =>
      var outside := [(ephemeral.low, ephemeral.high)];
      if start > 1 && rule.remapPrivileged then
        var first, last := rule.privilegedOffset + 1, rule.privilegedOffset + start - 1;
        [AllBut(outside + [(first, last)]), Shift(first, last, 1)]
      else [AllBut(outside)]
  }

  /** The host ports `reachable` names for a guest port, of one rule. */
  function ReachableByRule(rule: Rule, port: int, start: int, ephemeral: Ephemeral): seq<int> {
    match rule.ports
    case All =>
      if ephemeral.low <= port <= ephemeral.high then []
      else if port >= start then [port]
      else if rule.remapPrivileged then [port + rule.privilegedOffset]
      else []
    case Listed(maps) => HostsOf(maps, port)
  }

  function HostsOf(maps: seq<PortMap>, port: int): seq<int> {
    if maps == [] then []
    else HostsOf(maps[..|maps| - 1], port) + if maps[|maps| - 1].guest == port then [maps[|maps| - 1].host] else []
  }

  function AtAddress(address: Option<Address>, hosts: seq<int>): seq<(Option<Address>, int)> {
    seq(|hosts|, i requires 0 <= i < |hosts| => (address, hosts[i]))
  }

  function Reachable(rules: seq<Rule>, port: int, start: int, ephemeral: Ephemeral): seq<(Option<Address>, int)> {
    if rules == [] then []
    else
      var last := rules[|rules| - 1];
      Reachable(rules[..|rules| - 1], port, start, ephemeral)
      + AtAddress(last.address, ReachableByRule(last, port, start, ephemeral))
  }

  /** `reachable`. */
  method FindReachable(rules: seq<Rule>, port: int, start: int, ephemeral: Ephemeral)
    returns (found: seq<(Option<Address>, int)>)
    ensures found == Reachable(rules, port, start, ephemeral)
  {
    found := [];
    for i := 0 to |rules|
      invariant found == Reachable(rules[..i], port, start, ephemeral)
    {
      var rule := rules[i];
      assert rules[..i + 1][..i] == rules[..i];
      ghost var before := found;
      if rule.ports == All {
        if ephemeral.low <= port <= ephemeral.high {
          assert before + [] == before;
        } else if port >= start {
          found := found + [(rule.address, port)];
        } else if rule.remapPrivileged {
          found := found + [(rule.address, port + rule.privilegedOffset)];
        }
      } else {
        var hosts := HostsOf(rule.ports.maps, port);
        found := found + AtAddress(rule.address, hosts);
      }
      assert found == before + AtAddress(rule.address, ReachableByRule(rule, port, start, ephemeral));
    }
    assert rules[..|rules|] == rules;
  }

  lemma {:induction false} HostsExactly(maps: seq<PortMap>, port: int, host: int)
    ensures host in HostsOf(maps, port) <==> PortMap(host, port) in maps
    decreases |maps|
  {
    if maps != [] {
      var front, last := maps[..|maps| - 1], maps[|maps| - 1];
      HostsExactly(front, port, host);
      assert forall q :: q in maps <==> q in front || q == last;
    }
  }

  /** passt takes the host port to the guest port by one of the rule's specs. */
  ghost predicate Delivers(rule: Rule, start: int, ephemeral: Ephemeral, host: int, guest: int) {
    exists spec :: spec in Specs(rule, start, ephemeral) && Forwards(spec, start, host, guest)
  }

  /** The two say the same of this guest port. */
  ghost predicate Agree(rule: Rule, port: int, start: int, ephemeral: Ephemeral) {
    forall host ::
      host in ReachableByRule(rule, port, start, ephemeral) <==> Delivers(rule, start, ephemeral, host, port)
  }

  /** A port of the host block a wide rule reaches the guest's privileged ports by: `reachable` names
      it for itself, but passt takes it to another. */
  predicate InShiftedBlock(rule: Rule, port: int, start: int, ephemeral: Ephemeral) {
    && rule.privilegedOffset + 1 <= port <= rule.privilegedOffset + start - 1
    && port >= start && !Within((ephemeral.low, ephemeral.high), port)
  }

  /** A port that is privileged and ephemeral: passt takes the block to it, `reachable` says nothing does. */
  predicate PrivilegedEphemeral(port: int, start: int, ephemeral: Ephemeral) {
    Within((ephemeral.low, ephemeral.high), port) && port < start
  }

  /**
    What the user is told is what passt was told, for a port of the guest, exactly unless the rule is
    wide, shifts the privileged ports, and the port is in the block it shifts or both privileged and
    ephemeral.
  */
  lemma AgreeExactly(rule: Rule, port: int, start: int, ephemeral: Ephemeral)
    requires 0 < port < PORTS
    ensures Agree(rule, port, start, ephemeral) <==>
      !(rule.ports.All? && rule.remapPrivileged && start > 1
        && (InShiftedBlock(rule, port, start, ephemeral) || PrivilegedEphemeral(port, start, ephemeral)))
  {
    var specs := Specs(rule, start, ephemeral);
    match rule.ports
    case Listed(maps) =>
      forall host
        ensures host in ReachableByRule(rule, port, start, ephemeral) <==> Delivers(rule, start, ephemeral, host, port)
      {
        HostsExactly(maps, port, host);
        SortedKeeps(maps);
        assert specs[0] in specs;
      }
    case All =>
      var shifted := port + rule.privilegedOffset;
      WideDelivers(rule, port, start, ephemeral);
      hide Delivers, Specs;
      if Agree(rule, port, start, ephemeral) {
        var named := ReachableByRule(rule, port, start, ephemeral);
        assert port in named <==> Delivers(rule, start, ephemeral, port, port);
        assert shifted in named <==> Delivers(rule, start, ephemeral, shifted, port);
      }
  }

  lemma WideDelivers(rule: Rule, port: int, start: int, ephemeral: Ephemeral)
    requires 0 < port < PORTS && rule.ports.All?
    ensures var shifts := start > 1 && rule.remapPrivileged;
      var block := (rule.privilegedOffset + 1, rule.privilegedOffset + start - 1);
      forall host :: Delivers(rule, start, ephemeral, host, port) <==>
        || (host == port && port >= start && !Within((ephemeral.low, ephemeral.high), port)
            && !(shifts && Within(block, port)))
        || (shifts && host == port + rule.privilegedOffset && port < start)
  {
    var specs := Specs(rule, start, ephemeral);
    var excluded := specs[0].excluded;
    var outside := (ephemeral.low, ephemeral.high);
    if start > 1 && rule.remapPrivileged {
      assert specs[1] in specs && forall spec :: spec in specs <==> spec == specs[0] || spec == specs[1];
      assert excluded == [outside, (rule.privilegedOffset + 1, rule.privilegedOffset + start - 1)];
      assert forall r :: r in excluded <==> r == excluded[0] || r == excluded[1];
    } else {
      assert forall spec :: spec in specs <==> spec == specs[0];
      assert excluded == [outside] && forall r :: r in excluded <==> r == outside;
    }
    assert specs[0] in specs;
  }

  /** The guest's ports from `below` on, but for the ephemeral ones and the shifted block, lead to themselves. */
  ghost predicate KeptFrom(rule: Rule, start: int, ephemeral: Ephemeral, below: int) {
    forall guest :: below <= guest < PORTS && 0 < guest && !Within((ephemeral.low, ephemeral.high), guest)
                    && !(rule.remapPrivileged && InShiftedBlock(rule, guest, start, ephemeral)) ==>
      Delivers(rule, start, ephemeral, guest, guest)
  }

  /**
    What is said of a wide rule is how its ports go: nothing, exactly where the kernel keeps none from us;
    else, of the ports below the one named and of no others, that nothing leads to them, or that the
    port so much higher does and no other.
  */
  lemma WideIsTold(rule: Rule, start: int, ephemeral: Ephemeral)
    requires rule.ports.All?
    ensures Remapped(rule, start).0 == rule
    ensures var notes := Remapped(rule, start).1;
      && |notes| == (if start <= 1 then 0 else 1)
      && forall note :: note in notes ==> (
          && (note.NotForwarded? || note.Shifted?) && KeptFrom(rule, start, ephemeral, note.below)
          && forall guest, host :: 0 < guest < note.below && guest < PORTS ==> (
              Delivers(rule, start, ephemeral, host, guest) <==> note.Shifted? && host == guest + note.offset))
  {
    forall guest, host | 0 < guest < PORTS
      ensures Delivers(rule, start, ephemeral, host, guest) <==> (
        || (host == guest && guest >= start && !Within((ephemeral.low, ephemeral.high), guest)
            && !(start > 1 && rule.remapPrivileged
                 && Within((rule.privilegedOffset + 1, rule.privilegedOffset + start - 1), guest)))
        || (start > 1 && rule.remapPrivileged && host == guest + rule.privilegedOffset && guest < start))
    {
      WideDelivers(rule, guest, start, ephemeral);
    }
    hide Delivers;
    var notes := Remapped(rule, start).1;
    forall note | note in notes ensures KeptFrom(rule, start, ephemeral, note.below) {
    }
  }

  /** Where they disagree over a block, the named port leads to the guest port that was shifted to it. */
  lemma BlockLeadsElsewhere(rule: Rule, port: int, start: int, ephemeral: Ephemeral)
    requires 0 < port < PORTS && rule.ports.All? && rule.remapPrivileged && start > 1
    requires InShiftedBlock(rule, port, start, ephemeral)
    ensures port in ReachableByRule(rule, port, start, ephemeral)
    ensures forall guest :: 0 < guest < PORTS ==>
      (Delivers(rule, start, ephemeral, port, guest) <==> guest == port - rule.privilegedOffset)
  {
    forall guest | 0 < guest < PORTS
      ensures Delivers(rule, start, ephemeral, port, guest) <==> guest == port - rule.privilegedOffset
    {
      WideDelivers(rule, guest, start, ephemeral);
    }
  }

  lemma AtAddressExactly(at: Option<Address>, hosts: seq<int>, address: Option<Address>, host: int)
    ensures (address, host) in AtAddress(at, hosts) <==> address == at && host in hosts
  {
    var there := AtAddress(at, hosts);
    if host in hosts {
      var i :| 0 <= i < |hosts| && hosts[i] == host;
      assert there[i] == (at, host);
    }
  }

  lemma OneRuleExactly(rule: Rule, port: int, start: int, ephemeral: Ephemeral, address: Option<Address>, host: int)
    requires Agree(rule, port, start, ephemeral)
    ensures (address, host) in AtAddress(rule.address, ReachableByRule(rule, port, start, ephemeral))
      <==> rule.address == address && Delivers(rule, start, ephemeral, host, port)
  {
    AtAddressExactly(rule.address, ReachableByRule(rule, port, start, ephemeral), address, host);
    hide Delivers, ReachableByRule, AtAddress;
  }

  /** Of a whole list of rules that agree on a port: sound and complete. */
  lemma {:induction false} ReachableExactly(rules: seq<Rule>, port: int, start: int, ephemeral: Ephemeral,
      address: Option<Address>, host: int)
    requires forall rule :: rule in rules ==> Agree(rule, port, start, ephemeral)
    ensures (address, host) in Reachable(rules, port, start, ephemeral) <==>
      exists rule :: rule in rules && rule.address == address && Delivers(rule, start, ephemeral, host, port)
    decreases |rules|
  {
    hide Delivers, ReachableByRule, Agree, AtAddress;
    if rules != [] {
      var front, last := rules[..|rules| - 1], rules[|rules| - 1];
      assert forall rule :: rule in rules <==> rule in front || rule == last;
      ReachableExactly(front, port, start, ephemeral, address, host);
      OneRuleExactly(last, port, start, ephemeral, address, host);
    }
  }
}
