/**
  What crosses an arpyc connection: brine carries atoms and tuples, and labels carry lists and dicts
  over it (pkgs/uml-runner/uml_runner/arpyc.py:199-215).
*/
module Boxing {
  import opened Options

  /** Strings, numbers and bytes; what brine dumps as it is. */
  datatype Atom = Num(n: int) | Text(s: string)

  /** A dict is its items in insertion order; `Opaque` is any object brine refuses. */
  datatype Value =
    | Leaf(atom: Atom)
    | Tup(items: seq<Value>)
    | Lst(elements: seq<Value>)
    | Dict(pairs: seq<Pair>)
    | Opaque(id: nat)

  datatype Pair = Pair(key: Value, value: Value)

  const LABEL_VALUE := Leaf(Num(1))
  const LABEL_TUPLE := Leaf(Num(2))
  const LABEL_DICT := Leaf(Num(99))

  /** `brine.dumpable`. */
  predicate Dumpable(v: Value) {
    match v
    case Leaf(_) => true
    case Tup(items) => forall x :: x in items ==> Dumpable(x)
    case _ => false
  }

  function Package(tag: Value, content: Value): Value {
    Tup([tag, content])
  }

  function Box(v: Value): Value
    decreases v, 1
  {
    if Dumpable(v) then Package(LABEL_VALUE, v)
    else
      match v
      case Tup(items) => Package(LABEL_TUPLE, Tup(BoxAll(items)))
      case Lst(elements) => Package(LABEL_TUPLE, Tup(BoxAll(elements)))
      case Dict(pairs) => Package(LABEL_DICT, Tup(BoxPairs(pairs)))
      case _ => Package(LABEL_VALUE, v)
  }

  function BoxAll(vs: seq<Value>): (r: seq<Value>)
    decreases vs, 0
  {
    if vs == [] then [] else [Box(vs[0])] + BoxAll(vs[1..])
  }

  function BoxPairs(pairs: seq<Pair>): seq<Value>
    decreases pairs, 0
  {
    if pairs == [] then []
    else
      [BoxPair(pairs[0])] + BoxPairs(pairs[1..])
  }

  function BoxPair(pair: Pair): Value
    decreases pair, 2
  {
    Tup([pair.key, Box(pair.value)])
  }

  /** `d[k] = v`: a key keeps its place and takes the new value. */
  function Put(pairs: seq<Pair>, k: Value, v: Value): seq<Pair> {
    if pairs == [] then [Pair(k, v)]
    else if pairs[0].key == k then [Pair(k, v)] + pairs[1..]
    else [pairs[0]] + Put(pairs[1..], k, v)
  }

  /** `_unbox`; None where it raises, on what is no package. */
  function Unbox(package: Value): Option<Value>
    decreases package, 1
  {
    if !package.Tup? || |package.items| != 2 then None
    else
      var (tag, content) := (package.items[0], package.items[1]);
      if tag == LABEL_TUPLE then
        if !content.Tup? then None
        else
          var items := UnboxAll(content.items);
          if items.None? then None else Some(Tup(items.value))
      else if tag == LABEL_DICT then
        if !content.Tup? then None
        else
          var pairs := UnboxPairs(content.items, []);
          if pairs.None? then None else Some(Dict(pairs.value))
      else Some(content)
  }

  function UnboxAll(packages: seq<Value>): Option<seq<Value>>
    decreases packages, 0
  {
    if packages == [] then Some([])
    else
      var (first, rest) := (Unbox(packages[0]), UnboxAll(packages[1..]));
      if first.None? || rest.None? then None else Some([first.value] + rest.value)
  }

  function UnboxPairs(packages: seq<Value>, pairs: seq<Pair>): Option<seq<Pair>>
    decreases packages, 0
  {
    if packages == [] then Some(pairs)
    else
      var pair := packages[0];
      if !pair.Tup? || |pair.items| != 2 then None
      else
        var (k, v) := (pair.items[0], Unbox(pair.items[1]));
        if v.None? then None else UnboxPairs(packages[1..], Put(pairs, k, v.value))
  }

  // ── what it promises ──────────────────────────────────────────────

  predicate DistinctKeys(pairs: seq<Pair>) {
    forall i, j :: 0 <= i < j < |pairs| ==> pairs[i].key != pairs[j].key
  }

  /** The keys of a dict are different; in Python, by its being one. */
  predicate Proper(v: Value)
    decreases v
  {
    match v
    case Tup(items) => forall x :: x in items ==> Proper(x)
    case Lst(elements) => forall x :: x in elements ==> Proper(x)
    case Dict(pairs) =>
      && DistinctKeys(pairs)
      && forall p :: p in pairs ==> Proper(p.value)
    case _ => true
  }

  /** Built from atoms, tuples, lists, and dicts whose keys brine takes. */
  predicate Boxable(v: Value)
    decreases v
  {
    match v
    case Leaf(_) => true
    case Tup(items) => forall x :: x in items ==> Boxable(x)
    case Lst(elements) => forall x :: x in elements ==> Boxable(x)
    case Dict(pairs) => forall p :: p in pairs ==> Dumpable(p.key) && Boxable(p.value)
    case Opaque(_) => false
  }

  /** The value with its lists turned into tuples, as far as `_box` goes into it. */
  function Tupled(v: Value): Value
    decreases v, 1
  {
    match v
    case Tup(items) => Tup(TupledAll(items))
    case Lst(elements) => Tup(TupledAll(elements))
    case Dict(pairs) => Dict(TupledPairs(pairs))
    case _ => v
  }

  function TupledAll(vs: seq<Value>): (r: seq<Value>)
    ensures |r| == |vs| && forall i :: 0 <= i < |vs| ==> r[i] == Tupled(vs[i])
    decreases vs, 0
  {
    if vs == [] then [] else [Tupled(vs[0])] + TupledAll(vs[1..])
  }

  function TupledPairs(pairs: seq<Pair>): (r: seq<Pair>)
    ensures |r| == |pairs| && forall i :: 0 <= i < |pairs| ==> r[i] == TupledPair(pairs[i])
    decreases pairs, 0
  {
    if pairs == [] then [] else [TupledPair(pairs[0])] + TupledPairs(pairs[1..])
  }

  function TupledPair(pair: Pair): Pair
    decreases pair, 2
  {
    Pair(pair.key, Tupled(pair.value))
  }

  /** What brine carries as it is has no lists to turn. */
  lemma {:induction false} DumpableStays(v: Value)
    requires Dumpable(v)
    ensures Tupled(v) == v && Boxable(v)
    decreases v
  {
    if v.Tup? {
      forall x | x in v.items ensures Tupled(x) == x && Boxable(x) {
        DumpableStays(x);
      }
      assert TupledAll(v.items) == v.items;
    }
  }

  lemma BoxAllItems(vs: seq<Value>)
    ensures |BoxAll(vs)| == |vs| && forall i :: 0 <= i < |vs| ==> BoxAll(vs)[i] == Box(vs[i])
  {
  }

  lemma BoxPairsItems(pairs: seq<Pair>)
    ensures |BoxPairs(pairs)| == |pairs|
    ensures forall i :: 0 <= i < |pairs| ==> BoxPairs(pairs)[i] == BoxPair(pairs[i])
  {
  }

  /** A boxed value can be dumped exactly when it is built from what the labels know. */
  lemma {:induction false} BoxDumpable(v: Value)
    ensures Dumpable(Box(v)) <==> Boxable(v)
    decreases v, 1
  {
    if Dumpable(v) {
      DumpableStays(v);
      PackageDumpable(LABEL_VALUE, v);
    } else {
      match v
      case Tup(items) =>
        BoxAllDumpable(items);
        PackageDumpable(LABEL_TUPLE, Tup(BoxAll(items)));
      case Lst(elements) =>
        BoxAllDumpable(elements);
        PackageDumpable(LABEL_TUPLE, Tup(BoxAll(elements)));
      case Dict(pairs) =>
        BoxPairsItems(pairs);
        var boxed := BoxPairs(pairs);
        forall i | 0 <= i < |pairs|
          ensures Dumpable(boxed[i]) <==> Dumpable(pairs[i].key) && Boxable(pairs[i].value)
        {
          assert pairs[i] in pairs;
          BoxDumpable(pairs[i].value);
          PackageDumpable(pairs[i].key, Box(pairs[i].value));
        }
        PackageDumpable(LABEL_DICT, Tup(boxed));
        assert forall i :: 0 <= i < |pairs| ==> pairs[i] in pairs && boxed[i] in boxed;
      case _ => PackageDumpable(LABEL_VALUE, v);
    }
  }

  lemma PackageDumpable(tag: Value, content: Value)
    ensures Dumpable(Package(tag, content)) <==> Dumpable(tag) && Dumpable(content)
  {
    var items := Package(tag, content).items;
    assert items[0] == tag && items[1] == content;
  }

  lemma BoxAllDumpable(vs: seq<Value>)
    ensures (forall b :: b in BoxAll(vs) ==> Dumpable(b)) <==> (forall x :: x in vs ==> Boxable(x))
    decreases vs, 0
  {
    BoxAllItems(vs);
    var boxed := BoxAll(vs);
    forall i | 0 <= i < |vs| ensures Dumpable(boxed[i]) <==> Boxable(vs[i]) {
      BoxDumpable(vs[i]);
    }
    hide Dumpable, Boxable, Box, BoxAll;
    if forall x :: x in vs ==> Boxable(x) {
    } else {
      var i :| 0 <= i < |vs| && !Boxable(vs[i]);
      assert boxed[i] in boxed;
    }
  }

  lemma {:induction false} PutNew(pairs: seq<Pair>, k: Value, v: Value)
    requires forall p :: p in pairs ==> p.key != k
    ensures Put(pairs, k, v) == pairs + [Pair(k, v)]
    decreases |pairs|
  {
    if pairs != [] {
      PutNew(pairs[1..], k, v);
      assert [pairs[0]] + (pairs[1..] + [Pair(k, v)]) == pairs + [Pair(k, v)];
    }
  }

  /** `_unbox` undoes `_box`, but for lists, which come back as tuples; whatever the value holds. */
  lemma {:induction false} RoundTrip(v: Value)
    requires Proper(v)
    ensures Unbox(Box(v)) == Some(Tupled(v))
    decreases v, 1
  {
    if Dumpable(v) {
      DumpableStays(v);
    } else {
      match v
      case Tup(items) => RoundTripAll(items);
      case Lst(elements) => RoundTripAll(elements);
      case Dict(pairs) =>
        assert forall i :: 0 <= i < |pairs| ==> pairs[i] in pairs;
        RoundTripPairs(pairs, 0);
        assert pairs[0..] == pairs && pairs[..0] == [];
      case _ =>
    }
  }

  lemma {:induction false} RoundTripAll(vs: seq<Value>)
    requires forall v :: v in vs ==> Proper(v)
    ensures UnboxAll(BoxAll(vs)) == Some(TupledAll(vs))
    decreases vs, 0
  {
    if vs != [] {
      RoundTrip(vs[0]);
      RoundTripAll(vs[1..]);
      assert BoxAll(vs)[1..] == BoxAll(vs[1..]);
    }
  }

  lemma UnboxPairsStep(packages: seq<Value>, done: seq<Pair>, k: Value, package: Value, v: Value)
    requires packages != [] && packages[0] == Tup([k, package]) && Unbox(package) == Some(v)
    ensures UnboxPairs(packages, done) == UnboxPairs(packages[1..], Put(done, k, v))
  {
  }

  lemma {:induction false} RoundTripPairs(pairs: seq<Pair>, n: nat)
    requires n <= |pairs| && DistinctKeys(pairs)
    requires forall i :: 0 <= i < |pairs| ==> Proper(pairs[i].value)
    ensures UnboxPairs(BoxPairs(pairs[n..]), TupledPairs(pairs[..n])) == Some(TupledPairs(pairs))
    decreases pairs, |pairs| - n
  {
    if n == |pairs| {
      assert pairs[..n] == pairs && pairs[n..] == [] && BoxPairs([]) == [];
    } else {
      hide Unbox, Box, Tupled, Put, Proper, UnboxPairs, BoxPairs, TupledPairs;
      RoundTripPair(pairs[n]);
      RoundTripPairs(pairs, n + 1);
      var done, first, boxed := TupledPairs(pairs[..n]), TupledPair(pairs[n]), BoxPairs(pairs[n..]);
      BoxFirst(pairs, n);
      TupledNext(pairs, n);
      UnboxPairsStep(boxed, done, first.key, Box(pairs[n].value), first.value);
      PutNew(done, first.key, first.value);
    }
  }

  lemma BoxFirst(pairs: seq<Pair>, n: nat)
    requires n < |pairs|
    ensures var boxed := BoxPairs(pairs[n..]);
      |boxed| > 0 && boxed[0] == BoxPair(pairs[n]) && boxed[1..] == BoxPairs(pairs[n + 1..])
  {
    assert pairs[n..][1..] == pairs[n + 1..];
  }

  lemma TupledNext(pairs: seq<Pair>, n: nat)
    requires n < |pairs|
    ensures TupledPairs(pairs[..n + 1]) == TupledPairs(pairs[..n]) + [TupledPair(pairs[n])]
  {
    hide Tupled;
  }

  lemma {:induction false} RoundTripPair(pair: Pair)
    requires Proper(pair.value)
    ensures Unbox(Box(pair.value)) == Some(Tupled(pair.value))
    decreases pair, 2
  {
    RoundTrip(pair.value);
  }

  /** So what arrives can be sent on, and arrives as it is. */
  lemma {:induction false} TupledIsFixed(v: Value)
    ensures Tupled(Tupled(v)) == Tupled(v) && (Proper(v) ==> Proper(Tupled(v)))
    ensures Boxable(v) ==> Boxable(Tupled(v))
    decreases v
  {
    match v
    case Tup(items) =>
      forall i | 0 <= i < |items|
        ensures var t := Tupled(items[i]);
          Tupled(t) == t && (Proper(items[i]) ==> Proper(t)) && (Boxable(items[i]) ==> Boxable(t))
      {
        TupledIsFixed(items[i]);
      }
      assert TupledAll(TupledAll(items)) == TupledAll(items);
    case Lst(items) =>
      forall i | 0 <= i < |items|
        ensures var t := Tupled(items[i]);
          Tupled(t) == t && (Proper(items[i]) ==> Proper(t)) && (Boxable(items[i]) ==> Boxable(t))
      {
        TupledIsFixed(items[i]);
      }
      assert TupledAll(TupledAll(items)) == TupledAll(items);
    case Dict(pairs) =>
      forall i | 0 <= i < |pairs|
        ensures var (x, t) := (pairs[i].value, Tupled(pairs[i].value));
          Tupled(t) == t && (Proper(x) ==> Proper(t)) && (Boxable(x) ==> Boxable(t))
      {
        TupledIsFixed(pairs[i].value);
      }
      assert TupledPairs(TupledPairs(pairs)) == TupledPairs(pairs);
    case _ =>
  }

  ghost predicate Has(pairs: seq<Pair>, k: Value) {
    exists i :: 0 <= i < |pairs| && pairs[i].key == k
  }

  lemma PutAgain(first: Pair, rest: seq<Pair>, put: seq<Pair>, k: Value, v: Value)
    requires first.key != k && PutSays(rest, put, k, v)
    ensures PutSays([first] + rest, [first] + put, k, v)
  {
    var pairs := [first] + rest;
    assert forall i :: 0 < i < |pairs| ==> pairs[i] == rest[i - 1] && ([first] + put)[i] == put[i - 1];
    if Has(rest, k) {
      var i :| 0 <= i < |rest| && rest[i].key == k;
      assert pairs[i + 1].key == k;
    }
  }

  ghost predicate PutSays(pairs: seq<Pair>, put: seq<Pair>, k: Value, v: Value) {
    && |put| == |pairs| + (if Has(pairs, k) then 0 else 1)
    && (forall i :: 0 <= i < |pairs| ==> put[i] == if pairs[i].key == k then Pair(k, v) else pairs[i])
    && (|put| > |pairs| ==> put[|pairs|] == Pair(k, v))
  }

  /** Setting a key keeps the others and the order; one that was not there comes last. */
  lemma {:induction false} PutExactly(pairs: seq<Pair>, k: Value, v: Value)
    requires DistinctKeys(pairs)
    ensures PutSays(pairs, Put(pairs, k, v), k, v)
    decreases |pairs|
  {
    if pairs != [] && pairs[0].key != k {
      PutExactly(pairs[1..], k, v);
      PutAgain(pairs[0], pairs[1..], Put(pairs[1..], k, v), k, v);
      hide PutSays;
      assert [pairs[0]] + pairs[1..] == pairs;
    }
  }

  lemma PutDistinct(pairs: seq<Pair>, k: Value, v: Value)
    requires DistinctKeys(pairs)
    ensures DistinctKeys(Put(pairs, k, v))
  {
    PutExactly(pairs, k, v);
    hide Put;
  }

  /** The value can be unboxed from something, and sent on: it arrives as it is. */
  ghost predicate Plain(v: Value) {
    Proper(v) && Boxable(v) && Tupled(v) == v
  }

  lemma {:induction false} DumpableIsPlain(v: Value)
    requires Dumpable(v)
    ensures Plain(v)
    decreases v
  {
    DumpableStays(v);
    if v.Tup? {
      forall x | x in v.items ensures Proper(x) {
        DumpableIsPlain(x);
      }
    }
  }

  lemma TupIsPlain(items: seq<Value>)
    requires forall x :: x in items ==> Plain(x)
    ensures Plain(Tup(items))
  {
    assert forall i :: 0 <= i < |items| ==> items[i] in items;
    assert TupledAll(items) == items;
  }

  ghost predicate PlainPairs(pairs: seq<Pair>) {
    DistinctKeys(pairs) && forall p :: p in pairs ==> Dumpable(p.key) && Plain(p.value)
  }

  lemma DictIsPlain(pairs: seq<Pair>)
    requires PlainPairs(pairs)
    ensures Plain(Dict(pairs))
  {
    assert forall i :: 0 <= i < |pairs| ==> pairs[i] in pairs;
    assert TupledPairs(pairs) == pairs;
  }

  /** Whatever brine loads, if it can be unboxed, gives a value that has no lists and whose dicts have
      each key once; so it can be sent on. */
  lemma {:induction false} UnboxIsPlain(package: Value)
    requires Dumpable(package) && Unbox(package).Some?
    ensures Plain(Unbox(package).value)
    decreases package, 1
  {
    var content := package.items[1];
    assert content in package.items;
    if package.items[0] == LABEL_TUPLE {
      UnboxAllPlain(content.items);
      TupIsPlain(UnboxAll(content.items).value);
    } else if package.items[0] == LABEL_DICT {
      UnboxPairsPlain(content.items, []);
      DictIsPlain(UnboxPairs(content.items, []).value);
    } else {
      DumpableIsPlain(content);
    }
  }

  lemma {:induction false} UnboxAllPlain(packages: seq<Value>)
    requires (forall p :: p in packages ==> Dumpable(p)) && UnboxAll(packages).Some?
    ensures forall x :: x in UnboxAll(packages).value ==> Plain(x)
    decreases packages, 0
  {
    if packages != [] {
      UnboxIsPlain(packages[0]);
      UnboxAllPlain(packages[1..]);
      hide Plain, Unbox;
    }
  }

  lemma {:induction false} UnboxPairsPlain(packages: seq<Value>, pairs: seq<Pair>)
    requires (forall p :: p in packages ==> Dumpable(p)) && PlainPairs(pairs) && UnboxPairs(packages, pairs).Some?
    ensures PlainPairs(UnboxPairs(packages, pairs).value)
    decreases packages, 0
  {
    if packages != [] {
      var pair := packages[0];
      assert pair in packages && pair.items[0] in pair.items && pair.items[1] in pair.items;
      UnboxIsPlain(pair.items[1]);
      hide Plain, Unbox, Dumpable;
      PutPlain(pairs, pair.items[0], Unbox(pair.items[1]).value);
      UnboxPairsPlain(packages[1..], Put(pairs, pair.items[0], Unbox(pair.items[1]).value));
    }
  }

  lemma PutPlain(pairs: seq<Pair>, k: Value, v: Value)
    requires PlainPairs(pairs) && Dumpable(k) && Plain(v)
    ensures PlainPairs(Put(pairs, k, v))
  {
    PutExactly(pairs, k, v);
    PutDistinct(pairs, k, v);
    hide Plain, Dumpable, Put, DistinctKeys;
    var put := Put(pairs, k, v);
    forall p | p in put ensures Dumpable(p.key) && Plain(p.value) {
      var i :| 0 <= i < |put| && put[i] == p;
      assert i < |pairs| ==> pairs[i] in pairs;
    }
  }

  /** Over the wire, where brine loads what it dumped. */
  lemma AcrossTheWire<Wire(!new)>(dump: Value -> Wire, load: Wire -> Value, v: Value)
    requires forall x :: Dumpable(x) ==> load(dump(x)) == x
    requires Proper(v) && Boxable(v)
    ensures Unbox(load(dump(Box(v)))) == Some(Tupled(v))
  {
    BoxDumpable(v);
    RoundTrip(v);
  }
}
