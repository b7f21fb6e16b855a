/**
  Following a file while it grows (pkgs/uml/uml/journal.py:99-138). Lines are kept as bytes:
  decoding them is a function of each line.
*/
module Journal {
  import opened Lines
  import opened Options

  /** The complete lines in the buffer that hold anything, and the partial one after them. */
  function Split(buffer: Bytes): (seq<Bytes>, Bytes) {
    (NonEmpty(Complete(buffer)), Partial(buffer))
  }

  /** `Tail`'s fields. */
  datatype Place = Place(offset: nat, rest: Bytes)

  /** One `Tail.read` of a file that holds `content`, or is not there yet. */
  function ReadPlace(t: Place, content: Option<Bytes>): (seq<Bytes>, Place) {
    match content
    case None => ([], t)
    case Some(c) =>
      var from := if |c| < t.offset then Place(0, []) else t;
      if |c| == from.offset then ([], from)
      else
        var (lines, rest) := Split(from.rest + c[from.offset..]);
        (lines, Place(|c|, rest))
  }

  /** `t` is where a reader is that has taken in exactly `seen` since it last began. */
  ghost predicate At(t: Place, seen: Bytes) {
    t.offset == |seen| && t.rest == Split(seen).1
  }

  /** What a reader has taken in after one more read: nothing new, a fresh start, or the growth. */
  function Sees(seen: Bytes, content: Option<Bytes>): Bytes {
    match content
    case None => seen
    case Some(c) => if |c| < |seen| then c else seen + c[|seen|..]
  }

  predicate Restarts(seen: Bytes, content: Option<Bytes>) {
    content.Some? && |content.value| < |seen|
  }

  /** One read hands over exactly the lines completed by what it took in. */
  lemma ReadIsExact(t: Place, seen: Bytes, content: Option<Bytes>)
    requires At(t, seen)
    ensures At(ReadPlace(t, content).1, Sees(seen, content))
    ensures Split(Sees(seen, content)).0 ==
      (if Restarts(seen, content) then [] else Split(seen).0) + ReadPlace(t, content).0
  {
    if content.Some? {
      var c := content.value;
      if |c| < |seen| {
        assert [] + c[0..] == c;
        if c == [] { assert Split(c) == ([], []); }
      } else {
        ReadOn(seen, c[|seen|..]);
        NonEmptyConcat(Complete(seen), Complete(Partial(seen) + c[|seen|..]));
        if |c| == |seen| { assert seen + c[|seen|..] == seen; }
      }
    }
  }

  /** The reader is on the file as it now is exactly when a truncation shows as a smaller size. */
  lemma TruncationSeenExactly(seen: Bytes, c: Bytes)
    ensures Sees(seen, Some(c)) == c <==> |c| < |seen| || seen <= c
  {
    if seen <= c { assert seen + c[|seen|..] == c; }
    if |c| >= |seen| && Sees(seen, Some(c)) == c {
      assert c[..|seen|] == seen;
    }
  }

  /** A file begun anew and grown to what it was, or past it, is read on from the old place: of a line
      as long as the one it replaced, nothing is ever handed over. */
  lemma TruncationMissed(before: Bytes, after: Bytes)
    requires |before| == |after| && before != after && NEWLINE !in before && NEWLINE !in after
    ensures var first, second := before + [NEWLINE], after + [NEWLINE];
      var (lines, place) := ReadPlace(Place(0, []), Some(first));
      && lines == [before] && ReadPlace(place, Some(second)) == ([], place)
      && Split(second).0 == [after] && Sees(first, Some(second)) != second
  {
    var none: Bytes := [];
    var first, second := before + [NEWLINE], after + [NEWLINE];
    assert none + first[0..] == first;
    OneLineOnly(before);
    OneLineOnly(after);
    assert first[..|before|] == before && second[..|after|] == after;
    assert first + second[|first|..] == first;
  }

  lemma OneLineOnly(line: Bytes)
    requires NEWLINE !in line && line != []
    ensures Split(line + [NEWLINE]) == ([line], [])
  {
    var none: Bytes := [];
    PiecesOfLine(line, none);
    assert [NEWLINE] + none == [NEWLINE];
    var one: seq<Bytes> := [line];
    assert Pieces(none) == [none] && (one + [none])[..1] == one;
    assert one[1..] == [] && NonEmpty(one) == one;
  }

  function ReadAll(t: Place, contents: seq<Option<Bytes>>): (seq<Bytes>, Place)
    decreases |contents|
  {
    if contents == [] then ([], t)
    else
      var (lines, next) := ReadPlace(t, contents[0]);
      var (more, end) := ReadAll(next, contents[1..]);
      (lines + more, end)
  }

  /** Each content is missing or begins with all there was before. */
  ghost predicate Grows(seen: Bytes, contents: seq<Option<Bytes>>)
    decreases |contents|
  {
    contents == [] ||
    match contents[0]
    case None => Grows(seen, contents[1..])
    case Some(c) => seen <= c && Grows(c, contents[1..])
  }

  function Last(seen: Bytes, contents: seq<Option<Bytes>>): Bytes
    decreases |contents|
  {
    if contents == [] then seen
    else Last(if contents[0].Some? then contents[0].value else seen, contents[1..])
  }

  /** One read of a file that has only grown. */
  lemma ReadGrowth(t: Place, seen: Bytes, content: Option<Bytes>)
    requires At(t, seen) && (content.Some? ==> seen <= content.value)
    ensures var now := if content.Some? then content.value else seen;
      At(ReadPlace(t, content).1, now) && Split(now).0 == Split(seen).0 + ReadPlace(t, content).0
  {
    ReadIsExact(t, seen, content);
    if content.Some? {
      TruncationSeenExactly(seen, content.value);
    }
    hide Split, ReadPlace, At;
  }

  lemma {:induction false} ReadAllIsExact(t: Place, seen: Bytes, contents: seq<Option<Bytes>>)
    requires At(t, seen) && Grows(seen, contents)
    ensures var (lines, end) := ReadAll(t, contents);
      Split(seen).0 + lines == Split(Last(seen, contents)).0 && At(end, Last(seen, contents))
    decreases |contents|
  {
    hide Split, ReadPlace, At;
    if contents != [] {
      ReadGrowth(t, seen, contents[0]);
      var now := if contents[0].Some? then contents[0].value else seen;
      var (lines, place) := ReadPlace(t, contents[0]);
      ReadAllIsExact(place, now, contents[1..]);
      var (more, end) := ReadAll(place, contents[1..]);
      assert (Split(seen).0 + lines) + more == Split(seen).0 + (lines + more);
    } else {
      var none: seq<Bytes> := [];
      assert Split(seen).0 + none == Split(seen).0;
    }
  }

  /**
    However a growing file is read, and wherever the reads cut it, the lines handed over are the
    non-empty complete lines of all of it, once each and in order.
  */
  lemma TailRefinesSplit(contents: seq<Option<Bytes>>)
    requires Grows([], contents)
    ensures var (lines, end) := ReadAll(Place(0, []), contents);
      lines == Split(Last([], contents)).0 && end.rest == Split(Last([], contents)).1
  {
    assert At(Place(0, []), []);
    ReadAllIsExact(Place(0, []), [], contents);
    var (lines, end) := ReadAll(Place(0, []), contents);
    assert Split([]).0 + lines == lines;
  }

  class Tail {
    var offset: nat
    var rest: Bytes
    ghost var seen: Bytes

    ghost predicate Valid()
      reads this
    {
      At(Place(offset, rest), seen)
    }

    constructor ()
      ensures Valid() && seen == []
    {
      offset, rest, seen := 0, [], [];
    }

    /** The new complete lines, each time it is asked. */
    method Read(content: Option<Bytes>) returns (lines: seq<Bytes>)
      requires Valid()
      modifies this
      ensures Valid() && seen == Sees(old(seen), content)
      ensures Split(seen).0 == (if Restarts(old(seen), content) then [] else Split(old(seen)).0) + lines
    {
      ReadIsExact(Place(offset, rest), seen, content);
      seen := Sees(seen, content);
      if content.None? {
        return [];
      }
      var size := |content.value|;
      if size < offset {
        offset, rest := 0, [];
      }
      if size == offset {
        return [];
      }
      var data := content.value[offset..];
      offset := offset + |data|;
      var cut := Split(rest + data);
      lines := cut.0;
      rest := cut.1;
    }
  }
}
