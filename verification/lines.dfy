/** A byte stream cut at its newlines, whole or a piece at a time. */
module Lines {
  type Byte = b: int | 0 <= b < 256

  const NEWLINE: Byte := 10

  type Bytes = seq<Byte>

  /** One byte more at the front: a new empty piece, or a longer first piece. */
  function Grow(x: Byte, ps: seq<Bytes>): seq<Bytes>
    requires |ps| >= 1
  {
    if x == NEWLINE then [[]] + ps else [[x] + ps[0]] + ps[1..]
  }

  /** What Python's `split(b"\n")` answers: always one piece more than there are newlines. */
  function Pieces(buffer: Bytes): (ps: seq<Bytes>)
    ensures |ps| >= 1
  {
    if buffer == [] then [[]] else Grow(buffer[0], Pieces(buffer[1..]))
  }

  function Join(ps: seq<Bytes>): Bytes
    requires |ps| >= 1
  {
    if |ps| == 1 then ps[0] else ps[0] + [NEWLINE] + Join(ps[1..])
  }

  /** The pieces are the stream cut at each newline and nowhere else. */
  lemma {:induction false} PiecesCut(buffer: Bytes)
    ensures Join(Pieces(buffer)) == buffer
    ensures forall p :: p in Pieces(buffer) ==> NEWLINE !in p
  {
    if buffer != [] {
      PiecesCut(buffer[1..]);
      var ps := Pieces(buffer[1..]);
      if buffer[0] == NEWLINE {
        assert ([[]] + ps)[1..] == ps;
      } else {
        var qs := [[buffer[0]] + ps[0]] + ps[1..];
        assert qs[1..] == ps[1..];
        assert Join(qs) == [buffer[0]] + Join(ps);
      }
    }
  }

  /** The only such cut. */
  lemma {:induction false} PiecesOfJoin(ps: seq<Bytes>)
    requires |ps| >= 1 && forall p :: p in ps ==> NEWLINE !in p
    ensures Pieces(Join(ps)) == ps
    decreases |ps|
  {
    if |ps| > 1 {
      PiecesOfJoin(ps[1..]);
      PiecesOfLine(ps[0], Join(ps[1..]));
      assert [ps[0]] + ps[1..] == ps;
      assert ps[0] + [NEWLINE] + Join(ps[1..]) == ps[0] + ([NEWLINE] + Join(ps[1..]));
    } else {
      PiecesOfPartial(ps[0]);
    }
  }

  lemma {:induction false} PiecesOfLine(line: Bytes, more: Bytes)
    requires NEWLINE !in line
    ensures Pieces(line + ([NEWLINE] + more)) == [line] + Pieces(more)
    decreases |line|
  {
    var all := line + ([NEWLINE] + more);
    if line == [] {
      assert all[1..] == more;
    } else {
      assert all[1..] == line[1..] + ([NEWLINE] + more);
      PiecesOfLine(line[1..], more);
      assert [line[0]] + line[1..] == line;
    }
  }

  lemma {:induction false} PiecesOfPartial(line: Bytes)
    requires NEWLINE !in line
    ensures Pieces(line) == [line]
    decreases |line|
  {
    if line != [] {
      PiecesOfPartial(line[1..]);
      assert [line[0]] + line[1..] == line;
    }
  }

  /** The lines that have ended. */
  function Complete(buffer: Bytes): seq<Bytes> {
    Pieces(buffer)[..|Pieces(buffer)| - 1]
  }

  /** What follows the last newline. */
  function Partial(buffer: Bytes): Bytes {
    Pieces(buffer)[|Pieces(buffer)| - 1]
  }

  lemma Associate<T>(a: seq<T>, b: seq<T>, c: seq<T>)
    ensures (a + b) + c == a + (b + c)
  {
  }

  lemma TailOfSum<T>(a: seq<T>, b: seq<T>)
    requires a != []
    ensures (a + b)[0] == a[0] && (a + b)[1..] == a[1..] + b
  {
  }

  lemma GrowFront(x: Byte, front: seq<Bytes>, qs: seq<Bytes>)
    requires front != []
    ensures Grow(x, front + qs) == Grow(x, front) + qs
  {
    TailOfSum(front, qs);
    Associate([[]], front, qs);
    Associate([[x] + front[0]], front[1..], qs);
  }

  lemma GrowInside(x: Byte, front: seq<Bytes>, last: Bytes, b: Bytes)
    requires front != []
    ensures var ps := Grow(x, front + [last]);
      ps[..|ps| - 1] + Pieces(ps[|ps| - 1] + b) == Grow(x, front + Pieces(last + b))
  {
    GrowFront(x, front, Pieces(last + b));
    GrowFront(x, front, [last]);
    hide Pieces, Grow;
    assert (Grow(x, front) + [last])[..|Grow(x, front)|] == Grow(x, front);
  }

  lemma GrowLast(x: Byte, last: Bytes, b: Bytes)
    ensures var ps := Grow(x, [last]);
      ps[..|ps| - 1] + Pieces(ps[|ps| - 1] + b) == Grow(x, Pieces(last + b))
  {
    if x == NEWLINE {
      assert Grow(x, [last]) == [[], last];
      hide Pieces;
    } else {
      assert [last][1..] == [] && Grow(x, [last]) == [[x] + last];
      assert (([x] + last) + b)[1..] == last + b;
      assert [[x] + last][..0] == [];
    }
  }

  lemma {:induction false} PiecesReadOn(a: Bytes, b: Bytes)
    ensures Pieces(a + b) == Complete(a) + Pieces(Partial(a) + b)
    decreases |a|
  {
    if a == [] {
      assert a + b == b && Partial(a) + b == b;
    } else {
      var rest := a[1..];
      PiecesReadOn(rest, b);
      assert (a + b)[1..] == rest + b;
      assert Pieces(a) == Grow(a[0], Pieces(rest)) && Pieces(a + b) == Grow(a[0], Pieces(rest + b));
      var front, last := Complete(rest), Partial(rest);
      assert Pieces(rest) == front + [last];
      if front != [] {
        GrowInside(a[0], front, last, b);
      } else {
        GrowLast(a[0], last, b);
        assert front + [last] == [last] && front + Pieces(last + b) == Pieces(last + b);
      }
      hide Pieces, Grow;
    }
  }

  /** Reading on from a cut anywhere, even inside a line, loses and repeats nothing. */
  lemma ReadOn(a: Bytes, b: Bytes)
    ensures Complete(a + b) == Complete(a) + Complete(Partial(a) + b)
    ensures Partial(a + b) == Partial(Partial(a) + b)
  {
    PiecesReadOn(a, b);
    hide Pieces;
  }

  function NonEmpty(lines: seq<Bytes>): seq<Bytes> {
    if lines == [] then []
    else (if lines[0] == [] then [] else [lines[0]]) + NonEmpty(lines[1..])
  }

  lemma {:induction false} NonEmptyConcat(a: seq<Bytes>, b: seq<Bytes>)
    ensures NonEmpty(a + b) == NonEmpty(a) + NonEmpty(b)
    decreases |a|
  {
    if a == [] {
      assert a + b == b;
    } else {
      var rest, first := a[1..], if a[0] == [] then [] else [a[0]];
      NonEmptyConcat(rest, b);
      assert (a + b)[1..] == rest + b && (a + b)[0] == a[0];
      assert NonEmpty(a + b) == first + NonEmpty(rest + b) && NonEmpty(a) == first + NonEmpty(rest);
      hide NonEmpty;
      assert (first + NonEmpty(rest)) + NonEmpty(b) == first + (NonEmpty(rest) + NonEmpty(b));
    }
  }
}
