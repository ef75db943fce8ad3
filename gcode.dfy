/**
 * The output vocabulary of the post-processor and the helpers that emit it.
 *
 * Output is a stream of operations: `Line` stands for "echo the current input
 * line as it is" (the marker the program calls LINE), every other operation is
 * one text token. Tokens are kept symbolic: the two-decimal formatting of the
 * numbers is not modelled.
 */
module Gcode {
  import opened Wrappers
  import opened Geometry

  /** The motion commands the engine emits itself: a cut, a clockwise and a counter-clockwise arc. */
  datatype Code = G1 | G2 | G3 {
    predicate IsCircular() { this == G2 || this == G3 }
  }

  datatype Token =
    | Command(code: Code)     // "G1", "G2", "G3"
    | X(x: real)              // "X<x>"
    | Y(y: real)              // "Y<y>"
    | IJ(i: real, j: real)    // "I<i>J<j>": arc centre relative to the arc's start
    | G0Z(z: real)            // "G0Z<z>": rapid height move
    | Newline                 // "\n"

  datatype Op = Line | Tok(t: Token) {
    /** A text operation beginning with "G0Z"; no other token's text begins that way. */
    predicate IsLift() { Tok? && t.G0Z? }
    predicate IsX() { Tok? && t.X? }
    predicate IsY() { Tok? && t.Y? }
    predicate IsIJ() { Tok? && t.IJ? }
  }

  /** The position after reading one operation at `from`. */
  function Advance(op: Op, from: Point): Point {
    match op
    case Tok(X(x)) => Point(x, from.y)
    case Tok(Y(y)) => Point(from.x, y)
    case _ => from
  }

  /**
   * The position in the plane reached by a controller that reads `ops`
   * starting at `from`: an X word sets x, a Y word sets y, and an axis a
   * line does not mention keeps its value. Height moves, arc centres and
   * echoed lines are ignored here.
   */
  function EndPoint(ops: seq<Op>, from: Point): Point
    decreases |ops|
  {
    if ops == [] then from else EndPoint(ops[1..], Advance(ops[0], from))
  }

  lemma {:induction false} EndPointAppend(a: seq<Op>, b: seq<Op>, from: Point)
    ensures EndPoint(a + b, from) == EndPoint(b, EndPoint(a, from))
    decreases |a|
  {
    if a != [] {
      assert (a + b)[0] == a[0];
      assert (a + b)[1..] == a[1..] + b;
      EndPointAppend(a[1..], b, Advance(a[0], from));
      calc {
        EndPoint(a + b, from);
        EndPoint(a[1..] + b, Advance(a[0], from));
        EndPoint(b, EndPoint(a[1..], Advance(a[0], from)));
        EndPoint(b, EndPoint(a, from));
      }
    } else {
      assert a + b == b;
    }
  }

  /** Operations without axis words do not move the tool in the plane. */
  lemma {:induction false} EndPointWithoutAxes(ops: seq<Op>, from: Point)
    requires forall k :: 0 <= k < |ops| ==> !ops[k].IsX() && !ops[k].IsY()
    ensures EndPoint(ops, from) == from
    decreases |ops|
  {
    if ops != [] {
      assert !ops[0].IsX() && !ops[0].IsY();
      EndPointWithoutAxes(ops[1..], from);
    }
  }

  /**
   * Which way the path p0 -> p1 -> p2 turns: "G2" (clockwise) when the cross
   * product of its two segments is negative, otherwise "G3"; a straight path
   * therefore counts as counter-clockwise.
   */
  function Direction(p0: Point, p1: Point, p2: Point): (r: Code)
    ensures r.IsCircular()
  {
    if Cross(p0, p1, p2) < 0.0 then G2 else G3
  }

  /**
   * Walking a path backwards turns the other way, except on a straight path,
   * which is counter-clockwise in both directions.
   */
  lemma DirectionReversed(p0: Point, p1: Point, p2: Point)
    ensures Cross(p0, p1, p2) != 0.0 <==> Direction(p2, p1, p0) != Direction(p0, p1, p2)
    ensures Cross(p0, p1, p2) == 0.0 ==> Direction(p0, p1, p2) == Direction(p2, p1, p0) == G3
  {
    var ux, uy := p1.x - p0.x, p1.y - p0.y;
    var vx, vy := p2.x - p1.x, p2.y - p1.y;
    assert Cross(p0, p1, p2) == ux * vy - uy * vx;
    assert Cross(p2, p1, p0) == (-vx) * (-uy) - (-vy) * (-ux);
    assert (-vx) * (-uy) == vx * uy && (-vy) * (-ux) == vy * ux;
    assert Cross(p2, p1, p0) == -Cross(p0, p1, p2);
  }

  /**
   * A straight (linear or circular) move from `origin` to `destination` with
   * the given command. Nothing is emitted for a move of length zero. An axis
   * word is emitted only for an axis that changes; an arc carries its centre
   * relative to its start, so an arc command must be given a centre.
   */
  function Gxy(command: Code, origin: Point, destination: Point, center: Option<Point>): (r: seq<Op>)
    requires command.IsCircular() ==> center.Some?
    ensures r == [] <==> origin == destination
    ensures r != [] ==> r[0] == Tok(Command(command)) && r[|r| - 1] == Tok(Newline)
    ensures EndPoint(r, origin) == destination
    ensures origin.x != destination.x ==> Tok(X(destination.x)) in r
    ensures origin.y != destination.y ==> Tok(Y(destination.y)) in r
    ensures command.IsCircular() && origin != destination ==>
      Tok(IJ(center.value.x - origin.x, center.value.y - origin.y)) in r
  {
    if origin == destination then []
    else
      var xs := if origin.x != destination.x then [Tok(X(destination.x))] else [];
      var ys := if origin.y != destination.y then [Tok(Y(destination.y))] else [];
      var ij := if command.IsCircular()
        then [Tok(IJ(center.value.x - origin.x, center.value.y - origin.y))]
        else [];
      var r := [Tok(Command(command))] + xs + ys + ij + [Tok(Newline)];
      GxyEndPoint(Tok(Command(command)), xs, ys, ij + [Tok(Newline)], origin, destination);
      assert r == [Tok(Command(command))] + xs + ys + (ij + [Tok(Newline)]);
      r
  }

  /**
   * A move carries no other words: an X word only for a changed x, a Y word
   * only for a changed y, a centre only on an arc, and never a height move
   * or an echoed line.
   */
  lemma GxyWords(command: Code, origin: Point, destination: Point, center: Option<Point>)
    requires command.IsCircular() ==> center.Some?
    ensures var r := Gxy(command, origin, destination, center);
      (forall o | o in r && o.IsX() :: origin.x != destination.x && o == Tok(X(destination.x))) &&
      (forall o | o in r && o.IsY() :: origin.y != destination.y && o == Tok(Y(destination.y))) &&
      (forall o | o in r && o.IsIJ() ::
        command.IsCircular() && o == Tok(IJ(center.value.x - origin.x, center.value.y - origin.y))) &&
      (forall o | o in r :: !o.IsLift() && o != Line)
  {
    var r := Gxy(command, origin, destination, center);
    if origin != destination {
      var xs := if origin.x != destination.x then [Tok(X(destination.x))] else [];
      var ys := if origin.y != destination.y then [Tok(Y(destination.y))] else [];
      var ij := if command.IsCircular()
        then [Tok(IJ(center.value.x - origin.x, center.value.y - origin.y))]
        else [];
      assert r == [Tok(Command(command))] + xs + ys + ij + [Tok(Newline)];
      forall o | o in r
        ensures o.IsX() ==> origin.x != destination.x && o == Tok(X(destination.x))
        ensures o.IsY() ==> origin.y != destination.y && o == Tok(Y(destination.y))
        ensures o.IsIJ() ==>
          command.IsCircular() && o == Tok(IJ(center.value.x - origin.x, center.value.y - origin.y))
        ensures !o.IsLift() && o != Line
      {
        assert o == Tok(Command(command)) || o in xs || o in ys || o in ij || o == Tok(Newline);
      }
    }
  }

  /**
   * A move is one block: the command, then X, Y and the centre in that
   * order, each at most once, then a newline. (Kept apart from `Gxy`'s own
   * contract so that its quantifiers are not in scope wherever a move is.)
   */
  lemma GxyBlock(command: Code, origin: Point, destination: Point, center: Option<Point>)
    requires command.IsCircular() ==> center.Some?
    ensures var r := Gxy(command, origin, destination, center);
      (origin != destination ==>
        |r| == 2 + (if origin.x != destination.x then 1 else 0) +
          (if origin.y != destination.y then 1 else 0) + (if command.IsCircular() then 1 else 0)) &&
      (forall i | 0 < i < |r| - 1 :: r[i].IsX() || r[i].IsY() || r[i].IsIJ()) &&
      (forall i, j | 0 <= i < j < |r| ::
        !(r[i].IsY() && r[j].IsX()) && !(r[i].IsIJ() && (r[j].IsX() || r[j].IsY())))
  {
  }

  /** The axis words of a move, read from its origin, lead to its destination. */
  lemma GxyEndPoint(head: Op, xs: seq<Op>, ys: seq<Op>, rest: seq<Op>, origin: Point, destination: Point)
    requires !head.IsX() && !head.IsY()
    requires xs == if origin.x != destination.x then [Tok(X(destination.x))] else []
    requires ys == if origin.y != destination.y then [Tok(Y(destination.y))] else []
    requires forall k :: 0 <= k < |rest| ==> !rest[k].IsX() && !rest[k].IsY()
    ensures EndPoint([head] + xs + ys + rest, origin) == destination
  {
    EndPointAppend([head] + xs + ys, rest, origin);
    EndPointAppend([head] + xs, ys, origin);
    EndPointAppend([head], xs, origin);
    assert EndPoint([head], origin) == origin by {
      assert [head][1..] == [];
    }
    var mid := EndPoint(xs, origin);
    assert mid == Point(destination.x, origin.y) by {
      if xs != [] { assert xs[1..] == []; }
    }
    assert EndPoint(ys, mid) == destination by {
      if ys != [] { assert ys[1..] == []; }
    }
    EndPointWithoutAxes(rest, destination);
  }

  /**
   * A rapid move to height `z`, always emitted, even when the tool is
   * already at that height. It leaves the position in the plane alone.
   */
  function Gz(z: real): (r: seq<Op>)
    ensures |r| == 2 && r[0] == Tok(G0Z(z)) && r[1] == Tok(Newline)
    ensures forall p :: EndPoint(r, p) == p
  {
    var r := [Tok(G0Z(z)), Tok(Newline)];
    assert forall p :: EndPoint(r, p) == p by {
      forall p ensures EndPoint(r, p) == p {
        EndPointWithoutAxes(r, p);
      }
    }
    r
  }

  /**
   * The debugging output filter: drops every height move (every text
   * operation beginning with "G0Z") and keeps everything else, including the
   * echoed lines and the newline that followed each dropped move.
   */
  function NeverRaiseBlade(ops: seq<Op>): (r: seq<Op>)
    ensures |r| <= |ops|
  {
    if ops == [] then []
    else (if ops[0].IsLift() then [] else [ops[0]]) + NeverRaiseBlade(ops[1..])
  }

  /** The filter keeps exactly the operations that are not height moves. */
  lemma {:induction false} NeverRaiseKeeps(ops: seq<Op>)
    ensures forall o :: o in NeverRaiseBlade(ops) <==> o in ops && !o.IsLift()
    decreases |ops|
  {
    if ops != [] {
      NeverRaiseKeeps(ops[1..]);
      assert forall o :: o in ops <==> o == ops[0] || o in ops[1..];
    }
  }

  /** Filtering commutes with concatenation, so it keeps the order of what it keeps. */
  lemma {:induction false} NeverRaiseAppend(a: seq<Op>, b: seq<Op>)
    ensures NeverRaiseBlade(a + b) == NeverRaiseBlade(a) + NeverRaiseBlade(b)
    decreases |a|
  {
    if a != [] {
      assert (a + b)[0] == a[0];
      assert (a + b)[1..] == a[1..] + b;
      NeverRaiseAppend(a[1..], b);
      var head := if a[0].IsLift() then [] else [a[0]];
      calc {
        NeverRaiseBlade(a + b);
        head + NeverRaiseBlade(a[1..] + b);
        head + (NeverRaiseBlade(a[1..]) + NeverRaiseBlade(b));
        (head + NeverRaiseBlade(a[1..])) + NeverRaiseBlade(b);
        NeverRaiseBlade(a) + NeverRaiseBlade(b);
      }
    } else {
      assert a + b == b;
    }
  }

  /** A sequence without height moves passes the filter unchanged. */
  lemma {:induction false} NeverRaiseKeepsLiftFree(ops: seq<Op>)
    requires forall k :: 0 <= k < |ops| ==> !ops[k].IsLift()
    ensures NeverRaiseBlade(ops) == ops
    decreases |ops|
  {
    if ops != [] {
      NeverRaiseKeepsLiftFree(ops[1..]);
    }
  }

  /** Filtering twice is filtering once. */
  lemma NeverRaiseIdempotent(ops: seq<Op>)
    ensures NeverRaiseBlade(NeverRaiseBlade(ops)) == NeverRaiseBlade(ops)
  {
    var r := NeverRaiseBlade(ops);
    NeverRaiseKeeps(ops);
    forall k | 0 <= k < |r| ensures !r[k].IsLift() {
      assert r[k] in r;
    }
    NeverRaiseKeepsLiftFree(r);
  }

  /** The filter does not change the path in the plane. */
  lemma {:induction false} NeverRaiseKeepsPath(ops: seq<Op>, from: Point)
    ensures EndPoint(NeverRaiseBlade(ops), from) == EndPoint(ops, from)
    decreases |ops|
  {
    if ops != [] {
      NeverRaiseKeepsPath(ops[1..], Advance(ops[0], from));
      var head := if ops[0].IsLift() then [] else [ops[0]];
      EndPointAppend(head, NeverRaiseBlade(ops[1..]), from);
      assert EndPoint(head, from) == Advance(ops[0], from) by {
        if head != [] { assert head[1..] == []; }
      }
    }
  }

  /** Of a height move only its newline survives the filter. */
  lemma NeverRaiseGz(z: real)
    ensures NeverRaiseBlade(Gz(z)) == [Tok(Newline)]
  {
    assert Gz(z)[1..] == [Tok(Newline)];
    assert Gz(z)[1..][1..] == [];
  }
}
