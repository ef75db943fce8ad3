/**
 * Properties of the motion engine: what each kind of line does to the
 * window and the output, the skip rule, the rotation at sharp corners, the
 * position the emitted G-code leads to, and what happens over a whole
 * stream of motion lines.
 */
module MotionLemmas {
  import opened Wrappers
  import opened Geometry
  import opened Gcode
  import opened Engine

  /** One motion line as the engine receives it: its motion code and its axis words. */
  datatype Input = Input(speed: int, axes: Axes)

  /**
   * The engine over a stream of motion lines: the operations of every line
   * in order, stopping at the first failure, which ends the program.
   */
  function Run(cfg: Config, s: EngineState, inputs: seq<Input>): (r: StepResult)
    requires |s.coordinates| >= 1
    ensures |r.state.coordinates| >= 1
    decreases |inputs|
  {
    if inputs == [] then StepResult(s, Ok([]))
    else
      var first := Step(cfg, s, inputs[0].speed, inputs[0].axes);
      match first.out
      case NotALine => first
      case Ok(ops) =>
        var rest := Run(cfg, first.state, inputs[1..]);
        StepResult(rest.state, if rest.out.Ok? then Ok(ops + rest.out.value) else NotALine)
  }

  /**
   * The four branches of `Step`, in the order the program tests them. This
   * and `CutCases` only unfold the definitions, as a proof aid: the lemmas
   * below reason about one branch at a time instead of the whole of `Step`.
   */
  lemma StepCases(cfg: Config, s: EngineState, speed: int, axes: Axes)
    requires |s.coordinates| >= 1
    ensures var p := NewPoint(s, axes);
      var c := s.coordinates + [p];
      var z := axes.z.GetOr(s.z);
      var r := Step(cfg, s, speed, axes);
      (Last(s.coordinates) == p ==> r == StepResult(EngineState(c[1..], z, s.skipping), Ok([Line]))) &&
      (Last(s.coordinates) != p && speed == 0 ==>
        r == StepResult(EngineState([p], z, false), Ok(Gz(z + cfg.retract) + [Line] + Gz(z)))) &&
      (Last(s.coordinates) != p && speed == 1 ==> r == Cut(cfg, c, z, s.skipping)) &&
      (Last(s.coordinates) != p && speed != 0 && speed != 1 ==>
        r == StepResult(EngineState(c, z, s.skipping), Ok([Line])))
  {
  }

  /** The three outcomes of `Cut`: the rotation, the skip and the echo (a proof aid, like `StepCases`). */
  lemma CutCases(cfg: Config, c: seq<Point>, z: real, wasSkipping: bool)
    requires |c| >= 2
    ensures var n := |c|;
      var length := cfg.dist(c[n - 2], c[n - 1]);
      var skipping := !wasSkipping && length <= cfg.radius;
      var sharp := n > 2 && SharpAngle(cfg, c);
      var r := Cut(cfg, c, z, wasSkipping);
      (!skipping && sharp && !(length < cfg.radius) ==> n > 2 && r == Rotate(cfg, c, z)) &&
      (!(!skipping && sharp && !(length < cfg.radius)) && (skipping || sharp) ==>
        r == StepResult(EngineState(Trim(c[..n - 1]), z, true), Ok([]))) &&
      (!skipping && !sharp ==> r == StepResult(EngineState(Trim(c), z, false), Ok([Line])))
  {
  }

  /**
   * The window after one line: a line that does not move drops the oldest
   * point and keeps the length; a rapid move keeps only the new point; a
   * cut keeps at most three; an arc grows the window by one. The window
   * ends at the new point unless the line was skipped.
   */
  lemma StepWindow(cfg: Config, s: EngineState, speed: int, axes: Axes)
    requires |s.coordinates| >= 1
    ensures var p := NewPoint(s, axes);
      var r := Step(cfg, s, speed, axes);
      var w := r.state.coordinates;
      (Last(s.coordinates) == p ==> |w| == |s.coordinates| && w == s.coordinates[1..] + [p]) &&
      (Last(s.coordinates) != p && speed == 0 ==> w == [p]) &&
      (Last(s.coordinates) != p && speed == 1 && r.out.Ok? ==> 1 <= |w| <= 3) &&
      (Last(s.coordinates) != p && speed != 0 && speed != 1 ==> w == s.coordinates + [p]) &&
      (r.out.Ok? ==> Last(w) == if r.state.skipping && r.out == Ok([]) then Last(s.coordinates) else p)
  {
    var p := NewPoint(s, axes);
    var c := s.coordinates + [p];
    StepCases(cfg, s, speed, axes);
    if Last(s.coordinates) != p && speed == 1 {
      CutCases(cfg, c, axes.z.GetOr(s.z), s.skipping);
      assert c[..|c| - 1] == s.coordinates;
    }
  }

  /**
   * The operations for each kind of line: a line that does not move is
   * echoed, whatever its motion code; a rapid move is echoed between a lift
   * to the retract height above the new height and a move back down; an arc
   * is echoed; and none of them changes the skipping flag except the rapid
   * move, which clears it.
   */
  lemma StepOutput(cfg: Config, s: EngineState, speed: int, axes: Axes)
    requires |s.coordinates| >= 1
    ensures var p := NewPoint(s, axes);
      var z := axes.z.GetOr(s.z);
      var r := Step(cfg, s, speed, axes);
      r.state.z == z &&
      (Last(s.coordinates) == p ==> r.out == Ok([Line]) && r.state.skipping == s.skipping) &&
      (Last(s.coordinates) != p && speed == 0 ==>
        r.out == Ok([Tok(G0Z(z + cfg.retract)), Tok(Newline), Line, Tok(G0Z(z)), Tok(Newline)]) &&
        !r.state.skipping) &&
      (Last(s.coordinates) != p && speed != 0 && speed != 1 ==>
        r.out == Ok([Line]) && r.state.skipping == s.skipping)
  {
    var z := axes.z.GetOr(s.z);
    StepCases(cfg, s, speed, axes);
    if Last(s.coordinates) != NewPoint(s, axes) && speed == 1 {
      CutCases(cfg, s.coordinates + [NewPoint(s, axes)], z, s.skipping);
    }
    assert Gz(z + cfg.retract) + [Line] + Gz(z) ==
      [Tok(G0Z(z + cfg.retract)), Tok(Newline), Line, Tok(G0Z(z)), Tok(Newline)];
  }

  /**
   * The skip rule of a cut: a cut after a skipped cut is skipped only at a
   * sharp corner too short to turn; any other cut is skipped exactly when
   * it is no longer than the blade offset. A skipped cut emits nothing and
   * forgets its endpoint, while its new height is kept.
   */
  lemma SkipRule(cfg: Config, s: EngineState, axes: Axes)
    requires |s.coordinates| >= 1
    requires NewPoint(s, axes) != Last(s.coordinates)
    ensures var p := NewPoint(s, axes);
      var c := s.coordinates + [p];
      var length := cfg.dist(Last(s.coordinates), p);
      var r := Step(cfg, s, 1, axes);
      (r.state.skipping <==>
        if s.skipping then |c| > 2 && SharpAngle(cfg, c) && length < cfg.radius
        else length <= cfg.radius) &&
      (r.state.skipping ==>
        r.out == Ok([]) && r.state.coordinates == Trim(s.coordinates) && r.state.z == axes.z.GetOr(s.z)) &&
      (!r.state.skipping && r.out.Ok? ==>
        r.out.value != [] && r.out.value[|r.out.value| - 1] == Line && r.state.coordinates == Trim(c))
  {
    var p := NewPoint(s, axes);
    var c := s.coordinates + [p];
    StepCases(cfg, s, 1, axes);
    CutCases(cfg, c, axes.z.GetOr(s.z), s.skipping);
    assert c[..|c| - 1] == s.coordinates;
  }

  /** Two short cuts in a row that turn no sharp corner: the first is skipped, the second is cut. */
  lemma ShortCutsAlternate(cfg: Config, s: EngineState, a1: Axes, a2: Axes)
    requires |s.coordinates| >= 1 && !s.skipping
    requires NewPoint(s, a1) != Last(s.coordinates)
    requires cfg.dist(Last(s.coordinates), NewPoint(s, a1)) <= cfg.radius
    requires var s1 := Step(cfg, s, 1, a1).state;
      NewPoint(s1, a2) != Last(s1.coordinates)
    ensures var r1 := Step(cfg, s, 1, a1);
      var r2 := Step(cfg, r1.state, 1, a2);
      r1.out == Ok([]) && r1.state.skipping &&
      (!(|r1.state.coordinates| + 1 > 2 && SharpAngle(cfg, r1.state.coordinates + [NewPoint(r1.state, a2)])) ==>
        r2.out == Ok([Line]) && !r2.state.skipping)
  {
    SkipRule(cfg, s, a1);
    var s1 := Step(cfg, s, 1, a1).state;
    SkipRule(cfg, s1, a2);
  }

  /**
   * The conditions under which a cut turns the blade: the line moves, the
   * toggle of the skip rule leaves the flag clear, there is a corner (an
   * earlier point), the angle there is strictly inside the sharp band, and
   * the new segment is at least as long as the blade offset.
   */
  ghost predicate Rotates(cfg: Config, s: EngineState, axes: Axes)
    requires |s.coordinates| >= 1
  {
    var p := NewPoint(s, axes);
    var c := s.coordinates + [p];
    var length := cfg.dist(Last(s.coordinates), p);
    p != Last(s.coordinates) && !(!s.skipping && length <= cfg.radius) &&
    |c| > 2 && SharpAngle(cfg, c) && !(length < cfg.radius)
  }

  /**
   * The moves of a rotation at `corner`, met on the way from `a` to `p`: a
   * cut from the corner to `travel`, a blade offset past the corner along
   * the incoming segment; a lift by the blade offset; an arc centred on the
   * corner, in the direction of the turn (G2 for a clockwise one, see
   * `Direction`), to `swivel`, a blade offset from
   * the corner along the outgoing segment; a move back down to `z`; and the
   * echoed line.
   */
  ghost predicate RotationMoves(cfg: Config, a: Point, corner: Point, p: Point, z: real,
                                travel: Point, swivel: Point, ops: seq<Op>)
  {
    Offset(cfg.dist, corner, a, corner, cfg.radius, travel) &&
    Offset(cfg.dist, corner, corner, p, cfg.radius, swivel) &&
    ops == Gxy(G1, corner, travel, None) + Gz(z + cfg.radius) +
      Gxy(Direction(a, corner, p), travel, swivel, Some(corner)) + Gz(z) + [Line]
  }

  /**
   * A rotation fails exactly when the segment leading to the corner has
   * length zero; otherwise it emits the rotation moves and trims the window.
   */
  lemma RotateShape(cfg: Config, c: seq<Point>, z: real)
    requires IsDistance(cfg.dist) && |c| > 2 && c[|c| - 2] != c[|c| - 1]
    ensures var n := |c|;
      var r := Rotate(cfg, c, z);
      (r.out.NotALine? <==> c[n - 3] == c[n - 2]) &&
      r.state == EngineState(if r.out.Ok? then Trim(c) else c, z, false) &&
      (r.out.Ok? ==> exists travel: Point, swivel: Point
        {:trigger RotationMoves(cfg, c[n - 3], c[n - 2], c[n - 1], z, travel, swivel, r.out.value)} ::
        RotationMoves(cfg, c[n - 3], c[n - 2], c[n - 1], z, travel, swivel, r.out.value))
  {
    var n := |c|;
    var a, corner, p := c[n - 3], c[n - 2], c[n - 1];
    if a != corner {
      RotateOps(cfg, c, z);
      var travel := ShiftEnd(cfg.dist, a, corner, cfg.radius).value;
      var swivel := ShiftStart(cfg.dist, corner, p, cfg.radius).value;
      MovesHold(cfg, a, corner, p, z);
      assert RotationMoves(cfg, a, corner, p, z, travel, swivel, Rotate(cfg, c, z).out.value);
    } else {
      RotateFails(cfg, c, z);
    }
  }

  lemma RotateOps(cfg: Config, c: seq<Point>, z: real)
    requires IsDistance(cfg.dist) && |c| > 2 && c[|c| - 3] != c[|c| - 2] && c[|c| - 2] != c[|c| - 1]
    ensures var n := |c|;
      var a, corner, p := c[n - 3], c[n - 2], c[n - 1];
      Rotate(cfg, c, z) == StepResult(EngineState(Trim(c), z, false),
        Ok(Manoeuvre(cfg.radius, z, corner, ShiftEnd(cfg.dist, a, corner, cfg.radius).value,
                     ShiftStart(cfg.dist, corner, p, cfg.radius).value, Direction(a, corner, p)) + [Line]))
  {
  }

  lemma RotateFails(cfg: Config, c: seq<Point>, z: real)
    requires IsDistance(cfg.dist) && |c| > 2 && c[|c| - 3] == c[|c| - 2]
    ensures Rotate(cfg, c, z) == StepResult(EngineState(c, z, false), NotALine)
  {
  }

  /** The rotation moves built from the two shifts have the geometry `RotationMoves` describes. */
  lemma MovesHold(cfg: Config, a: Point, corner: Point, p: Point, z: real)
    requires IsDistance(cfg.dist) && a != corner && corner != p
    ensures var travel := ShiftEnd(cfg.dist, a, corner, cfg.radius).value;
      var swivel := ShiftStart(cfg.dist, corner, p, cfg.radius).value;
      RotationMoves(cfg, a, corner, p, z, travel, swivel,
        Manoeuvre(cfg.radius, z, corner, travel, swivel, Direction(a, corner, p)) + [Line])
  {
    var travel := ShiftEnd(cfg.dist, a, corner, cfg.radius).value;
    var swivel := ShiftStart(cfg.dist, corner, p, cfg.radius).value;
    TravelAndSwivel(cfg, a, corner, p);
    assert Manoeuvre(cfg.radius, z, corner, travel, swivel, Direction(a, corner, p)) + [Line] ==
      Gxy(G1, corner, travel, None) + Gz(z + cfg.radius) +
      Gxy(Direction(a, corner, p), travel, swivel, Some(corner)) + Gz(z) + [Line];
  }

  /**
   * `travel` lies a blade offset past the corner along the incoming segment,
   * `swivel` a blade offset from the corner along the outgoing one.
   */
  lemma TravelAndSwivel(cfg: Config, a: Point, corner: Point, p: Point)
    requires IsDistance(cfg.dist) && a != corner && corner != p
    ensures Offset(cfg.dist, corner, a, corner, cfg.radius, ShiftEnd(cfg.dist, a, corner, cfg.radius).value)
    ensures Offset(cfg.dist, corner, corner, p, cfg.radius, ShiftStart(cfg.dist, corner, p, cfg.radius).value)
  {
    ShiftEndGeometry(cfg.dist, a, corner, cfg.radius);
    ShiftStartGeometry(cfg.dist, corner, p, cfg.radius);
  }

  /**
   * The rotation at a sharp corner, seen from the engine: it fails exactly
   * when the segment leading to the corner has length zero, and otherwise
   * emits the rotation moves, clears the flag and trims the window.
   */
  lemma RotationOutput(cfg: Config, s: EngineState, axes: Axes)
    requires ValidConfig(cfg) && |s.coordinates| >= 1
    requires Rotates(cfg, s, axes)
    ensures var p := NewPoint(s, axes);
      var c := s.coordinates + [p];
      var n := |c|;
      var z := axes.z.GetOr(s.z);
      var r := Step(cfg, s, 1, axes);
      (r.out.NotALine? <==> c[n - 3] == c[n - 2]) &&
      r.state == EngineState(if r.out.Ok? then Trim(c) else c, z, false) &&
      (r.out.Ok? ==> exists travel: Point, swivel: Point
        {:trigger RotationMoves(cfg, c[n - 3], c[n - 2], p, z, travel, swivel, r.out.value)} ::
        RotationMoves(cfg, c[n - 3], c[n - 2], p, z, travel, swivel, r.out.value))
  {
    var p := NewPoint(s, axes);
    var c := s.coordinates + [p];
    var z := axes.z.GetOr(s.z);
    assert c[|c| - 2] == Last(s.coordinates);
    StepCases(cfg, s, 1, axes);
    CutCases(cfg, c, z, s.skipping);
    RotateShape(cfg, c, z);
  }

  /**
   * With a sharp threshold of 90 degrees no corner is sharp, so a cut never
   * turns the blade: it is echoed or skipped.
   */
  lemma NoRotationAtNinety(cfg: Config, s: EngineState, axes: Axes)
    requires ValidConfig(cfg) && cfg.angleMin == 90.0 && |s.coordinates| >= 1
    ensures var r := Step(cfg, s, 1, axes);
      r.out == Ok([]) || r.out == Ok([Line])
  {
    var p := NewPoint(s, axes);
    var c := s.coordinates + [p];
    StepCases(cfg, s, 1, axes);
    if Last(s.coordinates) != p {
      CutCases(cfg, c, axes.z.GetOr(s.z), s.skipping);
      if |c| > 2 {
        SharpBand(cfg, c);
      }
    }
  }

  /**
   * A cut emits more than the line itself, or fails, exactly when it turns
   * the blade at a sharp corner.
   */
  lemma RotationIff(cfg: Config, s: EngineState, axes: Axes)
    requires ValidConfig(cfg) && |s.coordinates| >= 1
    requires NewPoint(s, axes) != Last(s.coordinates)
    ensures var r := Step(cfg, s, 1, axes);
      Rotates(cfg, s, axes) <==> r.out.NotALine? || |r.out.value| > 1
  {
    var r := Step(cfg, s, 1, axes);
    if Rotates(cfg, s, axes) {
      RotationOutput(cfg, s, axes);
      if r.out.Ok? {
        var p := NewPoint(s, axes);
        var c := s.coordinates + [p];
        var n := |c|;
        var z := axes.z.GetOr(s.z);
        var travel, swivel :| RotationMoves(cfg, c[n - 3], c[n - 2], p, z, travel, swivel, r.out.value);
      }
    } else {
      var p := NewPoint(s, axes);
      var c := s.coordinates + [p];
      StepCases(cfg, s, 1, axes);
      CutCases(cfg, c, axes.z.GetOr(s.z), s.skipping);
    }
  }

  /**
   * The position reached by reading `ops` from `from`, where the echoed
   * line moves the tool to `target`, the endpoint of that line.
   */
  function Track(ops: seq<Op>, from: Point, target: Point): Point
    decreases |ops|
  {
    if ops == [] then from
    else Track(ops[1..], if ops[0] == Line then target else Advance(ops[0], from), target)
  }

  lemma {:induction false} TrackAppend(a: seq<Op>, b: seq<Op>, from: Point, target: Point)
    ensures Track(a + b, from, target) == Track(b, Track(a, from, target), target)
    decreases |a|
  {
    if a != [] {
      assert (a + b)[0] == a[0];
      assert (a + b)[1..] == a[1..] + b;
      TrackAppend(a[1..], b, if a[0] == Line then target else Advance(a[0], from), target);
    } else {
      assert a + b == b;
    }
  }

  /** Without an echoed line, the tool follows the axis words alone. */
  lemma {:induction false} TrackWithoutLine(ops: seq<Op>, from: Point, target: Point)
    requires forall o | o in ops :: o != Line
    ensures Track(ops, from, target) == EndPoint(ops, from)
    decreases |ops|
  {
    if ops != [] {
      assert ops[0] in ops;
      assert forall o | o in ops[1..] :: o in ops;
      TrackWithoutLine(ops[1..], Advance(ops[0], from), target);
    }
  }

  lemma TrackGz(z: real, from: Point, target: Point)
    ensures Track(Gz(z), from, target) == from
  {
    var r := Gz(z);
    assert r[1..][1..] == [];
    assert Track(r[1..][1..], from, target) == from;
    assert Track(r[1..], from, target) == from;
  }

  lemma TrackLine(from: Point, target: Point)
    ensures Track([Line], from, target) == target
  {
    assert [Line][1..] == [];
  }

  lemma TrackGxy(command: Code, origin: Point, destination: Point, center: Option<Point>, target: Point)
    requires command.IsCircular() ==> center.Some?
    ensures Track(Gxy(command, origin, destination, center), origin, target) == destination
  {
    GxyWords(command, origin, destination, center);
    TrackWithoutLine(Gxy(command, origin, destination, center), origin, target);
  }

  /** The rotation moves leave the tool at the end of the echoed line. */
  lemma ManoeuvreTrack(radius: real, z: real, corner: Point, travel: Point, swivel: Point, turn: Code, target: Point)
    requires turn.IsCircular()
    ensures Track(Manoeuvre(radius, z, corner, travel, swivel, turn) + [Line], corner, target) == target
  {
    var g1 := Gxy(G1, corner, travel, None);
    var up := Gz(z + radius);
    var arc := Gxy(turn, travel, swivel, Some(corner));
    var down := Gz(z);
    TrackAppend(g1 + up + arc + down, [Line], corner, target);
    TrackAppend(g1 + up + arc, down, corner, target);
    TrackAppend(g1 + up, arc, corner, target);
    TrackAppend(g1, up, corner, target);
    TrackGxy(G1, corner, travel, None, target);
    TrackGz(z + radius, travel, target);
    TrackGxy(turn, travel, swivel, Some(corner), target);
    TrackGz(z, swivel, target);
    TrackLine(swivel, target);
  }

  /** The moves of a rapid line leave the tool at the end of the echoed line. */
  lemma RapidTrack(high: real, low: real, from: Point, target: Point)
    ensures Track(Gz(high) + [Line] + Gz(low), from, target) == target
  {
    TrackAppend(Gz(high) + [Line], Gz(low), from, target);
    TrackAppend(Gz(high), [Line], from, target);
    TrackGz(high, from, target);
    TrackLine(from, target);
    TrackGz(low, target, target);
  }

  /**
   * The window ends where the emitted G-code leaves the tool: starting from
   * the last point of the window, the operations of one line, with the
   * echoed line moving the tool to the line's endpoint, end at the last
   * point of the new window. A skipped cut leaves the tool where it was.
   */
  lemma StepTracksPosition(cfg: Config, s: EngineState, speed: int, axes: Axes)
    requires ValidConfig(cfg) && |s.coordinates| >= 1
    ensures var r := Step(cfg, s, speed, axes);
      r.out.Ok? ==> Track(r.out.value, Last(s.coordinates), NewPoint(s, axes)) == Last(r.state.coordinates)
  {
    var p := NewPoint(s, axes);
    var from := Last(s.coordinates);
    var c := s.coordinates + [p];
    var z := axes.z.GetOr(s.z);
    StepCases(cfg, s, speed, axes);
    if from != p && speed == 0 {
      RapidTrack(z + cfg.retract, z, from, p);
    } else if from != p && speed == 1 {
      var n := |c|;
      var length := cfg.dist(c[n - 2], c[n - 1]);
      var skipping := !s.skipping && length <= cfg.radius;
      CutCases(cfg, c, z, s.skipping);
      if !skipping && n > 2 && SharpAngle(cfg, c) && !(length < cfg.radius) {
        RotateTracks(cfg, c, z);
      } else if !(skipping || (n > 2 && SharpAngle(cfg, c))) {
        TrackLine(from, p);
      } else {
        assert c[..n - 1] == s.coordinates;
      }
    } else {
      TrackLine(from, p);
    }
  }

  /** A rotation leaves the tool at the end of the cut, the last point of the trimmed window. */
  lemma RotateTracks(cfg: Config, c: seq<Point>, z: real)
    requires IsDistance(cfg.dist) && |c| > 2 && c[|c| - 2] != c[|c| - 1]
    ensures var r := Rotate(cfg, c, z);
      r.out.Ok? ==> Track(r.out.value, c[|c| - 2], c[|c| - 1]) == Last(r.state.coordinates)
  {
    var n := |c|;
    var a, corner, p := c[n - 3], c[n - 2], c[n - 1];
    if a != corner {
      RotateOps(cfg, c, z);
      var travel := ShiftEnd(cfg.dist, a, corner, cfg.radius).value;
      var swivel := ShiftStart(cfg.dist, corner, p, cfg.radius).value;
      ManoeuvreTrack(cfg.radius, z, corner, travel, swivel, Direction(a, corner, p), p);
    } else {
      RotateFails(cfg, c, z);
    }
  }

  /** Of the moves of a rapid line, the filter keeps the echoed line between two newlines. */
  lemma RapidFiltered(high: real, low: real)
    ensures NeverRaiseBlade(Gz(high) + [Line] + Gz(low)) == [Tok(Newline), Line, Tok(Newline)]
  {
    NeverRaiseAppend(Gz(high) + [Line], Gz(low));
    NeverRaiseAppend(Gz(high), [Line]);
    NeverRaiseGz(high);
    NeverRaiseGz(low);
    assert NeverRaiseBlade([Line]) == [Line] by {
      assert [Line][1..] == [];
    }
  }

  /** With the debugging filter, a rapid move keeps only the newlines of its height moves. */
  lemma FilteredRapid(cfg: Config, s: EngineState, axes: Axes)
    requires |s.coordinates| >= 1
    requires NewPoint(s, axes) != Last(s.coordinates)
    ensures var r := Step(cfg, s, 0, axes);
      r.out.Ok? && NeverRaiseBlade(r.out.value) == [Tok(Newline), Line, Tok(Newline)]
  {
    var z := axes.z.GetOr(s.z);
    StepCases(cfg, s, 0, axes);
    RapidFiltered(z + cfg.retract, z);
  }

  /** Over a stream without arcs, every window the engine reaches holds at most three points. */
  lemma {:induction false} WindowBoundedWithoutArcs(cfg: Config, s: EngineState, inputs: seq<Input>)
    requires 1 <= |s.coordinates| <= 3
    requires forall k :: 0 <= k < |inputs| ==> inputs[k].speed == 0 || inputs[k].speed == 1
    ensures var r := Run(cfg, s, inputs);
      r.out.Ok? ==> |r.state.coordinates| <= 3
    decreases |inputs|
  {
    if inputs != [] {
      var first := Step(cfg, s, inputs[0].speed, inputs[0].axes);
      StepWindow(cfg, s, inputs[0].speed, inputs[0].axes);
      if first.out.Ok? {
        WindowBoundedWithoutArcs(cfg, first.state, inputs[1..]);
      }
    }
  }

  /** `n` arcs along the X axis, to x = from + 1, from + 2, ... */
  function Arcs(from: real, n: nat): (r: seq<Input>)
    ensures |r| == n
    ensures forall k :: 0 <= k < n ==> r[k].speed == 2
    decreases n
  {
    if n == 0 then [] else [Input(2, Axes(Some(from + 1.0), None, None))] + Arcs(from + 1.0, n - 1)
  }

  /** Every arc to a new point grows the window by one; nothing ever trims it. */
  lemma {:induction false} ArcsGrowWindow(cfg: Config, s: EngineState, from: real, n: nat)
    requires |s.coordinates| >= 1 && Last(s.coordinates).x == from
    ensures var r := Run(cfg, s, Arcs(from, n));
      r.out.Ok? && |r.state.coordinates| == |s.coordinates| + n
    decreases n
  {
    if n > 0 {
      var inputs := Arcs(from, n);
      assert inputs[0] == Input(2, Axes(Some(from + 1.0), None, None));
      assert inputs[1..] == Arcs(from + 1.0, n - 1);
      var first := Step(cfg, s, 2, inputs[0].axes);
      assert Last(first.state.coordinates).x == from + 1.0;
      ArcsGrowWindow(cfg, first.state, from + 1.0, n - 1);
    }
  }

  /** From a new engine, a stream of arcs makes the window as long as one likes. */
  lemma WindowUnbounded(cfg: Config, n: nat)
    ensures Run(cfg, Initial, Arcs(0.0, n)).out.Ok?
    ensures |Run(cfg, Initial, Arcs(0.0, n)).state.coordinates| == n + 1
  {
    ArcsGrowWindow(cfg, Initial, 0.0, n);
  }

  /**
   * The failure is reachable from a new engine. The lines "G1 X10", "G1 Z-1"
   * and "G1 X15" cut to (10, 0), stay there while plunging (which leaves the
   * window ending in two copies of (10, 0)), and cut on to (15, 0). The
   * program's `angle` gives 90 degrees for those three points, which is
   * sharp for every threshold below 90, and the shift along the degenerate
   * segment from (10, 0) to (10, 0) then fails.
   */
  lemma ZeroMoveThenCornerFails(cfg: Config)
    requires ValidConfig(cfg) && cfg.radius < 5.0 && cfg.angleMin < 90.0
    requires cfg.angle(Point(10.0, 0.0), Point(10.0, 0.0), Point(15.0, 0.0)) == 90.0
    ensures Run(cfg, Initial, [
      Input(1, Axes(Some(10.0), None, None)),
      Input(1, Axes(None, None, Some(-1.0))),
      Input(1, Axes(Some(15.0), None, None))]).out == NotALine
  {
    var p := Point(10.0, 0.0);
    var a1, a2, a3 := Axes(Some(10.0), None, None), Axes(None, None, Some(-1.0)), Axes(Some(15.0), None, None);
    var s1 := EngineState([Point(0.0, 0.0), p], 0.0, false);
    var s2 := EngineState([p, p], -1.0, false);
    FirstCut(cfg);
    Plunge(cfg);
    CornerFails(cfg);
    var inputs := [Input(1, a1), Input(1, a2), Input(1, a3)];
    assert inputs[1..] == [Input(1, a2), Input(1, a3)];
    assert inputs[1..][1..] == [Input(1, a3)];
    assert Run(cfg, s2, [Input(1, a3)]).out == NotALine;
    assert Run(cfg, s1, [Input(1, a2), Input(1, a3)]).out == NotALine;
  }

  /** "G1 X10" from a new engine: a plain cut longer than the blade offset, echoed. */
  lemma FirstCut(cfg: Config)
    requires ValidConfig(cfg) && cfg.radius < 5.0
    ensures Step(cfg, Initial, 1, Axes(Some(10.0), None, None)) ==
      StepResult(EngineState([Point(0.0, 0.0), Point(10.0, 0.0)], 0.0, false), Ok([Line]))
  {
    var o, p := Point(0.0, 0.0), Point(10.0, 0.0);
    var d := cfg.dist(o, p);
    assert d >= 0.0 && d * d == 100.0;
    SquareInjective(d, 10.0);
    StepCases(cfg, Initial, 1, Axes(Some(10.0), None, None));
    assert NewPoint(Initial, Axes(Some(10.0), None, None)) == p;
    assert Initial.coordinates + [p] == [o, p];
    CutCases(cfg, [o, p], 0.0, false);
  }

  /** "G1 Z-1" at (10, 0): no move in the plane, so the oldest point goes and (10, 0) is doubled. */
  lemma Plunge(cfg: Config)
    ensures Step(cfg, EngineState([Point(0.0, 0.0), Point(10.0, 0.0)], 0.0, false), 1, Axes(None, None, Some(-1.0))) ==
      StepResult(EngineState([Point(10.0, 0.0), Point(10.0, 0.0)], -1.0, false), Ok([Line]))
  {
    var s1 := EngineState([Point(0.0, 0.0), Point(10.0, 0.0)], 0.0, false);
    StepCases(cfg, s1, 1, Axes(None, None, Some(-1.0)));
    assert (s1.coordinates + [Point(10.0, 0.0)])[1..] == [Point(10.0, 0.0), Point(10.0, 0.0)];
  }

  /** "G1 X15" after the plunge: a sharp corner whose incoming segment is degenerate. */
  lemma CornerFails(cfg: Config)
    requires ValidConfig(cfg) && cfg.radius < 5.0 && cfg.angleMin < 90.0
    requires cfg.angle(Point(10.0, 0.0), Point(10.0, 0.0), Point(15.0, 0.0)) == 90.0
    ensures Step(cfg, EngineState([Point(10.0, 0.0), Point(10.0, 0.0)], -1.0, false), 1,
                 Axes(Some(15.0), None, None)).out == NotALine
  {
    var p, q := Point(10.0, 0.0), Point(15.0, 0.0);
    PlungedCut(cfg);
    SharpCornerRotates(cfg);
    RotateFails(cfg, [p, p, q], -1.0);
  }

  lemma PlungedCut(cfg: Config)
    ensures Step(cfg, EngineState([Point(10.0, 0.0), Point(10.0, 0.0)], -1.0, false), 1,
                 Axes(Some(15.0), None, None)) ==
      Cut(cfg, [Point(10.0, 0.0), Point(10.0, 0.0), Point(15.0, 0.0)], -1.0, false)
  {
    var p, q := Point(10.0, 0.0), Point(15.0, 0.0);
    var s2 := EngineState([p, p], -1.0, false);
    var a3 := Axes(Some(15.0), None, None);
    StepCases(cfg, s2, 1, a3);
    assert NewPoint(s2, a3) == q;
    assert s2.coordinates + [q] == [p, p, q];
  }

  lemma SharpCornerRotates(cfg: Config)
    requires ValidConfig(cfg) && cfg.radius < 5.0 && cfg.angleMin < 90.0
    requires cfg.angle(Point(10.0, 0.0), Point(10.0, 0.0), Point(15.0, 0.0)) == 90.0
    ensures var c := [Point(10.0, 0.0), Point(10.0, 0.0), Point(15.0, 0.0)];
      Cut(cfg, c, -1.0, false) == Rotate(cfg, c, -1.0)
  {
    var p, q := Point(10.0, 0.0), Point(15.0, 0.0);
    var c := [p, p, q];
    var d := cfg.dist(p, q);
    assert d >= 0.0 && d * d == 25.0;
    SquareInjective(d, 5.0);
    assert SharpAngle(cfg, c);
    CutCases(cfg, c, -1.0, false);
  }
}
