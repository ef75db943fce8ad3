/**
 * The motion engine of the drag-knife post-processor.
 *
 * The engine sees one motion line at a time: its motion code (`speed`: 0 for a
 * rapid move, 1 for a cut, anything else for an arc) and the axis words on
 * the line. It keeps a short window of recent endpoints, the current height
 * and a "skipping" flag, and answers with the operations to write in place of
 * the line: the line itself (`Line`), nothing, or extra moves that lift the
 * blade and swivel it around its tip at a sharp corner.
 *
 * `Step` is the engine's behaviour as a function of its state; the class
 * `Motion` is the engine as the program has it, an object whose `Process`
 * method updates its fields in place, proved to agree with `Step`.
 */
module Engine {
  import opened Wrappers
  import opened Geometry
  import opened Gcode

  /** The X, Y and Z words found on a line; an absent word keeps the axis where it was. */
  datatype Axes = Axes(x: Option<real>, y: Option<real>, z: Option<real>)

  /**
   * The engine's fixed parameters: the blade offset `radius`, the lift
   * `retract` used for rapid moves, the open band (angleMin, angleMax) of
   * angles that count as sharp corners, and the two geometric oracles.
   */
  datatype Config = Config(
    radius: real,
    retract: real,
    angleMin: real,
    angleMax: real,
    angle: (Point, Point, Point) -> real,
    dist: (Point, Point) -> real)

  ghost predicate ValidConfig(cfg: Config) {
    0.0 <= cfg.angleMin <= 90.0 && cfg.angleMax == 180.0 - cfg.angleMin &&
    IsAngle(cfg.angle) && IsDistance(cfg.dist)
  }

  /** What the engine remembers between lines. */
  datatype EngineState = EngineState(coordinates: seq<Point>, z: real, skipping: bool)

  /** The state of a new engine: at the origin, at height zero, not skipping. */
  const Initial := EngineState([Point(0.0, 0.0)], 0.0, false)

  /** A new state and the operations emitted, or the failure of a shift along a zero-length segment. */
  datatype StepResult = StepResult(state: EngineState, out: Result<seq<Op>>)

  function Last(w: seq<Point>): Point
    requires |w| >= 1
  {
    w[|w| - 1]
  }

  /**
   * The endpoint of a line: an X or Y word gives its axis, and each axis the
   * line does not mention keeps the last endpoint's value. So a line stays
   * where the tool is exactly when every X and Y word on it repeats the
   * current position.
   */
  function NewPoint(s: EngineState, axes: Axes): (p: Point)
    requires |s.coordinates| >= 1
    ensures axes.x.Some? ==> p.x == axes.x.value
    ensures axes.x.None? ==> p.x == Last(s.coordinates).x
    ensures axes.y.Some? ==> p.y == axes.y.value
    ensures axes.y.None? ==> p.y == Last(s.coordinates).y
    ensures p == Last(s.coordinates) <==>
      (axes.x.None? || axes.x.value == Last(s.coordinates).x) &&
      (axes.y.None? || axes.y.value == Last(s.coordinates).y)
  {
    var last := Last(s.coordinates);
    Point(axes.x.GetOr(last.x), axes.y.GetOr(last.y))
  }

  /** The newest `k` entries of `w`, or all of `w` when it has fewer. */
  function Newest(w: seq<Point>, k: nat): (r: seq<Point>)
    ensures |r| == if |w| > k then k else |w|
    ensures r == w[|w| - |r|..]
  {
    if |w| > k then w[|w| - k..] else w
  }

  /** The window after a cut: the oldest points dropped until at most three remain. */
  function Trim(w: seq<Point>): (r: seq<Point>)
    ensures |r| == if |w| > 3 then 3 else |w|
    ensures r == w[|w| - |r|..]
  {
    Newest(w, 3)
  }

  /**
   * The last three points of the window turn by an angle strictly inside the
   * sharp band (`SharpBand` says what that band means).
   */
  predicate SharpAngle(cfg: Config, w: seq<Point>)
    requires |w| > 2
  {
    cfg.angleMax > cfg.angle(w[|w| - 3], w[|w| - 2], w[|w| - 1]) > cfg.angleMin
  }

  /**
   * With the band a new engine sets up, (a, 180 - a), a corner is sharp
   * exactly when its angle is strictly closer than 90 - a to a right angle;
   * so no corner is sharp for a = 90.
   */
  lemma SharpBand(cfg: Config, w: seq<Point>)
    requires |w| > 2 && cfg.angleMax == 180.0 - cfg.angleMin
    ensures var a := cfg.angle(w[|w| - 3], w[|w| - 2], w[|w| - 1]);
      SharpAngle(cfg, w) <==> (if a < 90.0 then 90.0 - a else a - 90.0) < 90.0 - cfg.angleMin
  {
  }

  /**
   * The rotation at a sharp corner: cut on to `travel`, lift the blade by
   * `radius`, swivel on an arc centred on the corner from `travel` to
   * `swivel`, and lower the blade again.
   */
  function Manoeuvre(radius: real, z: real, corner: Point, travel: Point, swivel: Point, turn: Code): seq<Op>
    requires turn.IsCircular()
  {
    Gxy(G1, corner, travel, None) + Gz(z + radius) + Gxy(turn, travel, swivel, Some(corner)) + Gz(z)
  }

  /**
   * Read from the corner, the rotation leaves the tool at `swivel` with the
   * blade lowered back to `z`, after lifting it to `z + radius` on the way.
   */
  lemma ManoeuvreShape(radius: real, z: real, corner: Point, travel: Point, swivel: Point, turn: Code)
    requires turn.IsCircular()
    ensures var r := Manoeuvre(radius, z, corner, travel, swivel, turn);
      EndPoint(r, corner) == swivel && Tok(G0Z(z + radius)) in r &&
      |r| >= 4 && r[|r| - 2..] == [Tok(G0Z(z)), Tok(Newline)]
  {
    var cut, lift, arc, lower := Gxy(G1, corner, travel, None), Gz(z + radius), Gxy(turn, travel, swivel, Some(corner)), Gz(z);
    EndPointAppend(cut + lift + arc, lower, corner);
    EndPointAppend(cut + lift, arc, corner);
    EndPointAppend(cut, lift, corner);
    assert lift[0] in cut + lift;
  }

  /** One line through the engine. */
  function Step(cfg: Config, s: EngineState, speed: int, axes: Axes): (r: StepResult)
    requires |s.coordinates| >= 1
    ensures |r.state.coordinates| >= 1
  {
    var p := NewPoint(s, axes);
    var c := s.coordinates + [p];
    var z := axes.z.GetOr(s.z);
    if Last(s.coordinates) == p then
      StepResult(EngineState(c[1..], z, s.skipping), Ok([Line]))
    else if speed == 0 then
      StepResult(EngineState([p], z, false), Ok(Gz(z + cfg.retract) + [Line] + Gz(z)))
    else if speed == 1 then
      Cut(cfg, c, z, s.skipping)
    else
      StepResult(EngineState(c, z, s.skipping), Ok([Line]))
  }

  /** A cutting move to the last point of `c`, from a state that was `wasSkipping`. */
  function Cut(cfg: Config, c: seq<Point>, z: real, wasSkipping: bool): (r: StepResult)
    requires |c| >= 2
    ensures |r.state.coordinates| >= 1
  {
    var n := |c|;
    var length := cfg.dist(c[n - 2], c[n - 1]);
    var skipping := !wasSkipping && length <= cfg.radius;
    if !skipping && n > 2 && SharpAngle(cfg, c) && !(length < cfg.radius) then
      Rotate(cfg, c, z)
    else if skipping || (n > 2 && SharpAngle(cfg, c)) then
      StepResult(EngineState(Trim(c[..n - 1]), z, true), Ok([]))
    else
      StepResult(EngineState(Trim(c), z, false), Ok([Line]))
  }

  /**
   * The moves that turn the blade at the sharp corner `c[n-2]` of a cut that
   * is long enough. Either shift fails on a segment of length zero; the
   * first can, when the segment before the corner is degenerate, the second
   * cannot, since a cut never ends where it starts.
   */
  function Rotation(cfg: Config, c: seq<Point>, z: real): (r: Result<seq<Op>>)
    requires |c| > 2
    ensures IsDistance(cfg.dist) && c[|c| - 2] != c[|c| - 1] ==>
      (r.NotALine? <==> c[|c| - 3] == c[|c| - 2])
  {
    var n := |c|;
    var travel := ShiftEnd(cfg.dist, c[n - 3], c[n - 2], cfg.radius);
    var swivel := ShiftStart(cfg.dist, c[n - 2], c[n - 1], cfg.radius);
    if travel.NotALine? || swivel.NotALine? then NotALine
    else
      var turn := Direction(c[n - 3], c[n - 2], c[n - 1]);
      Ok(Manoeuvre(cfg.radius, z, c[n - 2], travel.value, swivel.value, turn))
  }

  /** A cut that turns a sharp corner: the rotation followed by the line itself, or the failure. */
  function Rotate(cfg: Config, c: seq<Point>, z: real): (r: StepResult)
    requires |c| > 2
    ensures |r.state.coordinates| >= 1
  {
    match Rotation(cfg, c, z)
    case NotALine => StepResult(EngineState(c, z, false), NotALine)
    case Ok(m) => StepResult(EngineState(Trim(c), z, false), Ok(m + [Line]))
  }

  class Motion {
    var coordinates: seq<Point>
    var z: real
    var skipping: bool
    const radius: real
    const retract: real
    const angleMin: real
    const angleMax: real
    const angle: (Point, Point, Point) -> real
    const dist: (Point, Point) -> real
    /** The debugging filter that drops every height move is in force. */
    const neverRaise: bool

    function Cfg(): Config {
      Config(radius, retract, angleMin, angleMax, angle, dist)
    }

    function State(): EngineState
      reads this
    {
      EngineState(coordinates, z, skipping)
    }

    /** The window is never empty: it always holds the current position. */
    predicate Valid()
      reads this
    {
      |coordinates| >= 1
    }

    constructor (radius: real, retract: real, sharpAngle: int,
                 angle: (Point, Point, Point) -> real, dist: (Point, Point) -> real,
                 neverRaise: bool)
      requires 0 <= sharpAngle <= 90
      requires IsAngle(angle) && IsDistance(dist)
      ensures Valid() && ValidConfig(Cfg()) && State() == Initial
      ensures this.radius == radius && this.retract == retract
      ensures angleMin == sharpAngle as real && angleMax == 180.0 - sharpAngle as real
      ensures this.angle == angle && this.dist == dist && this.neverRaise == neverRaise
    {
      coordinates := [Point(0.0, 0.0)];
      z := 0.0;
      skipping := false;
      this.radius := radius;
      this.retract := retract;
      angleMin := sharpAngle as real;
      angleMax := 180.0 - sharpAngle as real;
      this.angle := angle;
      this.dist := dist;
      this.neverRaise := neverRaise;
    }

    /** The engine's answer to one motion line, updating the window, the height and the flag. */
    method Process(speed: int, axes: Axes) returns (r: Result<seq<Op>>)
      requires Valid()
      modifies this
      ensures Valid()
      ensures StepResult(State(), r) == Step(Cfg(), old(State()), speed, axes)
    {
      ghost var s0 := State();
      var last := coordinates[|coordinates| - 1];
      var p := Point(axes.x.GetOr(last.x), axes.y.GetOr(last.y));
      coordinates := coordinates + [p];
      z := axes.z.GetOr(z);
      assert p == NewPoint(s0, axes) && coordinates == s0.coordinates + [p];
      if coordinates[|coordinates| - 2] == coordinates[|coordinates| - 1] {
        coordinates := coordinates[1..];
        r := Ok([Line]);
        assert StepResult(State(), r) == Step(Cfg(), s0, speed, axes);
      } else if speed == 0 {
        // a rapid move forgets every earlier point
        DropOldest(1);
        skipping := false;
        r := Ok(Gz(z + retract) + [Line] + Gz(z));
      } else if speed == 1 {
        assert Step(Cfg(), s0, speed, axes) == Cut(Cfg(), coordinates, z, s0.skipping);
        r := CutMove();
      } else {
        r := Ok([Line]);
        assert StepResult(State(), r) == Step(Cfg(), s0, speed, axes);
      }
    }

    /**
     * A cutting move whose endpoint is already the last point of the window:
     * rotates the blade at a sharp corner, skips a move that is too short, or
     * echoes the line.
     */
    method CutMove() returns (r: Result<seq<Op>>)
      requires |coordinates| >= 2
      modifies this`coordinates, this`skipping
      ensures StepResult(State(), r) == Cut(Cfg(), old(coordinates), z, old(skipping))
    {
      ghost var c := coordinates;
      var n := |coordinates|;
      var length := dist(coordinates[n - 2], coordinates[n - 1]);
      skipping := !skipping && length <= radius;
      var ops := [];
      if !skipping && n > 2 && SharpAngle(Cfg(), coordinates) {
        if length < radius {
          // too short to rotate: skip the move until the knife has travelled far enough
          skipping := true;
        } else {
          var m := Rotation(Cfg(), coordinates, z);
          if m.NotALine? {
            r := NotALine;
            return;
          }
          ops := m.value;
        }
      }
      if skipping {
        coordinates := coordinates[..|coordinates| - 1];
      } else {
        assert ops == [] ==> ops + [Line] == [Line];
        ops := ops + [Line];
      }
      DropOldest(3);
      r := Ok(ops);
    }

    /** Drops the oldest points of the window until at most `keep` remain. */
    method DropOldest(keep: nat)
      modifies this`coordinates
      ensures coordinates == Newest(old(coordinates), keep)
    {
      while |coordinates| > keep
        invariant |coordinates| <= |old(coordinates)|
        invariant coordinates == old(coordinates)[|old(coordinates)| - |coordinates|..]
        invariant |coordinates| >= if |old(coordinates)| > keep then keep else |old(coordinates)|
      {
        coordinates := coordinates[1..];
      }
    }

    /** `Process` seen through the debugging filter when it is in force. */
    method Call(speed: int, axes: Axes) returns (r: Result<seq<Op>>)
      requires Valid()
      modifies this
      ensures Valid()
      ensures var step := Step(Cfg(), old(State()), speed, axes);
        State() == step.state &&
        r == if neverRaise && step.out.Ok? then Ok(NeverRaiseBlade(step.out.value)) else step.out
    {
      r := Process(speed, axes);
      if neverRaise && r.Ok? {
        r := Ok(NeverRaiseBlade(r.value));
      }
    }
  }
}
