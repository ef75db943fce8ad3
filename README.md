# Drag-knife G-code post-processor, modelled in Dafny

This project models the core of `drag_knife.py`. That program rewrites a
G-code stream so that a drag knife can cut it. A drag knife's blade trails
its axis by a small offset, so at a sharp corner the knife does three
things: it cuts on past the corner, lifts the blade, and swivels it about the
tip before cutting on. The program does this with a small state machine, the
`motion` class, which receives one motion line at a time. It keeps three
fields:

- a window of recent endpoints;
- the current height;
- a "skipping" flag.

For each line it answers with the operations to write: the line itself,
nothing, or extra moves.

The model has six modules:

- `Wrappers`: `Option`, for an axis word a line may or may not carry.
- `Geometry`: points, squared distance and the cross product. It also holds
  `Shift`, the program's `shift`/`shift_start`/`shift_end`, which finds the
  point a given length along a segment. A zero-length segment is the
  explicit failure `NotALine`.
- `Gcode`:
  - the output vocabulary `Op` (`Line` echoes the current input line, and
    `Tok` is one symbolic text token);
  - the emitters `Gxy` and `Gz`, and the turn test `Direction`;
  - the debugging filter `NeverRaiseBlade`;
  - `EndPoint`, which reads back where a sequence of axis words leads.
- `Preprocess`: `preprocess`, the split of an input line into the text to
  echo and the text to classify. It is specified against the semantics of a
  regular-expression search for `(\s*);\s*`.
- `Engine`:
  - `Step`, the engine's behaviour as a function of its state;
  - the class `Motion`, whose fields are the program's fields. Its methods
    `Process`, `CutMove` and `DropOldest` update them in place, with the
    program's loops. `Process` (and `Call`, which adds the filter) is proved
    against `Step`, `CutMove` against `Cut`, and `DropOldest` against
    `Newest`.
- `MotionLemmas`: the properties of `Step`, and `Run`, which is the engine
  over a stream of motion lines.

Two oracles stand in for functions that real numbers in Dafny cannot
compute:

- `dist` stands for `distance`. `IsDistance` says that `dist` is non-negative
  and that its square is the squared Euclidean distance.
- `angle` stands for `angle` (an `atan` in degrees). `IsAngle` says its
  values lie in [0, 180].

Some behaviours of the code that a reader might not expect, all modelled as
written:

- The window has no bound: cuts trim it to three points, but arcs (motion
  codes 2 and 3) never trim it. `WindowUnbounded` builds streams that make
  it arbitrarily long.
- `travel` is placed by `shift_end` a blade offset *past* the corner along
  the incoming segment, not before it.
- A rotation lifts the blade by `radius`. The only retract parameter,
  `retract`, is used for rapid moves alone.
- `gz` always emits its height move, even when the height does not change.
- `preprocess` classifies a commented line by the whitespace captured before
  the `;`, not by the text before it.
- The skip rule of line 138 toggles the flag without looking at the window's
  length.
- The assertion in `shift` (line 50) can fail inside `__process`:
  `ZeroMoveThenCornerFails` gives three lines that make it fail from a new
  engine. It is modelled as the outcome `NotALine`, which ends a run.

## Model

| member | source | states |
|---|---|---|
| Geometry.Shift | drag_knife.py:42-54 | for the Euclidean distance, the shift fails exactly when the two points are equal |
| Geometry.ShiftGeometry | drag_knife.py:42-54 | a successful shift lands exactly abs(length) from its anchor, on the line through the anchor parallel to the segment, and length times the segment's length ahead of the anchor along it; `OffsetUnique` proves that these facts determine the point |
| Geometry.OffsetUnique | drag_knife.py:51-52 | two points at the same offset along a segment that is not degenerate are equal, so the offset facts pin the shifted point |
| Geometry.ShiftStart | drag_knife.py:55 | shift_start fails exactly on a zero-length segment |
| Geometry.ShiftEnd | drag_knife.py:56 | shift_end fails exactly on a zero-length segment |
| Geometry.ShiftStartGeometry | drag_knife.py:55 | shift_start lands length along the segment, measured from its start |
| Geometry.ShiftEndGeometry | drag_knife.py:56 | shift_end lands length along the segment, measured from its end, so past the end for a positive length |
| Geometry.DistanceZero | drag_knife.py:36-39 | the distance is zero exactly between equal points |
| Geometry.DistanceAtMost | drag_knife.py:36-39 | distance(p, q) <= r holds exactly when r >= 0 and the squared distance is at most r squared |
| Geometry.DistanceBelow | drag_knife.py:36-39 | distance(p, q) < r holds exactly when r > 0 and the squared distance is below r squared |
| Gcode.Direction | drag_knife.py:23-34 | the turn command is always one of the two arc commands G2 and G3 |
| Gcode.DirectionReversed | drag_knife.py:23-34 | walking a path backwards flips the turn exactly when the cross product is non-zero; a straight path counts as G3 both ways |
| Gcode.Gxy | drag_knife.py:68-83 | nothing is emitted exactly when origin equals destination; otherwise the move starts with the command and ends with a newline; its axis words lead from origin to destination; an X word comes for a changed x, a Y word for a changed y, and a centre offset (centre minus origin) on every arc; the order of the words and that each appears once are stated by GxyBlock |
| Gcode.GxyBlock | drag_knife.py:74-83 | a move is one block: exactly one word per changed axis and one centre offset on an arc between the command and the newline, in the order X, Y, centre |
| Gcode.GxyWords | drag_knife.py:68-83 | a move carries an X word only for a changed x, a Y word only for a changed y, a centre offset only on an arc, and never a height move or an echoed line |
| Gcode.Gz | drag_knife.py:85-87 | exactly the height move and a newline, for any height, and no move in the plane |
| Gcode.NeverRaiseBlade | drag_knife.py:175-180 | the filter never lengthens the output |
| Gcode.NeverRaiseKeeps | drag_knife.py:175-180 | the filter keeps exactly the operations that are not height moves, the echoed lines included |
| Gcode.NeverRaiseAppend | drag_knife.py:175-180 | filtering commutes with concatenation, so what is kept stays in order |
| Gcode.NeverRaiseIdempotent | drag_knife.py:175-180 | filtering twice is filtering once |
| Gcode.NeverRaiseKeepsPath | drag_knife.py:175-180 | the filter does not change where the axis words lead |
| Gcode.NeverRaiseGz | drag_knife.py:175-180 | of a height move only its newline survives |
| Preprocess.RStrip | drag_knife.py:92 | the result is the longest prefix of the line that does not end in whitespace; everything removed is whitespace |
| Preprocess.SearchFinds | drag_knife.py:91-93 | the search for the comment pattern finds exactly one leftmost match, whose group is the whitespace run ending at the first ';' |
| Preprocess.Preprocess | drag_knife.py:89-97 | raw is the line with trailing whitespace stripped; without a match code is raw; with a match code is the captured whitespace when it is not empty and raw otherwise |
| Preprocess.PreprocessWithoutComment | drag_knife.py:96-97 | a line without ';' is classified by all of its stripped text |
| Preprocess.PreprocessCommented | drag_knife.py:94-95 | for "G0 ; up" the code is the single blank before the marker |
| Engine.NewPoint | drag_knife.py:121-122 | each axis takes the line's word when it has one and keeps the last endpoint's value otherwise; the line stays put exactly when every X and Y word it carries repeats the current position |
| Engine.SharpBand | drag_knife.py:116-118 | with the band (a, 180 - a) a corner is sharp exactly when its angle lies strictly closer than 90 - a to a right angle |
| Engine.ManoeuvreShape | drag_knife.py:154-158 | read from the corner, the rotation moves leave the tool at swivel, lift the blade to z + radius on the way and end by lowering it to z |
| Engine.SharpAngle | drag_knife.py:116-118 | the corner test: the angle at the last three points lies strictly inside (angleMin, angleMax); what that band means is stated by SharpBand and NoRotationAtNinety |
| Engine.Manoeuvre | drag_knife.py:154-158 | the rotation moves: the cut to travel, the lift by radius, the arc about the corner to swivel and the lowering to z; their effect is stated by ManoeuvreShape, MovesHold and ManoeuvreTrack |
| Engine.Rotate | drag_knife.py:145-170 | the outcome of a rotating cut keeps the window non-empty; RotateShape states what it is: the rotation moves then the echoed line, the cleared flag and the trimmed window, or the failure with the window untrimmed |
| Engine.Trim | drag_knife.py:169-170 | the trimmed window is the newest min(3, length) points |
| Engine.Step | drag_knife.py:120-173 | after any line the window is still non-empty |
| Engine.Cut | drag_knife.py:136-170 | after a cut the window is still non-empty |
| Engine.Rotation | drag_knife.py:145-159 | for the Euclidean distance, the rotation fails exactly when the segment leading to the corner has length zero |
| Engine.Motion.constructor | drag_knife.py:100-114 | a new engine sits at the origin at height zero, not skipping, with angle band (sharp_angle, 180 - sharp_angle) |
| Engine.Motion.Process | drag_knife.py:120-173 | the new fields and the output are those Step gives for the old fields; the window stays non-empty |
| Engine.Motion.CutMove | drag_knife.py:136-170 | the in-place cut branch updates the window and flag and emits exactly what Cut gives |
| Engine.Motion.DropOldest | drag_knife.py:169-170 | the loop leaves the newest `keep` points, or all of them when there are fewer |
| Engine.Motion.Call | drag_knife.py:111-114 | with the filter in force the output is Step's output filtered, otherwise Step's output; the state is Step's in both cases |
| MotionLemmas.Run | drag_knife.py:239-250 | over a stream of motion lines the window is never empty |
| MotionLemmas.StepWindow | drag_knife.py:121-173 | a line that does not move drops the oldest point and keeps the length; a rapid leaves exactly the new point; a cut leaves one to three points; any other motion code (an arc) appends the new point; the window ends at the new point unless the line was skipped |
| MotionLemmas.StepOutput | drag_knife.py:123-135 | the height is the line's Z word or the old height; a line that does not move is echoed for any motion code and keeps the flag; a rapid emits a lift to z + retract, the line and a move to z, and clears the flag; any motion code other than 0 and 1 is echoed and keeps the flag |
| MotionLemmas.SkipRule | drag_knife.py:137-166 | after a skipped cut, a cut is skipped exactly at a sharp corner shorter than the offset; otherwise exactly when it is no longer than the offset; a skip emits nothing, forgets the endpoint and keeps the new z; a cut that is not skipped ends by echoing the line and trims the window |
| MotionLemmas.ShortCutsAlternate | drag_knife.py:138 | of two short cuts in a row without a sharp corner, the first is skipped and the second echoed |
| MotionLemmas.RotateShape | drag_knife.py:145-159 | a rotation fails exactly on a degenerate incoming segment; otherwise it emits the rotation moves of RotationMoves, clears the flag and trims the window |
| MotionLemmas.RotationOutput | drag_knife.py:139-159 | when the rotation conditions hold (not skipping after line 138, a corner, a strictly sharp angle, a segment at least the offset long), the output is the cut to travel, the lift by radius, the arc about the corner to swivel, the lowering to z and the echoed line, or the failure |
| MotionLemmas.NoRotationAtNinety | drag_knife.py:107-118 | with a sharp threshold of 90 degrees a cut is only ever echoed or skipped, never turned |
| MotionLemmas.RotationIff | drag_knife.py:139-168 | a cut emits more than the line itself, or fails, exactly when the rotation conditions hold |
| MotionLemmas.TravelAndSwivel | drag_knife.py:146-149 | travel lies radius past the corner along the incoming segment, swivel radius from the corner along the outgoing one |
| MotionLemmas.MovesHold | drag_knife.py:146-158 | the moves built from the two shifts and the turn have the geometry and the order RotationMoves states |
| MotionLemmas.ManoeuvreTrack | drag_knife.py:154-159 | the rotation moves followed by the echoed line leave the tool at the line's endpoint |
| MotionLemmas.RapidTrack | drag_knife.py:132-135 | the rapid moves leave the tool at the line's endpoint |
| MotionLemmas.StepTracksPosition | drag_knife.py:120-173 | starting from the window's last point, the emitted operations (the echoed line moving to its endpoint) lead to the new window's last point, so the window always ends where the tool is |
| MotionLemmas.RapidFiltered | drag_knife.py:175-180 | the filter turns the rapid moves into newline, line, newline |
| MotionLemmas.FilteredRapid | drag_knife.py:132-135 | with the filter, a rapid line is echoed between two bare newlines |
| MotionLemmas.WindowBoundedWithoutArcs | drag_knife.py:169-170 | over any stream of rapids and cuts from a window of at most three points, the window keeps at most three points |
| MotionLemmas.ArcsGrowWindow | drag_knife.py:171-173 | each arc to a new point grows the window by one |
| MotionLemmas.WindowUnbounded | drag_knife.py:171-173 | from a new engine, n arcs leave a window of n + 1 points |
| MotionLemmas.Plunge | drag_knife.py:124-126 | from the window [(0,0), (10,0)] at height 0, not skipping, "G1 Z-1" is echoed and leaves the window [(10,0), (10,0)] at height -1 |
| MotionLemmas.CornerFails | drag_knife.py:146-147 | after that plunge, "G1 X15" meets a 90-degree corner; with radius < 5 and a sharp threshold below 90 it shifts along the zero-length segment from (10,0) to (10,0) and fails |
| MotionLemmas.ZeroMoveThenCornerFails | drag_knife.py:50 | "G1 X10", "G1 Z-1", "G1 X15" from a new engine end in the failure of shift's assertion whenever radius < 5 and the sharp threshold is below 90 degrees |

## Left out

- `cli` (lines 182-234): argument parsing, the knife table, log levels and
  the output file name are driver glue. `radius`, `retract` and the sharp
  angle are the constructor's parameters.
- `run` and `__main__` (lines 236-255): file input and output are left out.
  So is the `G0?([0123])` search that picks the motion code. `Run` takes the
  motion lines already classified, as `Input` values. Lines without a motion
  code are echoed by the driver and never reach the engine.
- `coord` and `pos_x`/`pos_y`/`pos_z` (lines 58-66): their regular
  expressions and `float()` parsing are not modelled. A line's axis words
  arrive as `Axes` of optional values, and an absent word keeps the axis.
- Floating point: coordinates are exact reals. `math.sqrt` and `math.atan`
  are the oracles `dist` and `angle`.
- The `round(..., 6)` assertion at line 53 is not modelled. `ShiftGeometry`
  proves the exact distance it approximates. The rounding is more than a
  tolerance: even in exact arithmetic `round(r, 6) < r` for a radius such as
  1.7000004 (from `-t 1.7000004`), so that assertion would fail on every
  rotation.
- The `{:.2f}` formatting of numbers: tokens are symbolic.
- Logging (lines 131, 153, 162-166, 172) and `CRITICAL_PARAMETER` (line 109)
  are left out. `CRITICAL_PARAMETER` only chooses the level of a log message.
- The lazy generators are not modelled. Operations are computed as a whole
  sequence per line, which gives the same output because nothing else runs
  between the yields.
- The Python 2 rebinding of `__call__` (lines 111-114) is not modelled. It
  becomes `Motion.Call`, which composes `Process` with the filter.
- Gcode.Direction: its contract says only that the result is an arc command.
  Which command is chosen is the definition itself (G2 exactly when the
  cross product is negative). `DirectionReversed` and `RotationMoves` state
  what that choice means.
- MotionLemmas.Run: on a failure it returns only the failure. The program
  has already written the output of the earlier lines when the assertion
  stops it; that partial output is not modelled.
- Engine.Step and Engine.Cut: their own contracts state only the window
  invariant. Their behaviour is stated by the lemmas of MotionLemmas.
