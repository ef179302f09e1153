/**
 * The mouse controller: a per-frame state machine that turns the primary
 * pointer position and the detected gestures into relative cursor moves and
 * button presses/releases. Cursor and button effects are emitted as a list
 * of actions; the frame time is a parameter.
 */
module MouseControl {
  import opened Wrappers
  import opened RealMath
  import opened Geometry
  import Pointers

  type GestureMap = map<string, real>

  /** Length of the controller's position history. */
  const HistoryLength: nat := 5
  /** Movement components smaller than this (after scaling) are dropped. */
  const DeadZoneWidth: real := 0.8
  /** Share of the current delta in an emitted move; the previous delta gets the rest. */
  const CurrentShare: real := 0.7
  const PreviousShare: real := 0.3
  /** The constructor's default arguments. */
  const DefaultSensitivity: real := 4.0
  const DefaultSmoothing: real := 0.2
  const DefaultClickCooldown: real := 0.3

  datatype Button = Left | Right

  /** The effects the controller asks of the operating system's pointer. */
  datatype Action =
    | MoveRel(dx: real, dy: real)
    | MouseDown(button: Button)
    | MouseUp(button: Button)

  datatype ControllerState = ControllerState(
    lastRawPosition: Option<Point>,
    positionHistory: Option<seq<Point>>,
    lastDelta: Option<Vec>,
    isMoving: bool,
    leftButtonDown: bool,
    rightButtonDown: bool,
    lastClickTime: real,
    lastActiveTime: Option<real>)

  /** The controller's state, and the actions of one frame. */
  datatype Frame = Frame(state: ControllerState, actions: seq<Action>)

  function InitialState(): ControllerState
  {
    ControllerState(None, None, None, false, false, false, 0.0, None)
  }

  /**
   * What every reachable state satisfies: once a raw position is known the
   * history and the previous delta exist, and the history always holds
   * exactly five positions.
   */
  predicate WellFormed(s: ControllerState)
  {
    && (s.lastRawPosition.Some? ==> s.positionHistory.Some? && s.lastDelta.Some?)
    && (s.positionHistory.Some? ==> |s.positionHistory.value| == HistoryLength)
  }

  function Repeat(p: Point, n: nat): (ps: seq<Point>)
    ensures |ps| == n && forall i :: 0 <= i < n ==> ps[i] == p
  {
    seq(n, _ => p)
  }

  /** Appends the newest position and drops the oldest once there are more than five. */
  function Push(h: seq<Point>, p: Point): (r: seq<Point>)
    ensures |h| < HistoryLength ==> r == h + [p]
    ensures |h| >= HistoryLength ==> r == h[1..] + [p]
    ensures |h| == HistoryLength ==> |r| == HistoryLength
  {
    var appended := h + [p];
    if |appended| > HistoryLength then appended[1..] else appended
  }

  /** History weights, oldest first. */
  function BlendWeights(): (ws: seq<real>)
    ensures |ws| == HistoryLength
  {
    [0.1, 0.15, 0.2, 0.25, 0.3]
  }

  /** The weights are positive, ascend toward the newest position and sum to one. */
  lemma BlendWeightsShape()
    ensures forall i :: 0 <= i < HistoryLength ==> 0.0 < BlendWeights()[i]
    ensures forall i, j :: 0 <= i < j < HistoryLength ==> BlendWeights()[i] < BlendWeights()[j]
    ensures Sum(BlendWeights()) == 1.0
  {
    var ws := BlendWeights();
    assert ws[1..] == [0.15, 0.2, 0.25, 0.3];
    assert ws[1..][1..] == [0.2, 0.25, 0.3];
    assert ws[1..][1..][1..] == [0.25, 0.3];
    assert ws[1..][1..][1..][1..] == [0.3];
    assert Sum([0.3]) == 0.3;
  }

  /** The weighted average of a five-position history on one axis. */
  function Blended(h: seq<Point>, axis: Axis): real
    requires |h| == HistoryLength
  {
    Dot(h, BlendWeights(), axis)
  }

  /** The weighted average written out term by term. */
  lemma BlendedExplicit(h: seq<Point>, axis: Axis)
    requires |h| == HistoryLength
    ensures Blended(h, axis) ==
      Coord(h[0], axis) as real * 0.1 + Coord(h[1], axis) as real * 0.15 + Coord(h[2], axis) as real * 0.2
      + Coord(h[3], axis) as real * 0.25 + Coord(h[4], axis) as real * 0.3
  {
    var ws := BlendWeights();
    var h1, h2, h3, h4 := h[1..], h[2..], h[3..], h[4..];
    assert h1[1..] == h2 && h2[1..] == h3 && h3[1..] == h4 && h4[1..] == [];
    assert ws[1..] == [0.15, 0.2, 0.25, 0.3];
    assert Dot(h4, [0.3], axis) == Coord(h[4], axis) as real * 0.3 + Dot([], [], axis);
    assert Dot(h3, [0.25, 0.3], axis) == Coord(h[3], axis) as real * 0.25 + Dot(h4, [0.3], axis);
    assert Dot(h2, [0.2, 0.25, 0.3], axis) == Coord(h[2], axis) as real * 0.2 + Dot(h3, [0.25, 0.3], axis);
    assert Dot(h1, [0.15, 0.2, 0.25, 0.3], axis)
        == Coord(h[1], axis) as real * 0.15 + Dot(h2, [0.2, 0.25, 0.3], axis);
    assert Dot(h, ws, axis) == Coord(h[0], axis) as real * 0.1 + Dot(h1, [0.15, 0.2, 0.25, 0.3], axis);
  }

  /** The weighted average lies within the range of the history on that axis. */
  lemma BlendedWithinRange(h: seq<Point>, axis: Axis)
    requires |h| == HistoryLength
    ensures MinCoord(h, axis) as real <= Blended(h, axis) <= MaxCoord(h, axis) as real
  {
    BlendWeightsShape();
    DotBounds(h, BlendWeights(), axis, MinCoord(h, axis), MaxCoord(h, axis));
  }

  /** A history of one repeated point blends to that point. */
  lemma BlendedConstant(h: seq<Point>, p: Point, axis: Axis)
    requires |h| == HistoryLength
    requires forall i :: 0 <= i < |h| ==> h[i] == p
    ensures Blended(h, axis) == Coord(p, axis) as real
  {
    BlendedWithinRange(h, axis);
    assert MinCoord(h, axis) == Coord(p, axis) && MaxCoord(h, axis) == Coord(p, axis);
  }

  /**
   * The dead zone: a component smaller than 0.8 in magnitude becomes 0;
   * a larger one keeps its sign and loses exactly 0.8 of its magnitude.
   */
  function DeadZone(d: real): (r: real)
    ensures Abs(d) < DeadZoneWidth ==> r == 0.0
    ensures DeadZoneWidth <= Abs(d) ==> Abs(r) == Abs(d) - DeadZoneWidth
    ensures 0.0 <= d ==> 0.0 <= r
    ensures d <= 0.0 ==> r <= 0.0
    ensures Abs(r) <= Abs(d)
  {
    if Abs(d) < DeadZoneWidth then 0.0
    else
      var sign := d / Abs(d);
      assert 0.0 < d ==> sign == d / d == 1.0;
      assert d < 0.0 ==> sign == d / -d == -1.0;
      (Abs(d) - DeadZoneWidth) * sign
  }

  /** The dead zone has no jump at its edge: it reaches 0 from both sides. */
  lemma DeadZoneContinuousAtEdge(d: real)
    requires Abs(d) == DeadZoneWidth
    ensures DeadZone(d) == 0.0
  {
  }

  /**
   * The movement of one frame: the blended history minus the previous raw
   * position, scaled by the sensitivity and mirrored, then passed through
   * the dead zone on each axis.
   */
  function MovementDelta(h: seq<Point>, lastRaw: Point, sensitivity: real): (d: Vec)
    requires |h| == HistoryLength
    ensures var shift := (Blended(h, X) - lastRaw.x as real) * sensitivity;
      && (0.0 <= shift ==> d.x <= 0.0) && (shift <= 0.0 ==> 0.0 <= d.x)
      && Abs(d.x) <= Abs(shift) && (Abs(shift) <= DeadZoneWidth <==> d.x == 0.0)
    ensures var shift := (Blended(h, Y) - lastRaw.y as real) * sensitivity;
      && (0.0 <= shift ==> d.y <= 0.0) && (shift <= 0.0 ==> 0.0 <= d.y)
      && Abs(d.y) <= Abs(shift) && (Abs(shift) <= DeadZoneWidth <==> d.y == 0.0)
  {
    Vec(DeadZone(-((Blended(h, X) - lastRaw.x as real) * sensitivity)),
        DeadZone(-((Blended(h, Y) - lastRaw.y as real) * sensitivity)))
  }

  /** The emitted move: 70% of this frame's delta and 30% of the previous one, if any. */
  function Smoothen(delta: Vec, previous: Option<Vec>): (out: Vec)
    ensures previous.None? ==> out == delta
    ensures previous.Some? && previous.value == delta ==> out == delta
  {
    match previous
    case Some(p) => Vec(delta.x * CurrentShare + p.x * PreviousShare, delta.y * CurrentShare + p.y * PreviousShare)
    case None => delta
  }

  /** The movement part of a steady frame (a known previous raw position). */
  function MoveStep(s: ControllerState, sensitivity: real, raw: Point, gestures: GestureMap, now: real): (f: Frame)
    requires WellFormed(s) && s.lastRawPosition.Some?
    ensures WellFormed(f.state)
    ensures f.state.lastRawPosition == s.lastRawPosition
    ensures f.state.leftButtonDown == s.leftButtonDown && f.state.rightButtonDown == s.rightButtonDown
    ensures f.state.lastClickTime == s.lastClickTime
    ensures "move" !in gestures ==> f.actions == [] && f.state == s.(isMoving := false)
    ensures "move" in gestures ==>
      var h := Push(s.positionHistory.value, raw);
      var d := MovementDelta(h, s.lastRawPosition.value, sensitivity);
      && f.state.positionHistory == Some(h)
      && f.state.lastActiveTime == Some(now)
      && (f.actions == [] <==> d == Vec(0.0, 0.0))
      && (f.actions != [] ==>
            var out := Smoothen(d, s.lastDelta);
            f.actions == [MoveRel(out.x, out.y)] && f.state.lastDelta == Some(d) && f.state.isMoving)
      && (f.actions == [] ==> f.state.lastDelta == s.lastDelta && !f.state.isMoving)
  {
    if "move" !in gestures then
      Frame(s.(isMoving := false), [])
    else
      var h := Push(s.positionHistory.value, raw);
      var d := MovementDelta(h, s.lastRawPosition.value, sensitivity);
      var s1 := s.(lastActiveTime := Some(now), positionHistory := Some(h));
      if Abs(d.x) > 0.0 || Abs(d.y) > 0.0 then
        var out := Smoothen(d, s.lastDelta);
        Frame(s1.(lastDelta := Some(d), isMoving := true), [MoveRel(out.x, out.y)])
      else
        Frame(s1.(isMoving := false), [])
  }

  datatype ButtonResult = ButtonResult(down: bool, action: Option<Action>)

  /**
   * Press-and-hold for one button: press when the gesture is present and the
   * button is up, release when it is absent and the button is down.
   */
  function ButtonStep(down: bool, gesture: bool, b: Button): (r: ButtonResult)
    ensures r.down == gesture
    ensures r.action == Some(MouseDown(b)) <==> gesture && !down
    ensures r.action == Some(MouseUp(b)) <==> !gesture && down
    ensures r.action.None? <==> gesture == down
  {
    if gesture then
      if !down then ButtonResult(true, Some(MouseDown(b))) else ButtonResult(down, None)
    else if down then ButtonResult(false, Some(MouseUp(b)))
    else ButtonResult(down, None)
  }

  function ActionList(a: Option<Action>): seq<Action>
  {
    if a.Some? then [a.value] else []
  }

  predicate IsButtonAction(a: Action)
  {
    a.MouseDown? || a.MouseUp?
  }

  /** The button part of a steady frame, gated by the click cooldown. */
  function ButtonsStep(s: ControllerState, cooldown: real, gestures: GestureMap, now: real): (f: Frame)
    ensures f.state.lastRawPosition == s.lastRawPosition && f.state.positionHistory == s.positionHistory
    ensures f.state.lastDelta == s.lastDelta && f.state.isMoving == s.isMoving
    ensures f.state.lastActiveTime == s.lastActiveTime
    ensures forall a :: a in f.actions ==> IsButtonAction(a)
    ensures !(now - s.lastClickTime > cooldown) ==> f == Frame(s, [])
    ensures now - s.lastClickTime > cooldown ==>
      && f.state.leftButtonDown == ("left_click" in gestures)
      && f.state.rightButtonDown == ("right_click" in gestures)
      && (MouseDown(Left) in f.actions <==> "left_click" in gestures && !s.leftButtonDown)
      && (MouseUp(Left) in f.actions <==> "left_click" !in gestures && s.leftButtonDown)
      && (MouseDown(Right) in f.actions <==> "right_click" in gestures && !s.rightButtonDown)
      && (MouseUp(Right) in f.actions <==> "right_click" !in gestures && s.rightButtonDown)
      && f.state.lastClickTime ==
           if ("left_click" in gestures && !s.leftButtonDown) || ("right_click" in gestures && !s.rightButtonDown)
           then now else s.lastClickTime
  {
    if now - s.lastClickTime > cooldown then
      var l := ButtonStep(s.leftButtonDown, "left_click" in gestures, Left);
      var r := ButtonStep(s.rightButtonDown, "right_click" in gestures, Right);
      var pressed := l.action == Some(MouseDown(Left)) || r.action == Some(MouseDown(Right));
      Frame(s.(leftButtonDown := l.down, rightButtonDown := r.down,
               lastClickTime := if pressed then now else s.lastClickTime),
            ActionList(l.action) + ActionList(r.action))
    else
      Frame(s, [])
  }

  /**
   * One call of the controller. An inactive pointer forgets the raw position
   * (so reactivation cannot teleport the cursor) and emits nothing; the first
   * active frame only initialises; later frames move, then handle buttons.
   */
  function Step(s: ControllerState, sensitivity: real, cooldown: real, active: bool, raw: Point,
                gestures: GestureMap, now: real): (f: Frame)
    requires WellFormed(s)
    ensures WellFormed(f.state)
    ensures !active ==> f.actions == [] && f.state == s.(lastRawPosition := None, isMoving := false)
    ensures active && s.lastRawPosition.None? ==>
      && f.actions == []
      && f.state.lastRawPosition == Some(raw)
      && f.state.lastDelta == Some(Vec(0.0, 0.0))
      && f.state.positionHistory == (if s.positionHistory.None? then Some(Repeat(raw, HistoryLength)) else s.positionHistory)
      && f.state.isMoving == s.isMoving
      && f.state.leftButtonDown == s.leftButtonDown && f.state.rightButtonDown == s.rightButtonDown
      && f.state.lastClickTime == s.lastClickTime
    ensures active && s.lastRawPosition.Some? ==> f.state.lastRawPosition == Some(raw)
    ensures (exists a :: a in f.actions && a.MoveRel?) ==> active && s.lastRawPosition.Some? && "move" in gestures
    ensures !(active && s.lastRawPosition.Some? && now - s.lastClickTime > cooldown) ==>
      && f.state.leftButtonDown == s.leftButtonDown && f.state.rightButtonDown == s.rightButtonDown
      && f.state.lastClickTime == s.lastClickTime
      && forall a :: a in f.actions ==> !IsButtonAction(a)
  {
    if !active then
      Frame(s.(lastRawPosition := None, isMoving := false), [])
    else if s.lastRawPosition.None? then
      var h := if s.positionHistory.None? then Some(Repeat(raw, HistoryLength)) else s.positionHistory;
      Frame(s.(lastRawPosition := Some(raw), positionHistory := h, lastDelta := Some(Vec(0.0, 0.0)),
               lastActiveTime := Some(now)), [])
    else
      var m := MoveStep(s, sensitivity, raw, gestures, now);
      var b := ButtonsStep(m.state.(lastRawPosition := Some(raw)), cooldown, gestures, now);
      assert forall a :: a in m.actions ==> a.MoveRel?;
      Frame(b.state, m.actions + b.actions)
  }

  /** Some action of `actions` is a relative move by dx horizontally. */
  predicate MovesHorizontally(actions: seq<Action>, dx: real)
  {
    exists a :: a in actions && a.MoveRel? && a.dx == dx
  }

  /**
   * Right after initialisation at p0 the history is five copies of p0 and
   * the previous delta is zero. If the next frame moves the hand to the right
   * (p1.x > p0.x) with the move gesture and a positive sensitivity, any
   * horizontal cursor movement emitted goes to the left: the controls are
   * mirrored. When the scaled shift of the blend clears the dead zone, a
   * leftward move is emitted, 70% of the dead-zoned shift.
   */
  lemma SecondFrameMirrored(s: ControllerState, sensitivity: real, cooldown: real, p0: Point, p1: Point,
                            gestures: GestureMap, now: real)
    requires WellFormed(s) && s.lastRawPosition == Some(p0) && s.lastDelta == Some(Vec(0.0, 0.0))
    requires s.positionHistory == Some(Repeat(p0, HistoryLength))
    requires 0.0 < sensitivity && p0.x < p1.x && "move" in gestures
    ensures var f := Step(s, sensitivity, cooldown, true, p1, gestures, now);
      forall a :: a in f.actions && a.MoveRel? ==> a.dx <= 0.0
    ensures DeadZoneWidth < 0.3 * (p1.x - p0.x) as real * sensitivity ==>
      var f := Step(s, sensitivity, cooldown, true, p1, gestures, now);
      && MovesHorizontally(f.actions, CurrentShare * (DeadZoneWidth - 0.3 * (p1.x - p0.x) as real * sensitivity))
      && CurrentShare * (DeadZoneWidth - 0.3 * (p1.x - p0.x) as real * sensitivity) < 0.0
  {
    SecondFrameNeverRight(s, sensitivity, cooldown, p0, p1, gestures, now);
    if DeadZoneWidth < 0.3 * (p1.x - p0.x) as real * sensitivity {
      BlendAfterOnePush(p0, p1);
      ShiftEmitsMove(s, sensitivity, cooldown, p1, gestures, now, 0.3 * (p1.x - p0.x) as real);
    }
  }

  /** The first half of `SecondFrameMirrored`: no emitted move goes right. */
  lemma SecondFrameNeverRight(s: ControllerState, sensitivity: real, cooldown: real, p0: Point, p1: Point,
                              gestures: GestureMap, now: real)
    requires WellFormed(s) && s.lastRawPosition == Some(p0) && s.lastDelta == Some(Vec(0.0, 0.0))
    requires s.positionHistory == Some(Repeat(p0, HistoryLength))
    requires 0.0 < sensitivity && p0.x < p1.x && "move" in gestures
    ensures var f := Step(s, sensitivity, cooldown, true, p1, gestures, now);
      forall a :: a in f.actions && a.MoveRel? ==> a.dx <= 0.0
  {
    var h := Push(Repeat(p0, HistoryLength), p1);
    BlendAfterOnePush(p0, p1);
    var shift := Blended(h, X) - p0.x as real;
    assert 0.0 < shift;
    ProductPositive(shift, sensitivity);
    var d := MovementDelta(h, p0, sensitivity);
    assert d.x <= 0.0;
    var f := Step(s, sensitivity, cooldown, true, p1, gestures, now);
    var m := MoveStep(s, sensitivity, p1, gestures, now);
    assert forall a :: a in f.actions && a.MoveRel? ==> a in m.actions;
  }

  /** A history of five copies of q after one push of p blends to 70% q and 30% p. */
  lemma BlendAfterOnePush(q: Point, p: Point)
    ensures Blended(Push(Repeat(q, HistoryLength), p), X) == 0.7 * q.x as real + 0.3 * p.x as real
  {
    var h := Push(Repeat(q, HistoryLength), p);
    assert h == [q, q, q, q, p];
    BlendedExplicit(h, X);
  }

  /**
   * On a steady frame with the move gesture after a zero delta, a blend
   * shifted right of the last raw position by more than the dead zone (once
   * scaled) emits a leftward move of 70% of the dead-zoned shift.
   */
  lemma ShiftEmitsMove(s: ControllerState, sensitivity: real, cooldown: real, raw: Point,
                       gestures: GestureMap, now: real, shift: real)
    requires WellFormed(s) && s.lastRawPosition.Some? && s.lastDelta == Some(Vec(0.0, 0.0))
    requires "move" in gestures
    requires Blended(Push(s.positionHistory.value, raw), X) - s.lastRawPosition.value.x as real == shift
    requires DeadZoneWidth < shift * sensitivity
    ensures MovesHorizontally(Step(s, sensitivity, cooldown, true, raw, gestures, now).actions,
                              CurrentShare * (DeadZoneWidth - shift * sensitivity))
    ensures CurrentShare * (DeadZoneWidth - shift * sensitivity) < 0.0
  {
    var h := Push(s.positionHistory.value, raw);
    var d := MovementDelta(h, s.lastRawPosition.value, sensitivity);
    assert d.x == DeadZoneWidth - shift * sensitivity;
    var m := MoveStep(s, sensitivity, raw, gestures, now);
    assert m.actions == [MoveRel(d.x * CurrentShare + 0.0 * PreviousShare, d.y * CurrentShare + 0.0 * PreviousShare)];
    var f := Step(s, sensitivity, cooldown, true, raw, gestures, now);
    assert f.actions == m.actions + f.actions[|m.actions|..];
    assert f.actions[0] in f.actions;
  }

  /**
   * Holding a click gesture over two consecutive frames presses the button
   * at most once.
   */
  lemma HeldGesturePressesOnce(s: ControllerState, sensitivity: real, cooldown: real, raw1: Point, raw2: Point,
                               gestures1: GestureMap, gestures2: GestureMap, t1: real, t2: real)
    requires WellFormed(s) && s.lastRawPosition.Some?
    requires "left_click" in gestures1 && "left_click" in gestures2
    ensures var f1 := Step(s, sensitivity, cooldown, true, raw1, gestures1, t1);
            var f2 := Step(f1.state, sensitivity, cooldown, true, raw2, gestures2, t2);
            !(MouseDown(Left) in f1.actions && MouseDown(Left) in f2.actions)
  {
    var f1 := Step(s, sensitivity, cooldown, true, raw1, gestures1, t1);
    if MouseDown(Left) in f1.actions {
      assert f1.state.leftButtonDown;
    }
  }

  /**
   * A release is gated by the same cooldown as a press: a button pressed at
   * time t stays down, with nothing emitted for it, on a frame within the
   * cooldown even though the gesture has gone.
   */
  lemma ReleaseWaitsForCooldown(s: ControllerState, sensitivity: real, cooldown: real, raw1: Point, raw2: Point,
                                gestures1: GestureMap, gestures2: GestureMap, t: real, t2: real)
    requires WellFormed(s) && s.lastRawPosition.Some? && !s.leftButtonDown
    requires t - s.lastClickTime > cooldown && "left_click" in gestures1
    requires "left_click" !in gestures2 && t2 - t <= cooldown
    ensures var f1 := Step(s, sensitivity, cooldown, true, raw1, gestures1, t);
            var f2 := Step(f1.state, sensitivity, cooldown, true, raw2, gestures2, t2);
            MouseDown(Left) in f1.actions && f2.state.leftButtonDown && MouseUp(Left) !in f2.actions
  {
    var f1 := Step(s, sensitivity, cooldown, true, raw1, gestures1, t);
    var m := MoveStep(s, sensitivity, raw1, gestures1, t);
    var b := ButtonsStep(m.state.(lastRawPosition := Some(raw1)), cooldown, gestures1, t);
    assert f1.actions == m.actions + b.actions;
    assert MouseDown(Left) in b.actions;
    assert f1.state.lastClickTime == t;
  }

  /**
   * Deactivating and reactivating the pointer keeps the old history and
   * emits nothing on either frame: the reactivation frame itself is quiet.
   * The kept history still reaches the next frame (`ReactivationJumpsNextFrame`).
   */
  lemma ReactivationDoesNotJump(s: ControllerState, sensitivity: real, cooldown: real, raw0: Point, raw: Point,
                                gestures0: GestureMap, gestures: GestureMap, t0: real, t: real)
    requires WellFormed(s) && s.positionHistory.Some?
    ensures var f0 := Step(s, sensitivity, cooldown, false, raw0, gestures0, t0);
            var f := Step(f0.state, sensitivity, cooldown, true, raw, gestures, t);
            f0.actions == [] && f.actions == [] && f.state.positionHistory == s.positionHistory
            && f.state.lastRawPosition == Some(raw)
  {
  }

  /**
   * The jump is only deferred: a hand last seen with a history of q that
   * leaves, comes back at p and holds still there with the move gesture
   * moves the cursor on the frame after reactivation, because four stale
   * copies of q still weigh in the blend.
   */
  lemma ReactivationJumpsNextFrame(s: ControllerState, sensitivity: real, cooldown: real, q: Point, p: Point,
                                   raw0: Point, gestures0: GestureMap, gestures: GestureMap, t0: real, t1: real, t2: real)
    requires WellFormed(s) && s.positionHistory == Some(Repeat(q, HistoryLength))
    requires "move" in gestures && DeadZoneWidth < 0.7 * (q.x - p.x) as real * sensitivity
    ensures var f0 := Step(s, sensitivity, cooldown, false, raw0, gestures0, t0);
            var f1 := Step(f0.state, sensitivity, cooldown, true, p, gestures, t1);
            var f2 := Step(f1.state, sensitivity, cooldown, true, p, gestures, t2);
            && f1.actions == []
            && MovesHorizontally(f2.actions, CurrentShare * (DeadZoneWidth - 0.7 * (q.x - p.x) as real * sensitivity))
            && CurrentShare * (DeadZoneWidth - 0.7 * (q.x - p.x) as real * sensitivity) < 0.0
  {
    var f0 := Step(s, sensitivity, cooldown, false, raw0, gestures0, t0);
    var f1 := Step(f0.state, sensitivity, cooldown, true, p, gestures, t1);
    assert f1.state.positionHistory == Some(Repeat(q, HistoryLength));
    assert f1.state.lastRawPosition == Some(p) && f1.state.lastDelta == Some(Vec(0.0, 0.0));
    BlendAfterOnePush(q, p);
    ShiftEmitsMove(f1.state, sensitivity, cooldown, p, gestures, t2, 0.7 * (q.x - p.x) as real);
  }

  /** The controller: configuration plus the per-frame state, updated in place. */
  class MouseController {
    const smoothing: real
    const sensitivity: real
    const clickCooldown: real
    var lastRawPosition: Option<Point>
    var positionHistory: Option<seq<Point>>
    var lastDelta: Option<Vec>
    var isMoving: bool
    var leftButtonDown: bool
    var rightButtonDown: bool
    var lastClickTime: real
    var lastActiveTime: Option<real>

    function State(): ControllerState
      reads this
    {
      ControllerState(lastRawPosition, positionHistory, lastDelta, isMoving, leftButtonDown,
                      rightButtonDown, lastClickTime, lastActiveTime)
    }

    ghost predicate Valid()
      reads this
    {
      WellFormed(State())
    }

    constructor (smoothing: real, sensitivity: real)
      ensures this.smoothing == smoothing && this.sensitivity == sensitivity
      ensures clickCooldown == DefaultClickCooldown
      ensures State() == InitialState() && Valid()
    {
      this.smoothing := smoothing;
      this.sensitivity := sensitivity;
      clickCooldown := DefaultClickCooldown;
      lastRawPosition := None;
      positionHistory := None;
      lastDelta := None;
      isMoving := false;
      leftButtonDown := false;
      rightButtonDown := false;
      lastClickTime := 0.0;
      lastActiveTime := None;
    }

    /** A controller built with the default smoothing 0.2 and sensitivity 4.0. */
    constructor WithDefaults()
      ensures smoothing == DefaultSmoothing && sensitivity == DefaultSensitivity
      ensures clickCooldown == DefaultClickCooldown
      ensures State() == InitialState() && Valid()
    {
      smoothing := DefaultSmoothing;
      sensitivity := DefaultSensitivity;
      clickCooldown := DefaultClickCooldown;
      lastRawPosition := None;
      positionHistory := None;
      lastDelta := None;
      isMoving := false;
      leftButtonDown := false;
      rightButtonDown := false;
      lastClickTime := 0.0;
      lastActiveTime := None;
    }

    /** Processes one frame at time `now` and returns the actions to perform, in order. */
    method UpdateMouse(tracker: Pointers.PointerTracker, gestures: GestureMap, now: real) returns (actions: seq<Action>)
      requires Valid() && tracker.Valid()
      modifies this
      ensures Valid()
      ensures Frame(State(), actions)
           == Step(old(State()), sensitivity, clickCooldown, tracker.IsPointerActive(),
                   tracker.PrimaryPointerPosition(), gestures, now)
    {
      actions := [];
      if !tracker.IsPointerActive() {
        isMoving := false;
        lastRawPosition := None;
        return;
      }
      var raw := tracker.PrimaryPointerPosition();
      if lastRawPosition.None? {
        lastRawPosition := Some(raw);
        if positionHistory.None? {
          positionHistory := Some(Repeat(raw, HistoryLength));
        }
        lastDelta := Some(Vec(0.0, 0.0));
        lastActiveTime := Some(now);
        return;
      }
      var moves := ApplyMovement(raw, gestures, now);
      lastRawPosition := Some(raw);
      var presses := ApplyButtons(gestures, now);
      actions := moves + presses;
    }

    /** The movement block of a steady frame. */
    method ApplyMovement(raw: Point, gestures: GestureMap, now: real) returns (moves: seq<Action>)
      requires Valid() && lastRawPosition.Some?
      modifies this
      ensures Frame(State(), moves) == MoveStep(old(State()), sensitivity, raw, gestures, now)
    {
      moves := [];
      if "move" in gestures {
        lastActiveTime := Some(now);
        var h := positionHistory.value + [raw];
        if |h| > HistoryLength {
          h := h[1..];
        }
        positionHistory := Some(h);
        var d := MovementDelta(h, lastRawPosition.value, sensitivity);
        if Abs(d.x) > 0.0 || Abs(d.y) > 0.0 {
          var out := Smoothen(d, lastDelta);
          lastDelta := Some(d);
          moves := [MoveRel(out.x, out.y)];
          isMoving := true;
        } else {
          isMoving := false;
        }
      } else {
        isMoving := false;
      }
    }

    /** The button block of a steady frame: press and hold, release, under the cooldown. */
    method ApplyButtons(gestures: GestureMap, now: real) returns (presses: seq<Action>)
      modifies this
      ensures Frame(State(), presses) == ButtonsStep(old(State()), clickCooldown, gestures, now)
    {
      presses := [];
      if now - lastClickTime > clickCooldown {
        if "left_click" in gestures {
          if !leftButtonDown {
            presses := presses + [MouseDown(Left)];
            leftButtonDown := true;
            lastClickTime := now;
          }
        } else if leftButtonDown {
          presses := presses + [MouseUp(Left)];
          leftButtonDown := false;
        }
        if "right_click" in gestures {
          if !rightButtonDown {
            presses := presses + [MouseDown(Right)];
            rightButtonDown := true;
            lastClickTime := now;
          }
        } else if rightButtonDown {
          presses := presses + [MouseUp(Right)];
          rightButtonDown := false;
        }
      }
    }
  }
}
