/**
 * Fingertip pointers: each finger keeps its current pixel position, a short
 * history of earlier positions for smoothing, and a velocity estimate; the
 * tracker holds one pointer per finger, maps frame coordinates to the screen
 * and detects a thumb-index pinch.
 */
module Pointers {
  import opened Wrappers
  import opened RealMath
  import opened Geometry

  /** Number of earlier positions a pointer keeps. */
  const HistorySize: nat := 5
  /** Weight factor per step back in time used by the smoothing average. */
  const Decay: real := 0.7
  /** Default speed (pixels per second) above which a finger counts as moving. */
  const DefaultMovingThreshold: real := 100.0
  /** A thumb-index gap under this many pixels is a pinch. */
  const PinchThreshold: real := 50.0

  /** The five fingers a tracker follows. */
  const FingerNames: set<string> := {"thumb", "index", "middle", "ring", "pinky"}

  /** The mutable state of one pointer, as a value. */
  datatype PointerState = PointerState(position: Point, prev: seq<Point>, lastUpdateTime: real, velocity: Vec)

  /** A fresh pointer: at the origin, no history, never updated, at rest. */
  function Initial(): PointerState
  {
    PointerState(Point(0, 0), [], 0.0, Vec(0.0, 0.0))
  }

  /**
   * One position update at time `now`. The velocity is only recomputed when
   * an earlier update time exists and time has advanced; the previous (not
   * the new) position enters the history, whose oldest entry is dropped once
   * it holds more than `HistorySize` positions.
   */
  function Advance(s: PointerState, p: Point, now: real): (r: PointerState)
    ensures r.position == p && r.lastUpdateTime == now
    ensures 0 < |r.prev| && r.prev[|r.prev| - 1] == s.position
    ensures |s.prev| < HistorySize ==> r.prev == s.prev + [s.position]
    ensures |s.prev| >= HistorySize ==> r.prev == s.prev[1..] + [s.position]
    ensures |s.prev| <= HistorySize ==> |r.prev| <= HistorySize
  {
    var h := s.prev + [s.position];
    PointerState(p, if |h| > HistorySize then h[1..] else h, now, NewVelocity(s, p, now))
  }

  /** The velocity an update at time `now` to position `p` leaves behind. */
  function NewVelocity(s: PointerState, p: Point, now: real): Vec
  {
    if 0.0 < s.lastUpdateTime && 0.0 < now - s.lastUpdateTime then
      var dt := now - s.lastUpdateTime;
      Vec((p.x - s.position.x) as real / dt, (p.y - s.position.y) as real / dt)
    else s.velocity
  }

  /**
   * The velocity after an update: displacement over elapsed time when an
   * earlier update time exists and time has advanced, otherwise unchanged.
   */
  lemma AdvanceVelocity(s: PointerState, p: Point, now: real)
    ensures var r := Advance(s, p, now);
      && (0.0 < s.lastUpdateTime < now ==>
            r.velocity.x * (now - s.lastUpdateTime) == (p.x - s.position.x) as real &&
            r.velocity.y * (now - s.lastUpdateTime) == (p.y - s.position.y) as real)
      && (!(0.0 < s.lastUpdateTime < now) ==> r.velocity == s.velocity)
  {
  }

  /** A timestamped position update. */
  datatype Update = Update(position: Point, time: real)

  /** The pointer state after a series of updates, oldest first. */
  function Feed(s: PointerState, u: seq<Update>): PointerState
  {
    if u == [] then s
    else Advance(Feed(s, u[..|u| - 1]), u[|u| - 1].position, u[|u| - 1].time)
  }

  function Positions(u: seq<Update>): (ps: seq<Point>)
    ensures |ps| == |u|
    ensures forall i :: 0 <= i < |u| ==> ps[i] == u[i].position
  {
    if u == [] then [] else Positions(u[..|u| - 1]) + [u[|u| - 1].position]
  }

  /** Every position the pointer has held, from its earliest remembered one on. */
  function Trail(s: PointerState, u: seq<Update>): seq<Point>
  {
    s.prev + [s.position] + Positions(u)
  }

  function Suffix(xs: seq<Point>, n: nat): seq<Point>
    requires n <= |xs|
  {
    xs[|xs| - n..]
  }

  /**
   * After any series of updates the history holds at most `HistorySize`
   * positions, and history plus current position are exactly the latest
   * positions the pointer has held, in order.
   */
  lemma {:induction false} FeedWindow(s: PointerState, u: seq<Update>)
    requires |s.prev| <= HistorySize
    ensures |Feed(s, u).prev| == Min(|s.prev| + |u|, HistorySize)
    ensures Feed(s, u).prev + [Feed(s, u).position] == Suffix(Trail(s, u), |Feed(s, u).prev| + 1)
  {
    if u == [] {
      assert Trail(s, u) == s.prev + [s.position];
    } else {
      var n := |u|;
      var u' := u[..n - 1];
      var p := u[n - 1].position;
      assert Trail(s, u) == Trail(s, u') + [p];
      assert Feed(s, u) == Advance(Feed(s, u'), p, u[n - 1].time);
      FeedWindow(s, u');
      WindowStep(Feed(s, u'), Trail(s, u'), p, u[n - 1].time);
    }
  }

  /** One update moves the window of latest positions along by one. */
  lemma WindowStep(r: PointerState, t: seq<Point>, p: Point, now: real)
    requires |r.prev| <= HistorySize && |r.prev| + 1 <= |t|
    requires r.prev + [r.position] == Suffix(t, |r.prev| + 1)
    ensures |Advance(r, p, now).prev| == Min(|r.prev| + 1, HistorySize)
    ensures Advance(r, p, now).prev + [p] == Suffix(t + [p], |Advance(r, p, now).prev| + 1)
  {
    var m := |r.prev|;
    var w := r.prev + [r.position];
    SuffixAppend(t, m + 1, p);
    if m == HistorySize {
      assert Advance(r, p, now).prev + [p] == w[1..] + [p];
      SuffixDropFirst(t + [p], m + 2);
    }
  }

  lemma SuffixAppend(xs: seq<Point>, n: nat, x: Point)
    requires n <= |xs|
    ensures Suffix(xs, n) + [x] == Suffix(xs + [x], n + 1)
  {
    assert (xs + [x])[|xs| - n..] == xs[|xs| - n..] + [x];
  }

  lemma SuffixDropFirst(xs: seq<Point>, n: nat)
    requires 0 < n <= |xs|
    ensures Suffix(xs, n)[1..] == Suffix(xs, n - 1)
  {
  }

  /** `Decay` raised to the power e. */
  function Pow(e: nat): real
  {
    if e == 0 then 1.0 else Decay * Pow(e - 1)
  }

  lemma {:induction false} PowPositive(e: nat)
    ensures 0.0 < Pow(e)
  {
    if e > 0 {
      PowPositive(e - 1);
    }
  }

  lemma {:induction false} PowStrictlyDecreasing(a: nat, b: nat)
    requires a < b
    ensures Pow(b) < Pow(a)
  {
    PowPositive(b - 1);
    if a < b - 1 {
      PowStrictlyDecreasing(a, b - 1);
    }
  }

  /** The smoothing weights for n samples, oldest first: 0.7^n, ..., 0.7^1. */
  function DecayWeights(n: nat): (ws: seq<real>)
    ensures |ws| == n
  {
    seq(n, i requires 0 <= i < n => Pow(n - i))
  }

  /** Every weight is positive and the newest sample weighs exactly 0.7. */
  lemma DecayWeightsPositive(n: nat)
    ensures forall i :: 0 <= i < n ==> 0.0 < DecayWeights(n)[i]
    ensures 0 < n ==> DecayWeights(n)[n - 1] == Decay
  {
    forall i | 0 <= i < n
      ensures 0.0 < DecayWeights(n)[i]
    {
      PowPositive(n - i);
    }
    assert Pow(1) == Decay * Pow(0);
  }

  /** The weights strictly increase toward the most recent sample. */
  lemma DecayWeightsIncreasing(n: nat)
    ensures forall i, j :: 0 <= i < j < n ==> DecayWeights(n)[i] < DecayWeights(n)[j]
  {
    forall i, j | 0 <= i < j < n
      ensures DecayWeights(n)[i] < DecayWeights(n)[j]
    {
      PowStrictlyDecreasing(n - j, n - i);
    }
  }

  lemma {:induction false} SumPositive(ws: seq<real>)
    requires forall i :: 0 <= i < |ws| ==> 0.0 < ws[i]
    ensures 0.0 <= Sum(ws)
    ensures 0 < |ws| ==> 0.0 < Sum(ws)
  {
    if ws != [] {
      SumPositive(ws[1..]);
    }
  }

  /** A quotient whose numerator is at least lo times a positive denominator truncates to at least lo. */
  lemma TruncQuotientAtLeast(lo: int, d: real, s: real)
    requires 0.0 < s && lo as real * s <= d
    ensures lo <= Trunc(d / s)
  {
    assert d / s - lo as real == (d - lo as real * s) / s;
  }

  /** A quotient whose numerator is at most hi times a positive denominator truncates to at most hi. */
  lemma TruncQuotientAtMost(hi: int, d: real, s: real)
    requires 0.0 < s && d <= hi as real * s
    ensures Trunc(d / s) <= hi
  {
    assert hi as real - d / s == (hi as real * s - d) / s;
  }

  /**
   * The truncated weighted mean of the samples on one axis; with positive
   * weights it lies between the samples' smallest and largest coordinate.
   */
  function WeightedMean(ps: seq<Point>, ws: seq<real>, axis: Axis): (m: int)
    requires 0 < |ps| == |ws|
    requires forall i :: 0 <= i < |ws| ==> 0.0 < ws[i]
    ensures MinCoord(ps, axis) <= m <= MaxCoord(ps, axis)
  {
    MeanBetween(ps, ws, axis);
    Trunc(Dot(ps, ws, axis) / Sum(ws))
  }

  /** The weighted mean of positively weighted samples lies within their range. */
  lemma MeanBetween(ps: seq<Point>, ws: seq<real>, axis: Axis)
    requires 0 < |ps| == |ws|
    requires forall i :: 0 <= i < |ws| ==> 0.0 < ws[i]
    ensures 0.0 < Sum(ws)
    ensures MinCoord(ps, axis) <= Trunc(Dot(ps, ws, axis) / Sum(ws)) <= MaxCoord(ps, axis)
  {
    MeanAtLeast(ps, ws, axis, MinCoord(ps, axis));
    MeanAtMost(ps, ws, axis, MaxCoord(ps, axis));
  }

  /** Samples all at least lo have a truncated weighted mean of at least lo. */
  lemma MeanAtLeast(ps: seq<Point>, ws: seq<real>, axis: Axis, lo: int)
    requires 0 < |ps| == |ws|
    requires forall i :: 0 <= i < |ws| ==> 0.0 < ws[i]
    requires forall i :: 0 <= i < |ps| ==> lo <= Coord(ps[i], axis)
    ensures 0.0 < Sum(ws) && lo <= Trunc(Dot(ps, ws, axis) / Sum(ws))
  {
    SumPositive(ws);
    DotLower(ps, ws, axis, lo as real);
    TruncQuotientAtLeast(lo, Dot(ps, ws, axis), Sum(ws));
  }

  /** Samples all at most hi have a truncated weighted mean of at most hi. */
  lemma MeanAtMost(ps: seq<Point>, ws: seq<real>, axis: Axis, hi: int)
    requires 0 < |ps| == |ws|
    requires forall i :: 0 <= i < |ws| ==> 0.0 < ws[i]
    requires forall i :: 0 <= i < |ps| ==> Coord(ps[i], axis) <= hi
    ensures 0.0 < Sum(ws) && Trunc(Dot(ps, ws, axis) / Sum(ws)) <= hi
  {
    SumPositive(ws);
    DotUpper(ps, ws, axis, hi as real);
    TruncQuotientAtMost(hi, Dot(ps, ws, axis), Sum(ws));
  }

  /**
   * The smoothed position: the current position when there is no history,
   * otherwise the decay-weighted mean of history and current position,
   * truncated per axis. Each coordinate stays within the samples' range.
   */
  function Smoothed(prev: seq<Point>, position: Point): (r: Point)
    ensures prev == [] ==> r == position
    ensures forall axis :: MinCoord(prev + [position], axis) <= Coord(r, axis) <= MaxCoord(prev + [position], axis)
  {
    var ps := prev + [position];
    if prev == [] then
      assert ps == [position];
      position
    else
      DecayWeightsPositive(|ps|);
      var ws := DecayWeights(|ps|);
      Point(WeightedMean(ps, ws, X), WeightedMean(ps, ws, Y))
  }

  /** If every sample is the same point, smoothing returns that point. */
  lemma SmoothedConstant(prev: seq<Point>, position: Point)
    requires forall i :: 0 <= i < |prev| ==> prev[i] == position
    ensures Smoothed(prev, position) == position
  {
    var ps := prev + [position];
    var r := Smoothed(prev, position);
    assert forall i :: 0 <= i < |ps| ==> ps[i] == position;
    assert Coord(r, X) == position.x by {
      assert MinCoord(ps, X) == position.x && MaxCoord(ps, X) == position.x;
    }
    assert Coord(r, Y) == position.y by {
      assert MinCoord(ps, Y) == position.y && MaxCoord(ps, Y) == position.y;
    }
  }

  function SmoothedOf(s: PointerState): Point
  {
    Smoothed(s.prev, s.position)
  }

  /**
   * The first update of a fresh pointer to (100, 100) leaves (0, 0) in the
   * history, so the smoothed position is (58, 58), not (100, 100).
   */
  lemma FirstUpdateBiased(now: real)
    ensures Advance(Initial(), Point(100, 100), now).prev == [Point(0, 0)]
    ensures SmoothedOf(Advance(Initial(), Point(100, 100), now)) == Point(58, 58)
  {
    var s := Advance(Initial(), Point(100, 100), now);
    assert s.prev == [Point(0, 0)] && s.position == Point(100, 100);
    var ps := s.prev + [s.position];
    assert ps == [Point(0, 0), Point(100, 100)];
    assert Pow(1) == 0.7 && Pow(2) == 0.49;
    var ws := DecayWeights(2);
    assert ws == [0.49, 0.7];
    assert ps[1..] == [Point(100, 100)] && ws[1..] == [0.7];
    assert Sum(ws) == 1.19 by {
      assert Sum(ws[1..]) == 0.7 + Sum([]);
    }
    assert Dot(ps, ws, X) == 70.0 && Dot(ps, ws, Y) == 70.0 by {
      assert Dot(ps[1..], ws[1..], X) == 70.0 + Dot([], [], X);
      assert Dot(ps[1..], ws[1..], Y) == 70.0 + Dot([], [], Y);
    }
    assert 58.0 * 1.19 <= 70.0 < 59.0 * 1.19;
    assert 58.0 <= 70.0 / 1.19 < 59.0;
  }

  /**
   * However the pointer started, once it has been updated to the same point p
   * more than `HistorySize` times in a row its smoothed position is p.
   */
  lemma ConstantInputSettles(s: PointerState, u: seq<Update>, p: Point)
    requires |s.prev| <= HistorySize && HistorySize < |u|
    requires forall i :: 0 <= i < |u| ==> u[i].position == p
    ensures SmoothedOf(Feed(s, u)) == p
  {
    FeedWindow(s, u);
    var r := Feed(s, u);
    var t := Trail(s, u);
    var w := r.prev + [r.position];
    assert |r.prev| == HistorySize;
    assert w == Suffix(t, HistorySize + 1);
    forall i | 0 <= i < |w|
      ensures w[i] == p
    {
      assert w[i] == t[|t| - (HistorySize + 1) + i];
      assert t[|t| - (HistorySize + 1) + i] == Positions(u)[|u| - (HistorySize + 1) + i];
    }
    assert r.position == w[HistorySize];
    assert forall i :: 0 <= i < |r.prev| ==> r.prev[i] == w[i];
    SmoothedConstant(r.prev, r.position);
  }

  /** Speed in pixels per second. */
  function VelocityMagnitude(num: Numerics, s: PointerState): (m: real)
    requires Sound(num)
    ensures 0.0 <= m && m * m == s.velocity.x * s.velocity.x + s.velocity.y * s.velocity.y
  {
    var v := s.velocity;
    assert 0.0 <= v.x * v.x && 0.0 <= v.y * v.y;
    num.sqrt(v.x * v.x + v.y * v.y)
  }

  /** Whether the speed exceeds `threshold` (`DefaultMovingThreshold` unless given). */
  predicate IsMoving(num: Numerics, s: PointerState, threshold: real)
    requires Sound(num)
  {
    VelocityMagnitude(num, s) > threshold
  }

  /**
   * A nonnegative threshold is exceeded exactly when the squared speed
   * exceeds its square; a negative one always is.
   */
  lemma IsMovingIff(num: Numerics, s: PointerState, threshold: real)
    requires Sound(num)
    ensures 0.0 <= threshold ==>
      (IsMoving(num, s, threshold) <==>
        threshold * threshold < s.velocity.x * s.velocity.x + s.velocity.y * s.velocity.y)
    ensures threshold < 0.0 ==> IsMoving(num, s, threshold)
  {
    if 0.0 <= threshold {
      SquareLessIff(threshold, VelocityMagnitude(num, s));
    }
  }

  /**
   * At the default threshold of 100 pixels per second, a pointer is moving
   * exactly when its squared speed exceeds 10000.
   */
  lemma MovingAtDefaultThreshold(num: Numerics, s: PointerState)
    requires Sound(num)
    ensures IsMoving(num, s, DefaultMovingThreshold) <==>
      10000.0 < s.velocity.x * s.velocity.x + s.velocity.y * s.velocity.y
  {
    IsMovingIff(num, s, DefaultMovingThreshold);
  }

  /** A pointer that has never moved is not moving at any nonnegative threshold. */
  lemma AtRestNotMoving(num: Numerics, threshold: real)
    requires Sound(num) && 0.0 <= threshold
    ensures !IsMoving(num, Initial(), threshold)
  {
    IsMovingIff(num, Initial(), threshold);
    assert 0.0 <= threshold * threshold;
  }

  /** One fingertip tracked as a pointer. */
  class Pointer {
    const fingerName: string
    var position: Point
    var prevPositions: seq<Point>
    var isActive: bool
    var lastUpdateTime: real
    var velocity: Vec

    function State(): PointerState
      reads this
    {
      PointerState(position, prevPositions, lastUpdateTime, velocity)
    }

    ghost predicate Valid()
      reads this
    {
      |prevPositions| <= HistorySize
    }

    constructor (fingerName: string)
      ensures this.fingerName == fingerName
      ensures State() == Initial() && !isActive && Valid()
    {
      this.fingerName := fingerName;
      position := Point(0, 0);
      prevPositions := [];
      isActive := false;
      lastUpdateTime := 0.0;
      velocity := Vec(0.0, 0.0);
    }

    /** Records a new position observed at time `now`. */
    method UpdatePosition(p: Point, now: real)
      modifies this
      ensures State() == Advance(old(State()), p, now)
      ensures isActive == old(isActive)
      ensures old(Valid()) ==> Valid()
    {
      if 0.0 < lastUpdateTime {
        var dt := now - lastUpdateTime;
        if 0.0 < dt {
          var dx := p.x - position.x;
          var dy := p.y - position.y;
          velocity := Vec(dx as real / dt, dy as real / dt);
        }
      }
      lastUpdateTime := now;
      prevPositions := prevPositions + [position];
      if |prevPositions| > HistorySize {
        prevPositions := prevPositions[1..];
      }
      position := p;
    }
  }

  datatype Dims = Dims(width: int, height: int)

  /** A rectangle of the frame: top-left corner, width and height. */
  datatype Region = Region(x: int, y: int, width: int, height: int)

  /** Result of mapping a frame position to the screen. */
  datatype Mapped =
    | OnScreen(p: Point)
    | OutsideRegion
    /** A zero width or height as divisor: the mapping raises instead of returning. */
    | DivisionByZero

  predicate InRegion(p: Point, r: Region)
  {
    r.x <= p.x <= r.x + r.width && r.y <= p.y <= r.y + r.height
  }

  /** The five finger pointers plus the mapping and pinch state. */
  class PointerTracker {
    const fingers: map<string, Pointer>
    var primaryPointer: string
    var pointerActive: bool
    var screenDimensions: Dims
    var frameDimensions: Dims

    /** Each finger's pointer carries its own name, so distinct names never share a pointer. */
    ghost predicate Valid()
      reads this, fingers.Values
    {
      && fingers.Keys == FingerNames
      && primaryPointer in fingers
      && (forall n :: n in fingers ==> fingers[n].fingerName == n && fingers[n].Valid())
    }

    constructor ()
      ensures Valid()
      ensures forall n :: n in fingers ==> fresh(fingers[n]) && fingers[n].State() == Initial()
      ensures primaryPointer == "index" && !pointerActive
      ensures screenDimensions == Dims(1920, 1080) && frameDimensions == Dims(640, 480)
    {
      var thumb := new Pointer("thumb");
      var index := new Pointer("index");
      var middle := new Pointer("middle");
      var ring := new Pointer("ring");
      var pinky := new Pointer("pinky");
      fingers := map["thumb" := thumb, "index" := index, "middle" := middle, "ring" := ring, "pinky" := pinky];
      primaryPointer := "index";
      pointerActive := false;
      screenDimensions := Dims(1920, 1080);
      frameDimensions := Dims(640, 480);
    }

    /**
     * Feeds each detected fingertip to the pointer of the same name; names
     * that are not one of the five fingers are ignored.
     */
    method UpdateFromFingertips(fingertips: map<string, Point>, now: real)
      requires Valid()
      modifies fingers.Values
      ensures Valid()
      ensures forall n :: n in fingers ==>
        fingers[n].State() == if n in fingertips then Advance(old(fingers[n].State()), fingertips[n], now)
                              else old(fingers[n].State())
      ensures forall n :: n in fingers ==> fingers[n].isActive == old(fingers[n].isActive)
    {
      var todo := fingertips.Keys;
      while todo != {}
        invariant todo <= fingertips.Keys
        invariant Valid()
        invariant forall n :: n in fingers ==>
          fingers[n].State() == if n in fingertips && n !in todo then Advance(old(fingers[n].State()), fingertips[n], now)
                                else old(fingers[n].State())
        invariant forall n :: n in fingers ==> fingers[n].isActive == old(fingers[n].isActive)
        decreases todo
      {
        var name :| name in todo;
        if name in fingers {
          fingers[name].UpdatePosition(fingertips[name], now);
        }
        todo := todo - {name};
      }
    }

    /** Makes `name` the primary pointer if it is one of the five fingers. */
    method SetPrimaryPointer(name: string)
      requires Valid()
      modifies this
      ensures Valid()
      ensures primaryPointer == if name in fingers then name else old(primaryPointer)
      ensures pointerActive == old(pointerActive)
      ensures screenDimensions == old(screenDimensions) && frameDimensions == old(frameDimensions)
    {
      if name in fingers {
        primaryPointer := name;
      }
    }

    /** The smoothed position of the primary pointer. */
    function PrimaryPointerPosition(): (p: Point)
      requires Valid()
      reads this, fingers.Values
      ensures fingers[primaryPointer].prevPositions == [] ==> p == fingers[primaryPointer].position
      ensures forall axis ::
        MinCoord(fingers[primaryPointer].prevPositions + [fingers[primaryPointer].position], axis) <= Coord(p, axis)
        <= MaxCoord(fingers[primaryPointer].prevPositions + [fingers[primaryPointer].position], axis)
    {
      SmoothedOf(fingers[primaryPointer].State())
    }

    function IsPointerActive(): (active: bool)
      reads this
      ensures active == pointerActive
    {
      pointerActive
    }

    method SetPointerActive(active: bool)
      modifies this
      ensures pointerActive == active
      ensures primaryPointer == old(primaryPointer)
      ensures screenDimensions == old(screenDimensions) && frameDimensions == old(frameDimensions)
    {
      pointerActive := active;
    }

    /**
     * Maps a frame position to screen coordinates, from `region` when one is
     * given (positions outside it map to nothing) and from the whole frame
     * otherwise; a zero divisor is reported as `DivisionByZero`.
     */
    function MapToScreenCoordinates(position: Point, region: Option<Region>): (r: Mapped)
      reads this
      ensures region.Some? ==> (r == OutsideRegion <==> !InRegion(position, region.value))
      ensures region.None? ==> r != OutsideRegion
      ensures r == DivisionByZero <==>
        if region.Some? then InRegion(position, region.value) && (region.value.width == 0 || region.value.height == 0)
        else frameDimensions.width == 0 || frameDimensions.height == 0
      ensures region.Some? && r.OnScreen? && 0 <= screenDimensions.width && 0 <= screenDimensions.height ==>
        0 <= r.p.x <= screenDimensions.width && 0 <= r.p.y <= screenDimensions.height
    {
      var sw, sh := screenDimensions.width, screenDimensions.height;
      match region
      case Some(g) =>
        if !InRegion(position, g) then OutsideRegion
        else if g.width == 0 || g.height == 0 then DivisionByZero
        else OnScreen(Point(ScaleTo(position.x - g.x, g.width, sw), ScaleTo(position.y - g.y, g.height, sh)))
      case None =>
        var fw, fh := frameDimensions.width, frameDimensions.height;
        if fw == 0 || fh == 0 then DivisionByZero
        else OnScreen(Point(ScaleTo(position.x, fw, sw), ScaleTo(position.y, fh, sh)))
    }

    /** Sets the frame size, and the screen size when one is given. */
    method SetDimensions(frame: Dims, screen: Option<Dims>)
      modifies this
      ensures frameDimensions == frame
      ensures screenDimensions == if screen.Some? then screen.value else old(screenDimensions)
      ensures primaryPointer == old(primaryPointer) && pointerActive == old(pointerActive)
    {
      frameDimensions := frame;
      if screen.Some? {
        screenDimensions := screen.value;
      }
    }

    /**
     * A pinch: the raw thumb and index positions less than 50 pixels apart,
     * with confidence 1 - distance / 50.
     */
    function DetectPinch(num: Numerics): (r: map<string, real>)
      requires Sound(num) && Valid()
      reads this, fingers.Values
      ensures r.Keys <= {"pinch"}
      ensures "pinch" in r <==> Distance(num, fingers["thumb"].position, fingers["index"].position) < PinchThreshold
      ensures "pinch" in r ==>
        r["pinch"] == 1.0 - Distance(num, fingers["thumb"].position, fingers["index"].position) / PinchThreshold
      ensures "pinch" in r ==> 0.0 < r["pinch"] <= 1.0
    {
      var d := Distance(num, fingers["thumb"].position, fingers["index"].position);
      var c := ProximityConfidence(d, PinchThreshold);
      assert c.Some? ==> c.value == 1.0 - d / PinchThreshold;
      if c.Some? then map["pinch" := c.value] else map[]
    }
  }

  /**
   * `int(offset / extent * size)`: an offset along a frame extent carried
   * over to a screen extent of `size` pixels; offsets within the extent land
   * within the screen.
   */
  function ScaleTo(offset: int, extent: int, size: int): (r: int)
    requires extent != 0
    ensures 0 <= offset <= extent && 0 <= size ==> 0 <= r <= size
  {
    var t := offset as real / extent as real;
    if 0 <= offset <= extent then FractionInRegion(offset, extent); ScaleFraction(t, size)
    else ScaleFraction(t, size)
  }

  /** An offset within a region of positive extent is a fraction in [0, 1] of it. */
  lemma FractionInRegion(offset: int, extent: int)
    requires 0 <= offset <= extent && extent != 0
    ensures 0.0 <= offset as real / extent as real <= 1.0
  {
  }

  /**
   * Mapping from the region that covers the whole frame agrees with mapping
   * from the frame itself for every position inside the frame.
   */
  lemma FullFrameRegion(t: PointerTracker, position: Point)
    requires 0 < t.frameDimensions.width && 0 < t.frameDimensions.height
    requires 0 <= position.x <= t.frameDimensions.width && 0 <= position.y <= t.frameDimensions.height
    ensures t.MapToScreenCoordinates(position, Some(Region(0, 0, t.frameDimensions.width, t.frameDimensions.height)))
         == t.MapToScreenCoordinates(position, None)
  {
  }

  /** A pinch is detected exactly when the squared pixel gap is under 2500. */
  lemma PinchBySquares(num: Numerics, t: PointerTracker)
    requires Sound(num) && t.Valid()
    ensures "pinch" in t.DetectPinch(num) <==>
      SquaredDistance(t.fingers["thumb"].position, t.fingers["index"].position) < 2500
  {
    DistanceBelowIff(num, t.fingers["thumb"].position, t.fingers["index"].position, PinchThreshold);
  }
}
