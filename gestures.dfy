/**
 * The three gesture classifiers of `GestureDetector` and the aggregation of
 * their results into one gesture map per frame.
 *
 * A classifier reads named pixel positions of one hand plus the palm size and
 * yields either an empty map or a one-entry map from its gesture name to a
 * confidence. Thresholds are fractions of the palm size, so detection does not
 * depend on how far the hand is from the camera.
 */
module Gestures {
  import opened Wrappers
  import opened RealMath
  import opened Geometry

  /** Named landmark positions of one hand in one frame ('thumb', 'avg_index', ...). */
  type PointMap = map<string, Point>

  /** Gesture name to confidence. */
  type GestureMap = map<string, real>

  const LeftClickThreshold: real := 0.2244444444
  const RightClickThreshold: real := 0.2244444444
  const MoveThreshold: real := 0.2877777778

  /** Largest slope difference (radians) for which two finger segments count as parallel. */
  const ParallelTolerance: real := 0.25

  /** A segment whose |dx| is at most this is treated as vertical. */
  const VerticalTolerance: real := 0.001

  const GestureNames: set<string> := {"left_click", "right_click", "move"}

  /** The six points `move_gesture` is configured to require. */
  predicate HasMoveFingers(fp: PointMap)
  {
    && "index" in fp && "middle" in fp && "avg_middle" in fp
    && "bottom_middle" in fp && "avg_index" in fp && "bottom_index" in fp
  }

  /** The one-entry result `{name: confidence}`, or `{}` when there is no confidence. */
  function Entry(name: string, c: Option<real>): (r: GestureMap)
    ensures r.Keys == if c.Some? then {name} else {}
    ensures c.Some? ==> r[name] == c.value
  {
    if c.Some? then map[name := c.value] else map[]
  }

  /**
   * The shape shared by `left_click` and `right_click`: fingertips `a` and `b`
   * must both be present, and their distance must be under
   * `threshold * palmSize`.
   */
  function TipProximity(num: Numerics, fp: PointMap, a: string, b: string, gesture: string,
                        threshold: real, palmSize: real): (r: GestureMap)
    requires Sound(num)
    ensures r.Keys <= {gesture}
    ensures gesture in r <==>
      a in fp && b in fp && Distance(num, fp[a], fp[b]) < threshold * palmSize
    ensures gesture in r ==>
      r[gesture] == 1.0 - Distance(num, fp[a], fp[b]) / (threshold * palmSize)
    ensures gesture in r ==> 0.0 < r[gesture] <= 1.0 && (r[gesture] == 1.0 <==> fp[a] == fp[b])
  {
    if a in fp && b in fp then
      Entry(gesture, ProximityConfidence(Distance(num, fp[a], fp[b]), threshold * palmSize))
    else
      map[]
  }

  /** Thumb and index fingertips pinched together. */
  function LeftClick(num: Numerics, fp: PointMap, palmSize: real): (r: GestureMap)
    requires Sound(num)
    ensures r.Keys <= {"left_click"}
    ensures "thumb" !in fp || "index" !in fp ==> r == map[]
    ensures "left_click" in r <==>
      "thumb" in fp && "index" in fp
      && Distance(num, fp["thumb"], fp["index"]) < LeftClickThreshold * palmSize
    ensures "left_click" in r ==>
      r["left_click"] == 1.0 - Distance(num, fp["thumb"], fp["index"]) / (LeftClickThreshold * palmSize)
    ensures "left_click" in r ==>
      0.0 < r["left_click"] <= 1.0 && (r["left_click"] == 1.0 <==> fp["thumb"] == fp["index"])
  {
    TipProximity(num, fp, "thumb", "index", "left_click", LeftClickThreshold, palmSize)
  }

  /** Thumb and middle fingertips pinched together. */
  function RightClick(num: Numerics, fp: PointMap, palmSize: real): (r: GestureMap)
    requires Sound(num)
    ensures r.Keys <= {"right_click"}
    ensures "thumb" !in fp || "middle" !in fp ==> r == map[]
    ensures "right_click" in r <==>
      "thumb" in fp && "middle" in fp
      && Distance(num, fp["thumb"], fp["middle"]) < RightClickThreshold * palmSize
    ensures "right_click" in r ==>
      r["right_click"] == 1.0 - Distance(num, fp["thumb"], fp["middle"]) / (RightClickThreshold * palmSize)
    ensures "right_click" in r ==>
      0.0 < r["right_click"] <= 1.0 && (r["right_click"] == 1.0 <==> fp["thumb"] == fp["middle"])
  {
    TipProximity(num, fp, "thumb", "middle", "right_click", RightClickThreshold, palmSize)
  }

  /** Every pixel position multiplied by k: the same hand seen k times larger. */
  function ScaleMap(fp: PointMap, k: int): (r: PointMap)
    ensures r.Keys == fp.Keys
    ensures forall n :: n in r ==> r[n] == Scale(fp[n], k)
  {
    map n | n in fp :: Scale(fp[n], k)
  }

  /**
   * Scaling every point and the palm size by the same k >= 1 leaves a
   * fingertip-proximity result unchanged, confidence included.
   */
  lemma TipProximityScaleInvariant(num: Numerics, fp: PointMap, a: string, b: string, gesture: string,
                                   threshold: real, palmSize: real, k: int)
    requires Sound(num) && 1 <= k
    ensures TipProximity(num, ScaleMap(fp, k), a, b, gesture, threshold, k as real * palmSize)
         == TipProximity(num, fp, a, b, gesture, threshold, palmSize)
  {
    var sfp := ScaleMap(fp, k);
    if a in fp && b in fp {
      assert sfp[a] == Scale(fp[a], k) && sfp[b] == Scale(fp[b], k);
      PairConfidenceScaleInvariant(num, fp[a], fp[b], threshold, palmSize, k);
    } else {
      assert !(a in sfp && b in sfp);
    }
  }

  /** The confidence for one pair of points, scaled together with the palm size. */
  lemma PairConfidenceScaleInvariant(num: Numerics, p: Point, q: Point, threshold: real, palmSize: real, k: int)
    requires Sound(num) && 1 <= k
    ensures ProximityConfidence(Distance(num, Scale(p, k), Scale(q, k)), threshold * (k as real * palmSize))
         == ProximityConfidence(Distance(num, p, q), threshold * palmSize)
  {
    var kr := k as real;
    var d, limit := Distance(num, p, q), threshold * palmSize;
    DistanceScale(num, p, q, k);
    var sd, slimit := Distance(num, Scale(p, k), Scale(q, k)), threshold * (kr * palmSize);
    assert sd == kr * d;
    assert slimit == kr * limit;
    ConfidenceScaleInvariant(d, limit, kr);
    assert ProximityConfidence(kr * d, kr * limit) == ProximityConfidence(d, limit);
    assert ProximityConfidence(sd, slimit) == ProximityConfidence(kr * d, kr * limit);
    assert ProximityConfidence(sd, slimit) == ProximityConfidence(d, limit);
    assert sd == Distance(num, Scale(p, k), Scale(q, k));
    assert slimit == threshold * (k as real * palmSize);
  }

  /** `left_click` does not depend on the hand's distance to the camera. */
  lemma LeftClickScaleInvariant(num: Numerics, fp: PointMap, palmSize: real, k: int)
    requires Sound(num) && 1 <= k
    ensures LeftClick(num, ScaleMap(fp, k), k as real * palmSize) == LeftClick(num, fp, palmSize)
  {
    TipProximityScaleInvariant(num, fp, "thumb", "index", "left_click", LeftClickThreshold, palmSize, k);
  }

  /** `right_click` does not depend on the hand's distance to the camera. */
  lemma RightClickScaleInvariant(num: Numerics, fp: PointMap, palmSize: real, k: int)
    requires Sound(num) && 1 <= k
    ensures RightClick(num, ScaleMap(fp, k), k as real * palmSize) == RightClick(num, fp, palmSize)
  {
    TipProximityScaleInvariant(num, fp, "thumb", "middle", "right_click", RightClickThreshold, palmSize, k);
  }

  /**
   * Detection needs no square root: `left_click` fires exactly when both
   * points are present, the palm size is positive and the squared pixel
   * distance is below the squared threshold.
   */
  lemma LeftClickBySquares(num: Numerics, fp: PointMap, palmSize: real)
    requires Sound(num)
    ensures "left_click" in LeftClick(num, fp, palmSize) <==>
      "thumb" in fp && "index" in fp && 0.0 < palmSize
      && (SquaredDistance(fp["thumb"], fp["index"]) as real)
         < (LeftClickThreshold * palmSize) * (LeftClickThreshold * palmSize)
  {
    if "thumb" in fp && "index" in fp && 0.0 < palmSize {
      DistanceBelowIff(num, fp["thumb"], fp["index"], LeftClickThreshold * palmSize);
    }
  }

  /** The `right_click` counterpart of `LeftClickBySquares`. */
  lemma RightClickBySquares(num: Numerics, fp: PointMap, palmSize: real)
    requires Sound(num)
    ensures "right_click" in RightClick(num, fp, palmSize) <==>
      "thumb" in fp && "middle" in fp && 0.0 < palmSize
      && (SquaredDistance(fp["thumb"], fp["middle"]) as real)
         < (RightClickThreshold * palmSize) * (RightClickThreshold * palmSize)
  {
    if "thumb" in fp && "middle" in fp && 0.0 < palmSize {
      DistanceBelowIff(num, fp["thumb"], fp["middle"], RightClickThreshold * palmSize);
    }
  }

  /** For the same palm size, a wider thumb-index gap gives a strictly lower confidence. */
  lemma LeftClickDecreasing(num: Numerics, fp1: PointMap, fp2: PointMap, palmSize: real)
    requires Sound(num)
    requires "left_click" in LeftClick(num, fp1, palmSize) && "left_click" in LeftClick(num, fp2, palmSize)
    requires Distance(num, fp1["thumb"], fp1["index"]) < Distance(num, fp2["thumb"], fp2["index"])
    ensures LeftClick(num, fp1, palmSize)["left_click"] > LeftClick(num, fp2, palmSize)["left_click"]
  {
    ConfidenceDecreasing(Distance(num, fp1["thumb"], fp1["index"]),
                         Distance(num, fp2["thumb"], fp2["index"]),
                         LeftClickThreshold * palmSize);
  }

  /**
   * Thumb at (100, 100), index tip at (105, 102), palm size 100: the gap is
   * sqrt(29) ~ 5.385 pixels against a threshold of ~22.44, so `left_click`
   * fires with a confidence of about 0.76.
   */
  lemma LeftClickExample(num: Numerics)
    requires Sound(num)
    ensures var fp := map["thumb" := Point(100, 100), "index" := Point(105, 102)];
            var r := LeftClick(num, fp, 100.0);
            "left_click" in r && 0.759 < r["left_click"] < 0.761
  {
    var fp := map["thumb" := Point(100, 100), "index" := Point(105, 102)];
    var d := Distance(num, fp["thumb"], fp["index"]);
    assert SquaredDistance(fp["thumb"], fp["index"]) == 29;
    assert d * d == 29.0;
    SquareLessIff(5.38, d);
    SquareLessIff(d, 5.39);
    assert 5.38 < d < 5.39;
    var limit := LeftClickThreshold * 100.0;
    assert limit == 22.44444444;
    assert d < limit;
    assert 0.759 < 1.0 - d / limit < 0.761;
  }

  /**
   * The angle of the segment from `p` to `q` against the horizontal, folded
   * into the first quadrant; a (nearly) vertical segment gets exactly Pi/2.
   */
  function Slope(num: Numerics, p: Point, q: Point): (angle: real)
    requires Sound(num)
    ensures 0.0 <= angle <= HalfPiAbove
    ensures Abs((p.x - q.x) as real) <= VerticalTolerance ==> angle == Pi / 2.0
  {
    var dx, dy := (p.x - q.x) as real, (p.y - q.y) as real;
    if Abs(dx) > VerticalTolerance then num.arctan2(Abs(dy), Abs(dx)) else Pi / 2.0
  }

  /** Slope difference of the index and middle fingers' top segments (tip to PIP). */
  function TopSlopeGap(num: Numerics, fp: PointMap): real
    requires Sound(num) && HasMoveFingers(fp)
  {
    Abs(Slope(num, fp["index"], fp["avg_index"]) - Slope(num, fp["middle"], fp["avg_middle"]))
  }

  /** Slope difference of the index and middle fingers' bottom segments (MCP to PIP). */
  function BottomSlopeGap(num: Numerics, fp: PointMap): real
    requires Sound(num) && HasMoveFingers(fp)
  {
    Abs(Slope(num, fp["bottom_index"], fp["avg_index"]) - Slope(num, fp["bottom_middle"], fp["avg_middle"]))
  }

  /** `(int((a.x + b.x) / 2), int((a.y + b.y) / 2))`: true division, then truncation. */
  function MidPoint(a: Point, b: Point): (m: Point)
    ensures Min(a.x, b.x) <= m.x <= Max(a.x, b.x)
    ensures Min(a.y, b.y) <= m.y <= Max(a.y, b.y)
  {
    var mx, my := (a.x + b.x) as real / 2.0, (a.y + b.y) as real / 2.0;
    TruncBetween(mx, Min(a.x, b.x), Max(a.x, b.x));
    TruncBetween(my, Min(a.y, b.y), Max(a.y, b.y));
    Point(Trunc(mx), Trunc(my))
  }

  /** Distance from the index tip to the truncated midpoint of the middle finger's tip and PIP. */
  function MoveDistance(num: Numerics, fp: PointMap): (d: real)
    requires Sound(num) && HasMoveFingers(fp)
    ensures 0.0 <= d
  {
    Distance(num, fp["index"], MidPoint(fp["middle"], fp["avg_middle"]))
  }

  /** Both segment pairs of the index and middle fingers are within the tolerance. */
  predicate FingersParallel(num: Numerics, fp: PointMap)
    requires Sound(num) && HasMoveFingers(fp)
  {
    TopSlopeGap(num, fp) <= ParallelTolerance && BottomSlopeGap(num, fp) <= ParallelTolerance
  }

  /** Index and middle fingers held together and parallel. */
  function MoveGesture(num: Numerics, fp: PointMap, palmSize: real): (r: GestureMap)
    requires Sound(num)
    ensures r.Keys <= {"move"}
    ensures !HasMoveFingers(fp) ==> r == map[]
    ensures HasMoveFingers(fp)
            && (TopSlopeGap(num, fp) > ParallelTolerance || BottomSlopeGap(num, fp) > ParallelTolerance)
            ==> r == map[]
    ensures "move" in r <==>
      HasMoveFingers(fp) && FingersParallel(num, fp)
      && MoveDistance(num, fp) < MoveThreshold * palmSize
    ensures "move" in r ==> r["move"] == 1.0 - MoveDistance(num, fp) / (MoveThreshold * palmSize)
    ensures "move" in r ==> 0.0 < r["move"] <= 1.0
  {
    if !HasMoveFingers(fp) then
      map[]
    else if !FingersParallel(num, fp) then
      map[]
    else
      Entry("move", MoveConfidence(num, fp, palmSize))
  }

  /** The distance test and confidence of `move` once its points are present. */
  function MoveConfidence(num: Numerics, fp: PointMap, palmSize: real): (c: Option<real>)
    requires Sound(num) && HasMoveFingers(fp)
    ensures c.Some? <==> MoveDistance(num, fp) < MoveThreshold * palmSize
    ensures c.Some? ==> c.value == 1.0 - MoveDistance(num, fp) / (MoveThreshold * palmSize)
    ensures c.Some? ==> 0.0 < c.value <= 1.0
  {
    var d, limit := MoveDistance(num, fp), MoveThreshold * palmSize;
    var c := ProximityConfidence(d, limit);
    assert c.Some? ==> c.value == 1.0 - d / limit;
    c
  }

  /** The three classifier results of one frame, in submission order. */
  function ClassifierResults(num: Numerics, fp: PointMap, palmSize: real): (rs: seq<GestureMap>)
    requires Sound(num)
    ensures |rs| == 3
  {
    [LeftClick(num, fp, palmSize), RightClick(num, fp, palmSize), MoveGesture(num, fp, palmSize)]
  }

  /** `gestures.update(result)` for each result in turn, starting from `{}`. */
  function MergeAll(rs: seq<GestureMap>): GestureMap
  {
    if rs == [] then map[] else MergeAll(rs[..|rs| - 1]) + rs[|rs| - 1]
  }

  /**
   * The merged map holds exactly the names of all results, each with its
   * value from the last result that holds it.
   */
  lemma {:induction false} MergeAllLastWins(rs: seq<GestureMap>, k: string)
    ensures k in MergeAll(rs) <==> exists i :: 0 <= i < |rs| && k in rs[i]
    ensures k in MergeAll(rs) ==>
      exists i :: 0 <= i < |rs| && k in rs[i] && MergeAll(rs)[k] == rs[i][k] && forall j :: i < j < |rs| ==> k !in rs[j]
  {
    if rs != [] {
      var n := |rs|;
      var init := rs[..n - 1];
      MergeAllLastWins(init, k);
      if k in rs[n - 1] {
        assert MergeAll(rs)[k] == rs[n - 1][k];
      } else if k in MergeAll(init) {
        var i :| 0 <= i < |init| && k in init[i] && MergeAll(init)[k] == init[i][k]
                 && forall j :: i < j < |init| ==> k !in init[j];
        assert rs[i] == init[i];
        assert forall j :: i < j < n ==> k !in rs[j] by {
          forall j | i < j < n ensures k !in rs[j] {
            if j < n - 1 {
              assert rs[j] == init[j];
            }
          }
        }
      } else {
        forall i | 0 <= i < n ensures k !in rs[i] {
          if i < n - 1 {
            assert rs[i] == init[i];
          }
        }
      }
    }
  }

  /**
   * The gesture map of one frame: `{}` for an empty point map, otherwise the
   * merge of the three classifier results.
   */
  function Detect(num: Numerics, fp: PointMap, palmSize: real): (r: GestureMap)
    requires Sound(num)
    ensures fp == map[] ==> r == map[]
    ensures r.Keys <= GestureNames
    ensures forall g :: g in r ==> 0.0 < r[g] <= 1.0
    ensures r == LeftClick(num, fp, palmSize) + RightClick(num, fp, palmSize) + MoveGesture(num, fp, palmSize)
  {
    if fp == map[] then
      map[]
    else
      var rs := ClassifierResults(num, fp, palmSize);
      MergeThree(rs[0], rs[1], rs[2]);
      MergeAll(rs)
  }

  /**
   * The classifiers' results reach the merge in completion order, which is
   * not fixed. Their key sets are disjoint, so every order of completion
   * gives the same gesture map.
   */
  lemma CompletionOrderIrrelevant(num: Numerics, fp: PointMap, palmSize: real, order: seq<nat>)
    requires Sound(num) && fp != map[]
    requires |order| == 3 && order[0] < 3 && order[1] < 3 && order[2] < 3
    requires order[0] != order[1] && order[0] != order[2] && order[1] != order[2]
    ensures var rs := ClassifierResults(num, fp, palmSize);
            MergeAll([rs[order[0]], rs[order[1]], rs[order[2]]]) == Detect(num, fp, palmSize)
  {
    var rs := ClassifierResults(num, fp, palmSize);
    var l, r, m := rs[0], rs[1], rs[2];
    MergeThree(rs[order[0]], rs[order[1]], rs[order[2]]);
    MergeThree(l, r, m);
    assert l.Keys !! r.Keys && l.Keys !! m.Keys && r.Keys !! m.Keys;
    if order[0] == 0 {
      if order[1] == 2 { SwapLastTwo(l, r, m); }
    } else if order[0] == 1 {
      if order[1] == 0 {
        SwapFirstTwo(l, r, m);
      } else {
        SwapFirstTwo(l, r, m);
        SwapLastTwo(r, l, m);
        SwapFirstTwo(r, m, l);
      }
    } else {
      if order[1] == 0 {
        SwapLastTwo(l, r, m);
        SwapFirstTwo(l, m, r);
      } else {
        SwapFirstTwo(l, r, m);
        SwapLastTwo(r, l, m);
        SwapFirstTwo(r, m, l);
        SwapLastTwo(m, r, l);
      }
    }
  }

  lemma SwapFirstTwo(a: GestureMap, b: GestureMap, c: GestureMap)
    requires a.Keys !! b.Keys
    ensures a + b + c == b + a + c
  {
    assert a + b == b + a;
  }

  lemma SwapLastTwo(a: GestureMap, b: GestureMap, c: GestureMap)
    requires b.Keys !! c.Keys
    ensures a + b + c == a + c + b
  {
  }

  lemma MergeThree(a: GestureMap, b: GestureMap, c: GestureMap)
    ensures MergeAll([a, b, c]) == a + b + c
  {
    var rs := [a, b, c];
    assert rs[..2] == [a, b] && [a, b][..1] == [a] && [a][..0] == [];
    assert MergeAll([a]) == map[] + a;
    assert map[] + a == a;
    assert MergeAll([a, b]) == a + b;
  }

  /** `GestureDetector`: the classifiers plus the cache of the last gesture map. */
  class GestureDetector {
    var lastGestures: GestureMap

    constructor ()
      ensures lastGestures == map[]
    {
      lastGestures := map[];
    }

    /**
     * Runs the three classifiers and merges their results one by one. An
     * empty point map returns `{}` at once and leaves the cache untouched.
     */
    method DetectGestures(num: Numerics, fingerPositions: PointMap, palmSize: real)
      returns (gestures: GestureMap)
      requires Sound(num)
      modifies this
      ensures gestures == Detect(num, fingerPositions, palmSize)
      ensures lastGestures == if fingerPositions == map[] then old(lastGestures) else gestures
    {
      if fingerPositions == map[] {
        return map[];
      }
      var results := ClassifierResults(num, fingerPositions, palmSize);
      gestures := map[];
      var i := 0;
      while i < |results|
        invariant 0 <= i <= |results|
        invariant gestures == MergeAll(results[..i])
      {
        assert results[..i + 1][..i] == results[..i];
        gestures := gestures + results[i];
        i := i + 1;
      }
      assert results[..i] == results;
      lastGestures := gestures;
    }
  }
}
