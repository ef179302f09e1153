/**
 * Hand landmarks to named pixel points: the fixed table from point names to
 * the 21 hand landmarks (with alias names kept for the gesture classifiers),
 * the conversion of normalised landmark coordinates to pixels, and the
 * padded, frame-clamped bounding box drawn around a hand.
 */
module HandTracking {
  import opened RealMath
  import opened Geometry

  /** A landmark in normalised image coordinates (0..1 across the frame). */
  datatype Landmark = Landmark(x: real, y: real)

  /** Number of landmarks the hand model reports. */
  const LandmarkCount: nat := 21
  /** Pixels added on every side of the hand's bounding box. */
  const Padding: int := 20

  /** The point-name table: names to landmark indices, aliases included. */
  function LandmarkIds(): (ids: map<string, nat>)
    ensures forall n :: n in ids ==> ids[n] < LandmarkCount
    ensures "thumb" in ids && "index" in ids && "middle" in ids && "ring" in ids && "pinky" in ids
    ensures "avg_index" in ids && "avg_middle" in ids && "avg_ring" in ids && "avg_pinky" in ids
    ensures "bottom_index" in ids && "bottom_middle" in ids && "bottom_ring" in ids && "bottom_pinky" in ids
  {
    map[
      "thumb" := 4, "index" := 8, "middle" := 12, "ring" := 16, "pinky" := 20,
      "dip_thumb" := 3, "dip_index" := 7, "dip_middle" := 11, "dip_ring" := 15, "dip_pinky" := 19,
      "pip_thumb" := 2, "pip_index" := 6, "pip_middle" := 10, "pip_ring" := 14, "pip_pinky" := 18,
      "mcp_thumb" := 1, "mcp_index" := 5, "mcp_middle" := 9, "mcp_ring" := 13, "mcp_pinky" := 17,
      "wrist" := 0, "palm_center" := 9,
      "avg_index" := 6, "avg_middle" := 10, "avg_ring" := 14, "avg_pinky" := 18,
      "bottom_index" := 5, "bottom_middle" := 9, "bottom_ring" := 13, "bottom_pinky" := 17
    ]
  }

  /** Each `avg_` name is an alias of the finger's PIP joint. */
  lemma PipAliases()
    ensures var ids := LandmarkIds();
      && "pip_index" in ids && ids["avg_index"] == ids["pip_index"]
      && "pip_middle" in ids && ids["avg_middle"] == ids["pip_middle"]
      && "pip_ring" in ids && ids["avg_ring"] == ids["pip_ring"]
      && "pip_pinky" in ids && ids["avg_pinky"] == ids["pip_pinky"]
  {
  }

  /** Each `bottom_` name is an alias of the finger's MCP joint, and `palm_center` of the middle MCP. */
  lemma McpAliases()
    ensures var ids := LandmarkIds();
      && "mcp_index" in ids && ids["bottom_index"] == ids["mcp_index"]
      && "mcp_middle" in ids && ids["bottom_middle"] == ids["mcp_middle"]
      && "mcp_ring" in ids && ids["bottom_ring"] == ids["mcp_ring"]
      && "mcp_pinky" in ids && ids["bottom_pinky"] == ids["mcp_pinky"]
      && "palm_center" in ids && ids["palm_center"] == ids["mcp_middle"]
  {
  }

  /**
   * A normalised landmark in pixels of a w x h frame, each coordinate
   * truncated toward zero; a landmark inside the frame lands on a pixel
   * inside the frame.
   */
  function ToPixel(l: Landmark, w: int, h: int): (p: Point)
    ensures 0.0 <= l.x <= 1.0 && 0 <= w ==> 0 <= p.x <= w
    ensures 0.0 <= l.y <= 1.0 && 0 <= h ==> 0 <= p.y <= h
  {
    Point(ScaleFraction(l.x, w), ScaleFraction(l.y, h))
  }

  /** Each name of `ids` at the pixel of its landmark. */
  function NamedPixels(ids: map<string, nat>, landmarks: seq<Landmark>, w: int, h: int): (r: map<string, Point>)
    requires forall n :: n in ids ==> ids[n] < |landmarks|
    ensures r.Keys == ids.Keys
    ensures forall n :: n in r ==> var l := landmarks[ids[n]];
      0.0 <= l.x <= 1.0 && 0.0 <= l.y <= 1.0 && 0 <= w && 0 <= h ==> 0 <= r[n].x <= w && 0 <= r[n].y <= h
  {
    map n | n in ids :: ToPixel(landmarks[ids[n]], w, h)
  }

  /** Every named point in pixels. */
  function Fingertips(landmarks: seq<Landmark>, w: int, h: int): (r: map<string, Point>)
    requires |landmarks| >= LandmarkCount
    ensures r.Keys == LandmarkIds().Keys
    ensures "thumb" in r && "index" in r && "middle" in r && "ring" in r && "pinky" in r
  {
    NamedPixels(LandmarkIds(), landmarks, w, h)
  }

  /** Alias names read the same landmark, so they always carry the same point. */
  lemma AliasesAgree(landmarks: seq<Landmark>, w: int, h: int)
    requires |landmarks| >= LandmarkCount
    ensures var f := Fingertips(landmarks, w, h);
      && "avg_index" in f && "pip_index" in f && f["avg_index"] == f["pip_index"]
      && "avg_middle" in f && "pip_middle" in f && f["avg_middle"] == f["pip_middle"]
      && "avg_ring" in f && "pip_ring" in f && f["avg_ring"] == f["pip_ring"]
      && "avg_pinky" in f && "pip_pinky" in f && f["avg_pinky"] == f["pip_pinky"]
      && "bottom_index" in f && "mcp_index" in f && f["bottom_index"] == f["mcp_index"]
      && "bottom_middle" in f && "mcp_middle" in f && f["bottom_middle"] == f["mcp_middle"]
      && "bottom_ring" in f && "mcp_ring" in f && f["bottom_ring"] == f["mcp_ring"]
      && "bottom_pinky" in f && "mcp_pinky" in f && f["bottom_pinky"] == f["mcp_pinky"]
      && "palm_center" in f && f["palm_center"] == f["mcp_middle"]
  {
    PipAliases();
    McpAliases();
  }

  /**
   * Builds the name-to-pixel map; the result has exactly the table's names,
   * each at the truncated pixel of its landmark.
   */
  method GetFingertips(landmarks: seq<Landmark>, w: int, h: int) returns (positions: map<string, Point>)
    requires |landmarks| >= LandmarkCount
    ensures positions.Keys == LandmarkIds().Keys
    ensures forall n :: n in positions ==> positions[n] == ToPixel(landmarks[LandmarkIds()[n]], w, h)
    ensures positions == Fingertips(landmarks, w, h)
  {
    positions := FillPositions(LandmarkIds(), landmarks, w, h);
  }

  /** The loop of `GetFingertips`: one entry per table name, in any order. */
  method FillPositions(ids: map<string, nat>, landmarks: seq<Landmark>, w: int, h: int)
    returns (positions: map<string, Point>)
    requires forall n :: n in ids ==> ids[n] < |landmarks|
    ensures positions.Keys == ids.Keys
    ensures forall n :: n in positions ==> positions[n] == ToPixel(landmarks[ids[n]], w, h)
    ensures positions == NamedPixels(ids, landmarks, w, h)
  {
    positions := map[];
    var todo := ids.Keys;
    while todo != {}
      invariant todo <= ids.Keys
      invariant positions.Keys == ids.Keys - todo
      invariant forall n :: n in positions ==> positions[n] == ToPixel(landmarks[ids[n]], w, h)
      decreases todo
    {
      var name :| name in todo;
      var landmark := landmarks[ids[name]];
      positions := positions[name := ToPixel(landmark, w, h)];
      todo := todo - {name};
    }
  }

  /** An axis-aligned pixel rectangle. */
  datatype Box = Box(xMin: int, yMin: int, xMax: int, yMax: int)

  predicate Contains(b: Box, p: Point)
  {
    b.xMin <= p.x <= b.xMax && b.yMin <= p.y <= b.yMax
  }

  /**
   * The bounding box of the landmarks' pixels, starting from the empty box
   * (w, h) - (0, 0): every landmark lies inside it, and each side is either
   * its starting value or the coordinate of some landmark.
   */
  method HandExtent(landmarks: seq<Landmark>, w: int, h: int) returns (b: Box)
    ensures forall i :: 0 <= i < |landmarks| ==> Contains(b, ToPixel(landmarks[i], w, h))
    ensures b.xMin <= w && b.yMin <= h && 0 <= b.xMax && 0 <= b.yMax
    ensures b.xMin == w || exists i :: 0 <= i < |landmarks| && b.xMin == ToPixel(landmarks[i], w, h).x
    ensures b.xMax == 0 || exists i :: 0 <= i < |landmarks| && b.xMax == ToPixel(landmarks[i], w, h).x
    ensures b.yMin == h || exists i :: 0 <= i < |landmarks| && b.yMin == ToPixel(landmarks[i], w, h).y
    ensures b.yMax == 0 || exists i :: 0 <= i < |landmarks| && b.yMax == ToPixel(landmarks[i], w, h).y
  {
    var xMin, xMax, yMin, yMax := w, 0, h, 0;
    var k := 0;
    while k < |landmarks|
      invariant 0 <= k <= |landmarks|
      invariant forall i :: 0 <= i < k ==> Contains(Box(xMin, yMin, xMax, yMax), ToPixel(landmarks[i], w, h))
      invariant xMin <= w && yMin <= h && 0 <= xMax && 0 <= yMax
      invariant xMin == w || exists i :: 0 <= i < k && xMin == ToPixel(landmarks[i], w, h).x
      invariant xMax == 0 || exists i :: 0 <= i < k && xMax == ToPixel(landmarks[i], w, h).x
      invariant yMin == h || exists i :: 0 <= i < k && yMin == ToPixel(landmarks[i], w, h).y
      invariant yMax == 0 || exists i :: 0 <= i < k && yMax == ToPixel(landmarks[i], w, h).y
    {
      var p := ToPixel(landmarks[k], w, h);
      if p.x < xMin { xMin := p.x; }
      if p.x > xMax { xMax := p.x; }
      if p.y < yMin { yMin := p.y; }
      if p.y > yMax { yMax := p.y; }
      k := k + 1;
    }
    b := Box(xMin, yMin, xMax, yMax);
  }

  /**
   * Widens a box by `Padding` on every side and clamps it to the w x h
   * frame; it never shrinks a box that lies within the frame.
   */
  function Padded(b: Box, w: int, h: int): (r: Box)
    ensures 0 <= r.xMin && 0 <= r.yMin && r.xMax <= w && r.yMax <= h
    ensures r.xMin <= Max(0, b.xMin) && r.yMin <= Max(0, b.yMin)
    ensures b.xMax <= w ==> b.xMax <= r.xMax
    ensures b.yMax <= h ==> b.yMax <= r.yMax
    ensures r.xMin == 0 || r.xMin == b.xMin - Padding
    ensures r.xMax == w || r.xMax == b.xMax + Padding
    ensures r.yMin == 0 || r.yMin == b.yMin - Padding
    ensures r.yMax == h || r.yMax == b.yMax + Padding
  {
    Box(Max(0, b.xMin - Padding), Max(0, b.yMin - Padding), Min(w, b.xMax + Padding), Min(h, b.yMax + Padding))
  }

  /**
   * The highlight rectangle of a hand: the padded landmark box, clamped to
   * the frame, still containing every landmark that lies within the frame.
   */
  method HighlightBox(landmarks: seq<Landmark>, w: int, h: int) returns (b: Box)
    ensures 0 <= b.xMin && 0 <= b.yMin && b.xMax <= w && b.yMax <= h
    ensures forall i :: 0 <= i < |landmarks| ==>
      var p := ToPixel(landmarks[i], w, h);
      (0 <= p.x <= w && 0 <= p.y <= h ==> Contains(b, p))
  {
    var extent := HandExtent(landmarks, w, h);
    b := Padded(extent, w, h);
  }
}
