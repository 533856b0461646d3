/** Second stage of the pipeline (eyes-output.py, `add_double_eyelid_lines`): from the contours
    of a binarised eye mask, synthesise shallow parabolic "double eyelid" curves above each eye,
    draw them onto the face image and return their points.

    Contour extraction (`cv2.findContours`) is a parameter; anti-aliased line drawing
    (`cv2.line`) is recorded as a log of strokes on the image. */
module Eyelid {
  import opened Geometry

  /** The keyword arguments of `add_double_eyelid_lines`. */
  datatype Config = Config(eyelidOffset: int, lineSpacing: int, numLines: int, thickness: int, color: Color)

  /** The defaults: first curve 20 pixels above the eye, 5 pixels between curves, one curve,
      2 pixels thick, blue (BGR). */
  const DEFAULTS: Config := Config(-20, 5, 1, 2, Color(255, 0, 0))

  /** One `cv2.line` call: a segment with its colour and thickness. */
  datatype Stroke = Stroke(from: Point, to: Point, color: Color, thickness: int)

  /** An eye contour: the boundary points `cv2.findContours` reports. */
  type Contour = seq<Point>

  /** A synthesised eyelid curve: its points from left to right. */
  type Curve = seq<Point>

  /** The face image being drawn on: the decoded picture, which drawing does not replace, and
      the segments drawn onto it so far, in drawing order. */
  class Overlay {
    const picture: seq<seq<Color>>
    var strokes: seq<Stroke>

    constructor (picture: seq<seq<Color>>)
      ensures this.picture == picture && strokes == []
    {
      this.picture := picture;
      strokes := [];
    }
  }

  /** `cv2.threshold(mask, 127, 255, cv2.THRESH_BINARY)`: 255 above 127, 0 elsewhere. */
  function Threshold(mask: seq<seq<int>>): (binary: seq<seq<int>>)
    ensures |binary| == |mask|
    ensures forall i :: 0 <= i < |mask| ==> |binary[i]| == |mask[i]|
    ensures forall i, j :: 0 <= i < |mask| && 0 <= j < |mask[i]| ==>
      binary[i][j] == (if mask[i][j] > 127 then 255 else 0)
  {
    seq(|mask|, i requires 0 <= i < |mask| =>
      seq(|mask[i]|, j requires 0 <= j < |mask[i]| => if mask[i][j] > 127 then 255 else 0))
  }

  function Xs(cnt: Contour): (r: seq<int>)
    ensures |r| == |cnt| && forall i :: 0 <= i < |cnt| ==> r[i] == cnt[i].x
  {
    seq(|cnt|, i requires 0 <= i < |cnt| => cnt[i].x)
  }

  function Ys(cnt: Contour): (r: seq<int>)
    ensures |r| == |cnt| && forall i :: 0 <= i < |cnt| ==> r[i] == cnt[i].y
  {
    seq(|cnt|, i requires 0 <= i < |cnt| => cnt[i].y)
  }

  /** numpy's `argmin`: the first index of a least element. */
  function ArgMin(s: seq<int>): (k: nat)
    requires |s| > 0
    ensures k < |s|
    ensures forall j :: 0 <= j < |s| ==> s[k] <= s[j]
    ensures forall j :: 0 <= j < k ==> s[j] > s[k]
  {
    if |s| == 1 then 0
    else
      var k := ArgMin(s[..|s| - 1]);
      if s[|s| - 1] < s[k] then |s| - 1 else k
  }

  /** numpy's `argmax`: the first index of a greatest element. */
  function ArgMax(s: seq<int>): (k: nat)
    requires |s| > 0
    ensures k < |s|
    ensures forall j :: 0 <= j < |s| ==> s[j] <= s[k]
    ensures forall j :: 0 <= j < k ==> s[j] < s[k]
  {
    if |s| == 1 then 0
    else
      var k := ArgMax(s[..|s| - 1]);
      if s[|s| - 1] > s[k] then |s| - 1 else k
  }

  /** The first point of the contour with the least y (the top of the eye). */
  function Top(cnt: Contour): Point
    requires |cnt| > 0
  {
    cnt[ArgMin(Ys(cnt))]
  }

  /** The first point with the least x. */
  function Leftmost(cnt: Contour): Point
    requires |cnt| > 0
  {
    cnt[ArgMin(Xs(cnt))]
  }

  /** The first point with the greatest x. */
  function Rightmost(cnt: Contour): Point
    requires |cnt| > 0
  {
    cnt[ArgMax(Xs(cnt))]
  }

  /** The contour's horizontal extent: its greatest x minus its least x, never negative. */
  function CurveWidth(cnt: Contour): (w: nat)
    requires |cnt| > 0
    ensures forall j :: 0 <= j < |cnt| ==> Leftmost(cnt).x <= cnt[j].x <= Leftmost(cnt).x + w
    ensures Leftmost(cnt).x + w == Rightmost(cnt).x
    ensures Top(cnt).x - Leftmost(cnt).x <= w
  {
    Rightmost(cnt).x - Leftmost(cnt).x
  }

  /** `range(num_lines)` has no elements for a negative count. */
  function LineCount(numLines: int): nat {
    if numLines < 0 then 0 else numLines
  }

  /** The anchor of line `n`: above `top` by the offset, then `n` spacings further up. */
  function LineAnchor(top: Point, cfg: Config, n: int): Point {
    Point(top.x, top.y + cfg.eyelidOffset - cfg.lineSpacing * n)
  }

  /** First horizontal offset, `(-w) // 2` (Python floors; for a divisor of 2 Dafny's
      division agrees). */
  function LowOffset(w: nat): int { (-(w as int)) / 2 }

  /** Last horizontal offset, `w // 2`. */
  function HighOffset(w: nat): int { w / 2 }

  /** `int(anchorY + 0.01 * k**2)`, with the hundredths computed exactly. */
  function CurveY(anchorY: int, k: int): int {
    TruncHundredths(100 * anchorY + k * k)
  }

  function CurvePoint(anchor: Point, k: int): Point {
    Point(anchor.x + k, CurveY(anchor.y, k))
  }

  /** One point per offset in `range(LowOffset(w), HighOffset(w) + 1)`. */
  function CurveAt(anchor: Point, w: nat): Curve {
    seq(HighOffset(w) - LowOffset(w) + 1, i => CurvePoint(anchor, LowOffset(w) + i))
  }

  /** The curves drawn for one contour: none for an empty contour, otherwise one per line,
      each as wide as the contour and centred on its top point. */
  function ContourCurves(cnt: Contour, cfg: Config): seq<Curve> {
    if |cnt| == 0 then []
    else seq(LineCount(cfg.numLines), n => CurveAt(LineAnchor(Top(cnt), cfg, n), CurveWidth(cnt)))
  }

  /** The coordinates returned for a list of contours: contour by contour, line by line. */
  function EyelidCurves(contours: seq<Contour>, cfg: Config): seq<Curve> {
    if contours == [] then []
    else EyelidCurves(contours[..|contours| - 1], cfg) + ContourCurves(contours[|contours| - 1], cfg)
  }

  /** The segments `cv2.line` draws for one curve: one between each pair of neighbours. */
  function Segments(curve: Curve, color: Color, thickness: int): (r: seq<Stroke>)
    ensures |r| == if |curve| == 0 then 0 else |curve| - 1
    ensures forall i :: 0 <= i < |r| ==> r[i] == Stroke(curve[i], curve[i + 1], color, thickness)
  {
    if |curve| < 2 then []
    else seq(|curve| - 1, i requires 0 <= i < |curve| - 1 => Stroke(curve[i], curve[i + 1], color, thickness))
  }

  /** Everything drawn for a list of curves, in order. */
  function AllSegments(curves: seq<Curve>, cfg: Config): seq<Stroke> {
    if curves == [] then []
    else AllSegments(curves[..|curves| - 1], cfg) + Segments(curves[|curves| - 1], cfg.color, cfg.thickness)
  }

  function NonEmptyCount(contours: seq<Contour>): nat {
    if contours == [] then 0
    else NonEmptyCount(contours[..|contours| - 1]) + (if |contours[|contours| - 1]| == 0 then 0 else 1)
  }

  /** Every curve has w + 1 points, one per column from `anchor.x + (-w) // 2` rightwards; the
      anchor itself is among them, and the last point is at `anchor.x + w // 2`. */
  lemma OffsetRange(w: nat)
    ensures HighOffset(w) - LowOffset(w) == w
    ensures LowOffset(w) <= 0 <= HighOffset(w)
    ensures -LowOffset(w) == w - w / 2
  {
    var m: int := w / 2;
    var negW: int := -(w as int);
    if w % 2 == 0 {
      assert negW == 2 * (-m);
    } else {
      assert negW == 2 * (-m - 1) + 1;
    }
  }

  lemma CurveShape(anchor: Point, w: nat)
    ensures var c := CurveAt(anchor, w);
      && |c| == w + 1
      && c[0].x == anchor.x + LowOffset(w)
      && c[w].x == anchor.x + HighOffset(w)
      && (forall i :: 0 <= i < w ==> c[i + 1].x == c[i].x + 1)
      && LowOffset(w) <= 0 <= HighOffset(w)
      && c[-LowOffset(w)] == anchor
  {
    OffsetRange(w);
    var c := CurveAt(anchor, w);
    assert forall i :: 0 <= i <= w ==> c[i] == CurvePoint(anchor, LowOffset(w) + i);
    TruncHundredthsExact(anchor.y);
    assert CurveY(anchor.y, 0) == anchor.y;
  }

  /** Squares grow with the magnitude. */
  lemma SquareMonotonic(k: int, k': int)
    requires -k' <= k <= k'
    ensures k * k <= k' * k'
  {
    var a := if k < 0 then -k else k;
    assert k * k == a * a;
    assert a * a <= a * k' <= k' * k';
  }

  /** The curve's height against the anchor: never above it (on screen), equal at offset 0,
      the same at `k` and `-k`, and growing with `|k|`. */
  lemma {:induction false} CurveYShape(anchorY: int, k: int, k': int)
    ensures CurveY(anchorY, k) >= anchorY
    ensures CurveY(anchorY, 0) == anchorY
    ensures CurveY(anchorY, -k) == CurveY(anchorY, k)
    ensures -k' <= k <= k' ==> CurveY(anchorY, k) <= CurveY(anchorY, k')
  {
    TruncHundredthsExact(anchorY);
    assert k * k >= 0;
    TruncHundredthsMonotonic(100 * anchorY, 100 * anchorY + k * k);
    assert (-k) * (-k) == k * k;
    if -k' <= k <= k' {
      SquareMonotonic(k, k');
      TruncHundredthsMonotonic(100 * anchorY + k * k, 100 * anchorY + k' * k');
    }
  }

  /** For an anchor at or below the image's top row the drop is exactly `k*k // 100`; above
      it, truncation toward zero rounds the other way (anchor -15 at offset 5 gives -14). */
  lemma CurveYNonNegativeAnchor(anchorY: int, k: int)
    requires anchorY >= 0
    ensures CurveY(anchorY, k) == anchorY + k * k / 100
  {
    var sq := k * k;
    assert sq >= 0;
    assert (100 * anchorY + sq) / 100 == anchorY + sq / 100;
  }

  /** The anchors of successive lines are exactly `lineSpacing` apart, the first one
      `eyelidOffset` from the top point; with the defaults, 20 above it. */
  lemma AnchorSpacing(top: Point, cfg: Config, n: int)
    ensures LineAnchor(top, cfg, n + 1).y == LineAnchor(top, cfg, n).y - cfg.lineSpacing
    ensures LineAnchor(top, cfg, n + 1).x == LineAnchor(top, cfg, n).x == top.x
    ensures LineAnchor(top, DEFAULTS, 0) == Point(top.x, top.y - 20)
  {
  }

  /** For one contour: as many curves as requested lines (none for an empty contour), each with
      `CurveWidth + 1` points whose middle point (offset 0) is the line's anchor. */
  lemma ContourCurvesShape(cnt: Contour, cfg: Config)
    ensures |cnt| == 0 ==> ContourCurves(cnt, cfg) == []
    ensures |cnt| > 0 ==> |ContourCurves(cnt, cfg)| == LineCount(cfg.numLines)
    ensures |cnt| > 0 ==> forall n :: 0 <= n < LineCount(cfg.numLines) ==>
      var c := ContourCurves(cnt, cfg)[n];
      |c| == CurveWidth(cnt) + 1 && c[-LowOffset(CurveWidth(cnt))] == LineAnchor(Top(cnt), cfg, n)
  {
    if |cnt| > 0 {
      forall n | 0 <= n < LineCount(cfg.numLines)
        ensures var c := ContourCurves(cnt, cfg)[n];
          |c| == CurveWidth(cnt) + 1 && c[-LowOffset(CurveWidth(cnt))] == LineAnchor(Top(cnt), cfg, n)
      {
        CurveShape(LineAnchor(Top(cnt), cfg, n), CurveWidth(cnt));
      }
    }
  }

  /** A contour whose points all share one column gives one-point curves and draws nothing. */
  lemma DegenerateContour(cnt: Contour, cfg: Config)
    requires |cnt| > 0 && CurveWidth(cnt) == 0
    ensures forall c :: c in ContourCurves(cnt, cfg) ==> |c| == 1 && Segments(c, cfg.color, cfg.thickness) == []
  {
    forall c | c in ContourCurves(cnt, cfg) ensures |c| == 1 {
      var n :| 0 <= n < LineCount(cfg.numLines) && c == ContourCurves(cnt, cfg)[n];
      CurveShape(LineAnchor(Top(cnt), cfg, n), 0);
    }
  }

  /** The curve runs exactly from the contour's leftmost to its rightmost column if and only if
      the top point sits at `Leftmost.x + ceil(w / 2)`; in general the curve is centred on the
      top point, not on the middle of the eye. */
  lemma CurveSpansContourIff(cnt: Contour, cfg: Config, n: int)
    requires |cnt| > 0
    ensures var w := CurveWidth(cnt);
      var c := CurveAt(LineAnchor(Top(cnt), cfg, n), w);
      c[0].x == Leftmost(cnt).x && c[w].x == Rightmost(cnt).x
      <==> Top(cnt).x == Leftmost(cnt).x + (w - w / 2)
  {
    CurveShape(LineAnchor(Top(cnt), cfg, n), CurveWidth(cnt));
  }

  /** `EyelidCurves` of two lists of contours is the concatenation: contour-then-line order. */
  lemma {:induction false} EyelidCurvesAppend(a: seq<Contour>, b: seq<Contour>, cfg: Config)
    ensures EyelidCurves(a + b, cfg) == EyelidCurves(a, cfg) + EyelidCurves(b, cfg)
  {
    if b != [] {
      var b' := b[..|b| - 1];
      assert (a + b)[..|a + b| - 1] == a + b';
      EyelidCurvesAppend(a, b', cfg);
    } else {
      assert a + b == a;
    }
  }

  lemma ContourCurvesLength(cnt: Contour, cfg: Config)
    ensures |ContourCurves(cnt, cfg)| == if |cnt| == 0 then 0 else LineCount(cfg.numLines)
  {
  }

  /** The number of curves is the number of lines times the number of non-empty contours; no
      contours, no curves. */
  lemma {:induction false} EyelidCurvesCount(contours: seq<Contour>, cfg: Config)
    ensures |EyelidCurves(contours, cfg)| == LineCount(cfg.numLines) * NonEmptyCount(contours)
  {
    if contours != [] {
      var prefix, last := contours[..|contours| - 1], contours[|contours| - 1];
      var lines, c := LineCount(cfg.numLines), NonEmptyCount(prefix);
      assert lines * (c + 1) == lines * c + lines;
      EyelidCurvesCount(prefix, cfg);
      ContourCurvesLength(last, cfg);
      if |last| == 0 {
        assert NonEmptyCount(contours) == c;
      } else {
        assert NonEmptyCount(contours) == c + 1;
        assert |EyelidCurves(contours, cfg)| == lines * c + lines;
      }
    }
  }

  /** The segments drawn for a list of curves: one fewer than the points of each curve. */
  lemma {:induction false} AllSegmentsCount(curves: seq<Curve>, cfg: Config)
    requires forall c :: c in curves ==> |c| >= 1
    ensures |AllSegments(curves, cfg)| == SumPoints(curves) - |curves|
  {
    if curves != [] {
      var prefix := curves[..|curves| - 1];
      assert forall c :: c in prefix ==> c in curves;
      AllSegmentsCount(prefix, cfg);
      assert curves[|curves| - 1] in curves;
    }
  }

  function SumPoints(curves: seq<Curve>): nat {
    if curves == [] then 0 else SumPoints(curves[..|curves| - 1]) + |curves[|curves| - 1]|
  }

  /** A 40-pixel-wide eye whose top point is (100, 90): with the defaults the curve has 41 points from x = 80 to x = 120, passes through (100, 70) and ends 4 pixels
      lower, at y = 74. */
  lemma DefaultExample(cnt: Contour)
    requires |cnt| > 0 && Top(cnt) == Point(100, 90) && CurveWidth(cnt) == 40
    ensures var c := ContourCurves(cnt, DEFAULTS);
      |c| == 1 && |c[0]| == 41 && c[0][0] == Point(80, 74) && c[0][20] == Point(100, 70)
      && c[0][40] == Point(120, 74)
  {
    CurveShape(LineAnchor(Point(100, 90), DEFAULTS, 0), 40);
    assert CurveY(70, -20) == 74;
    assert CurveY(70, 20) == 74;
  }

  /** The points of one curve (lines 53-57), built by the source's offset loop. */
  method CurvePoints(anchor: Point, w: nat) returns (points: Curve)
    ensures points == CurveAt(anchor, w)
    ensures |points| == w + 1
  {
    points := [];
    var xOffset: int := (-(w as int)) / 2;
    while xOffset < w / 2 + 1
      invariant LowOffset(w) <= xOffset <= HighOffset(w) + 1
      invariant |points| == xOffset - LowOffset(w)
      invariant forall i :: 0 <= i < |points| ==> points[i] == CurvePoint(anchor, LowOffset(w) + i)
    {
      var x := anchor.x + xOffset;
      var y := TruncHundredths(100 * anchor.y + xOffset * xOffset);
      points := points + [Point(x, y)];
      xOffset := xOffset + 1;
    }
    CurveShape(anchor, w);
  }

  /** Draws a curve as a polyline of anti-aliased segments (lines 60-61). */
  method DrawPolyline(image: Overlay, curve: Curve, color: Color, thickness: int)
    modifies image
    ensures image.strokes == old(image.strokes) + Segments(curve, color, thickness)
  {
    var i := 0;
    while i < |curve| - 1
      invariant 0 <= i <= |Segments(curve, color, thickness)|
      invariant image.strokes == old(image.strokes) + Segments(curve, color, thickness)[..i]
    {
      image.strokes := image.strokes + [Stroke(curve[i], curve[i + 1], color, thickness)];
      i := i + 1;
    }
    assert Segments(curve, color, thickness)[..i] == Segments(curve, color, thickness);
  }

  /** Drawing two lists of curves one after the other draws their segments in that order. */
  lemma {:induction false} AllSegmentsAppend(a: seq<Curve>, b: seq<Curve>, cfg: Config)
    ensures AllSegments(a + b, cfg) == AllSegments(a, cfg) + AllSegments(b, cfg)
  {
    if b == [] {
      assert a + b == a;
    } else {
      var b' := b[..|b| - 1];
      assert (a + b)[..|a + b| - 1] == a + b';
      AllSegmentsAppend(a, b', cfg);
    }
  }

  /** Drawing more curves onto an image that holds the segments of earlier ones leaves the
      segments of all of them, in order. */
  lemma DrawingAppends(initial: seq<Stroke>, before: seq<Stroke>, after: seq<Stroke>,
                       drawn: seq<Curve>, more: seq<Curve>, cfg: Config)
    requires before == initial + AllSegments(drawn, cfg)
    requires after == before + AllSegments(more, cfg)
    ensures after == initial + AllSegments(drawn + more, cfg)
  {
    var a, b := AllSegments(drawn, cfg), AllSegments(more, cfg);
    assert (initial + a) + b == initial + (a + b);
    AllSegmentsAppend(drawn, more, cfg);
  }

  /** Line `n` of a contour extends the first `n` of its curves by one. */
  lemma ContourCurvesStep(cnt: Contour, cfg: Config, n: nat, curve: Curve)
    requires |cnt| > 0 && n < LineCount(cfg.numLines)
    requires curve == CurveAt(LineAnchor(Top(cnt), cfg, n), CurveWidth(cnt))
    ensures ContourCurves(cnt, cfg)[..n + 1] == ContourCurves(cnt, cfg)[..n] + [curve]
  {
    var curves := ContourCurves(cnt, cfg);
    assert curves[n] == curve;
    assert curves[..n + 1] == curves[..n] + [curves[n]];
  }

  /** Drawing one more curve appends its segments. */
  lemma StrokesSnoc(initial: seq<Stroke>, before: seq<Stroke>, after: seq<Stroke>,
                    curves: seq<Curve>, curve: Curve, cfg: Config)
    requires before == initial + AllSegments(curves, cfg)
    requires after == before + Segments(curve, cfg.color, cfg.thickness)
    ensures after == initial + AllSegments(curves + [curve], cfg)
  {
    var a, b := AllSegments(curves, cfg), Segments(curve, cfg.color, cfg.thickness);
    assert (initial + a) + b == initial + (a + b);
    assert (curves + [curve])[..|curves|] == curves;
  }

  /** The body of the contour loop for one non-empty contour (lines 37-64): its anchor points,
      then `numLines` curves, each drawn and collected. */
  method DrawContourCurves(image: Overlay, cnt: Contour, cfg: Config) returns (curves: seq<Curve>)
    requires |cnt| > 0
    modifies image
    ensures curves == ContourCurves(cnt, cfg)
    ensures image.strokes == old(image.strokes) + AllSegments(curves, cfg)
  {
    var top := Top(cnt);
    var left := Leftmost(cnt);
    var right := Rightmost(cnt);
    var curveWidth := right.x - left.x;
    assert curveWidth == CurveWidth(cnt);
    ghost var all := ContourCurves(cnt, cfg);
    curves := [];
    var lineNum := 0;
    while lineNum < cfg.numLines
      invariant 0 <= lineNum <= LineCount(cfg.numLines) == |all|
      invariant curves == all[..lineNum]
      invariant image.strokes == old(image.strokes) + AllSegments(curves, cfg)
    {
      var curveTop := Point(top.x, top.y + cfg.eyelidOffset - cfg.lineSpacing * lineNum);
      var curvePoints := CurvePoints(curveTop, curveWidth);
      ghost var before := image.strokes;
      DrawPolyline(image, curvePoints, cfg.color, cfg.thickness);
      ContourCurvesStep(cnt, cfg, lineNum, curvePoints);
      StrokesSnoc(old(image.strokes), before, image.strokes, curves, curvePoints, cfg);
      curves := curves + [curvePoints];
      lineNum := lineNum + 1;
    }
    assert all[..lineNum] == all;
  }

  /** `add_double_eyelid_lines`: binarise the mask, find its contours, and for every non-empty
      contour draw `numLines` curves above it, returning their points. */
  method AddDoubleEyelidLines(image: Overlay, mask: seq<seq<int>>,
                              findContours: seq<seq<int>> -> seq<Contour>, cfg: Config)
    returns (coordinates: seq<Curve>)
    modifies image
    ensures coordinates == EyelidCurves(findContours(Threshold(mask)), cfg)
    ensures image.strokes == old(image.strokes) + AllSegments(coordinates, cfg)
  {
    coordinates := [];
    var binaryMask := Threshold(mask);
    var contours := findContours(binaryMask);
    var i := 0;
    while i < |contours|
      invariant 0 <= i <= |contours|
      invariant coordinates == EyelidCurves(contours[..i], cfg)
      invariant image.strokes == old(image.strokes) + AllSegments(coordinates, cfg)
    {
      var cnt := contours[i];
      assert contours[..i + 1][..i] == contours[..i];
      assert EyelidCurves(contours[..i + 1], cfg) == coordinates + ContourCurves(cnt, cfg);
      if |cnt| == 0 {
        assert ContourCurves(cnt, cfg) == [];
        assert coordinates + [] == coordinates;
        i := i + 1;
        continue;
      }
      ghost var drawn := image.strokes;
      var curves := DrawContourCurves(image, cnt, cfg);
      DrawingAppends(old(image.strokes), drawn, image.strokes, coordinates, curves, cfg);
      coordinates := coordinates + curves;
      i := i + 1;
    }
    assert contours[..i] == contours;
  }
}
