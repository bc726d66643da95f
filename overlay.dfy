/**
 * The drawing loop of `overlay_lidar_on_image`: each projected point inside
 * the image becomes one filled circle whose colour runs from green (near) to
 * blue (far) with its share of the largest depth. The model records the
 * circles in drawing order instead of painting pixels.
 */
module Overlay {
  import opened Wrappers
  import opened Numerics
  import opened BoolMask
  import opened Projection

  /** An (R, G, B) colour as passed to `cv2.circle`. */
  datatype Color = Color(red: int, green: int, blue: int)

  /** One `cv2.circle(img, (col, row), 2, color, -1)` call. */
  datatype Marker = Marker(col: int, row: int, color: Color)

  /**
   * `int()` of the infinity or nan that a zero `max(depths)` produces raises,
   * aborting the overlay.
   */
  datatype OverlayError = ZeroMaxDepth

  /** Python's `max` of a non-empty sequence of numbers. */
  function MaxOf(s: seq<real>): (m: real)
    requires |s| > 0
    ensures exists k :: 0 <= k < |s| && s[k] == m
    ensures forall k :: 0 <= k < |s| ==> s[k] <= m
  {
    if |s| == 1 then s[0]
    else
      var rest := MaxOf(s[1..]);
      if s[0] >= rest then s[0] else rest
  }

  /**
   * The bounds test `0 <= x < width and 0 <= y < height`; false for inf and
   * nan. A pixel that passes it truncates to a column and row of the image.
   */
  predicate InsideImage(p: Pixel, width: nat, height: nat)
    ensures InsideImage(p, width, height) ==>
      p.u.Finite? && p.v.Finite? && 0 <= Trunc(p.u.value) < width && 0 <= Trunc(p.v.value) < height
  {
    && p.u.Finite? && p.v.Finite?
    && 0.0 <= p.u.value < width as real
    && 0.0 <= p.v.value < height as real
  }

  /**
   * `(0, int(255 * (1 - depth / max)), int(255 * (depth / max)))`: red is
   * always 0, and a depth share between 0 and 1 gives 8-bit channels.
   */
  function DepthColor(depth: real, maxDepth: real): (c: Color)
    requires maxDepth != 0.0
    ensures c.red == 0
    ensures 0.0 <= depth / maxDepth <= 1.0 ==> ColorInRange(c)
  {
    Color(0, Trunc(255.0 * (1.0 - depth / maxDepth)), Trunc(255.0 * (depth / maxDepth)))
  }

  predicate ColorInRange(c: Color)
  {
    0 <= c.red <= 255 && 0 <= c.green <= 255 && 0 <= c.blue <= 255
  }

  /** Depth 0 maps to pure green and the largest depth to pure blue. */
  lemma DepthColorEndpoints(maxDepth: real)
    requires maxDepth != 0.0
    ensures DepthColor(0.0, maxDepth) == Color(0, 255, 0)
    ensures DepthColor(maxDepth, maxDepth) == Color(0, 0, 255)
  {
    TruncOfInt(255);
    TruncOfInt(0);
    assert 255.0 * (1.0 - 0.0 / maxDepth) == 255 as real;
    assert 255.0 * (0.0 / maxDepth) == 0 as real;
    assert 255.0 * (1.0 - maxDepth / maxDepth) == 0 as real;
    assert 255.0 * (maxDepth / maxDepth) == 255 as real;
  }

  /**
   * For a depth between 0 and a positive maximum every channel is a valid
   * 8-bit value, and green and blue together make 254 or 255.
   */
  lemma DepthColorInRange(depth: real, maxDepth: real)
    requires 0.0 < maxDepth && 0.0 <= depth <= maxDepth
    ensures ColorInRange(DepthColor(depth, maxDepth))
    ensures 254 <= DepthColor(depth, maxDepth).green + DepthColor(depth, maxDepth).blue <= 255
  {
    var t := depth / maxDepth;
    assert 0.0 <= t <= 1.0 by {
      assert t * maxDepth == depth;
    }
  }

  /** With a positive maximum, a farther point is never greener and never less blue. */
  lemma DepthColorMonotone(d1: real, d2: real, maxDepth: real)
    requires 0.0 < maxDepth && d1 <= d2
    ensures DepthColor(d2, maxDepth).green <= DepthColor(d1, maxDepth).green
    ensures DepthColor(d1, maxDepth).blue <= DepthColor(d2, maxDepth).blue
  {
    assert d1 / maxDepth <= d2 / maxDepth;
    TruncMonotone(255.0 * (1.0 - d2 / maxDepth), 255.0 * (1.0 - d1 / maxDepth));
    TruncMonotone(255.0 * (d1 / maxDepth), 255.0 * (d2 / maxDepth));
  }

  /** The circle drawn for an in-image point: its truncated coordinates and depth colour. */
  function MarkerOf(p: Pixel, depth: real, maxDepth: real, width: nat, height: nat): (m: Marker)
    requires InsideImage(p, width, height) && maxDepth != 0.0
    ensures 0 <= m.col < width && 0 <= m.row < height
  {
    Marker(Trunc(p.u.value), Trunc(p.v.value), DepthColor(depth, maxDepth))
  }

  /**
   * The first `n` iterations of `for (x, y), depth in zip(img_coords, depths)`:
   * at most one circle per iteration, each centred inside the image.
   */
  function OverlayPrefix(pixels: seq<Pixel>, depths: seq<real>, width: nat, height: nat, n: nat): (r: Result<seq<Marker>, OverlayError>)
    requires n <= |pixels| && n <= |depths|
    ensures r.Success? ==> |r.value| <= n
    ensures r.Success? ==> forall m :: m in r.value ==> 0 <= m.col < width && 0 <= m.row < height
  {
    if n == 0 then Success([])
    else
      match OverlayPrefix(pixels, depths, width, height, n - 1)
      case Failure(e) => Failure(e)
      case Success(ms) =>
        if !InsideImage(pixels[n - 1], width, height) then Success(ms)
        else if MaxOf(depths) == 0.0 then Failure(ZeroMaxDepth)
        else Success(ms + [MarkerOf(pixels[n - 1], depths[n - 1], MaxOf(depths), width, height)])
  }

  /** `zip` stops at the shorter of the two sequences. */
  function ZipLength(pixels: seq<Pixel>, depths: seq<real>): nat
  {
    if |pixels| < |depths| then |pixels| else |depths|
  }

  /**
   * The whole drawing loop. It raises exactly when some zipped point is
   * inside the image and the largest depth is 0; otherwise circle `k` is the
   * marker of the `k`-th zipped pixel that passes the bounds test.
   */
  function OverlaySpec(pixels: seq<Pixel>, depths: seq<real>, width: nat, height: nat): (r: Result<seq<Marker>, OverlayError>)
    ensures r.Failure? <==>
      (exists k :: 0 <= k < ZipLength(pixels, depths) && InsideImage(pixels[k], width, height)) && MaxOf(depths) == 0.0
    ensures r.Success? ==>
      var idx := TrueIndices(InsideMask(pixels, width, height, ZipLength(pixels, depths)));
      && |r.value| == |idx|
      && forall k :: 0 <= k < |idx| ==>
           |depths| > 0 && MaxOf(depths) != 0.0
           && r.value[k] == MarkerOf(pixels[idx[k]], depths[idx[k]], MaxOf(depths), width, height)
  {
    var n := ZipLength(pixels, depths);
    PrefixOutcome(pixels, depths, width, height, n);
    var r := OverlayPrefix(pixels, depths, width, height, n);
    if r.Success? then
      OverlayDrawsEveryInsidePoint(pixels, depths, width, height, n);
      r
    else r
  }

  /** Once an iteration raises, the loop's outcome is that failure. */
  lemma {:induction false} FailureIsFinal(pixels: seq<Pixel>, depths: seq<real>, width: nat, height: nat, j: nat, n: nat)
    requires j <= n <= |pixels| && n <= |depths|
    requires OverlayPrefix(pixels, depths, width, height, j).Failure?
    ensures OverlayPrefix(pixels, depths, width, height, n) == OverlayPrefix(pixels, depths, width, height, j)
    decreases n - j
  {
    if j < n {
      FailureIsFinal(pixels, depths, width, height, j, n - 1);
    }
  }

  /**
   * The loop fails exactly when some zipped point is inside the image and the
   * largest depth is 0; otherwise it draws one circle per in-image point.
   */
  lemma {:induction false} PrefixOutcome(pixels: seq<Pixel>, depths: seq<real>, width: nat, height: nat, n: nat)
    requires n <= |pixels| && n <= |depths|
    ensures OverlayPrefix(pixels, depths, width, height, n).Failure?
        <==> (exists k :: 0 <= k < n && InsideImage(pixels[k], width, height)) && MaxOf(depths) == 0.0
    ensures OverlayPrefix(pixels, depths, width, height, n).Success? ==>
      |OverlayPrefix(pixels, depths, width, height, n).value| <= n
    ensures OverlayPrefix(pixels, depths, width, height, n).Success? ==>
      forall m :: m in OverlayPrefix(pixels, depths, width, height, n).value ==> 0 <= m.col < width && 0 <= m.row < height
  {
    if n > 0 {
      PrefixOutcome(pixels, depths, width, height, n - 1);
      if InsideImage(pixels[n - 1], width, height) {
        assert 0 <= n - 1 < n && InsideImage(pixels[n - 1], width, height);
      } else {
        if exists k :: 0 <= k < n && InsideImage(pixels[k], width, height) {
          var k :| 0 <= k < n && InsideImage(pixels[k], width, height);
          assert k < n - 1;
        }
      }
    }
  }

  /** The bounds test applied to the first `n` pixels. */
  function InsideMask(pixels: seq<Pixel>, width: nat, height: nat, n: nat): seq<bool>
    requires n <= |pixels|
  {
    seq(n, i requires 0 <= i < n => InsideImage(pixels[i], width, height))
  }

  /**
   * When the loop does not raise, it draws exactly one circle per in-image
   * point, in input order: circle `k` is the marker of the `k`-th pixel that
   * passes the bounds test.
   */
  lemma {:induction false} OverlayDrawsEveryInsidePoint(pixels: seq<Pixel>, depths: seq<real>, width: nat, height: nat, n: nat)
    requires n <= |pixels| && n <= |depths|
    requires OverlayPrefix(pixels, depths, width, height, n).Success?
    ensures var ms := OverlayPrefix(pixels, depths, width, height, n).value;
      var idx := TrueIndices(InsideMask(pixels, width, height, n));
      && |ms| == |idx|
      && (|idx| > 0 ==> |depths| > 0 && MaxOf(depths) != 0.0)
      && forall k :: 0 <= k < |idx| ==>
           ms[k] == MarkerOf(pixels[idx[k]], depths[idx[k]], MaxOf(depths), width, height)
  {
    if n > 0 {
      var prev := OverlayPrefix(pixels, depths, width, height, n - 1);
      assert prev.Success?;
      OverlayDrawsEveryInsidePoint(pixels, depths, width, height, n - 1);
      var mask := InsideMask(pixels, width, height, n);
      assert mask[..n - 1] == InsideMask(pixels, width, height, n - 1);
      var before := TrueIndices(mask[..n - 1]);
      var idx := TrueIndices(mask);
      var ms := OverlayPrefix(pixels, depths, width, height, n).value;
      if mask[n - 1] {
        assert idx == before + [n - 1];
        assert ms == prev.value + [MarkerOf(pixels[n - 1], depths[n - 1], MaxOf(depths), width, height)];
      } else {
        assert idx == before;
        assert ms == prev.value;
      }
    }
  }

  /**
   * Points coming from the projection have positive depths, so the overlay
   * never fails, every circle centre lies inside the image, and every colour
   * is a valid 8-bit triple.
   */
  lemma {:induction false} PositiveDepthsDrawSafely(pixels: seq<Pixel>, depths: seq<real>, width: nat, height: nat, n: nat)
    requires n <= |pixels| && n <= |depths|
    requires forall k :: 0 <= k < |depths| ==> depths[k] > 0.0
    ensures OverlayPrefix(pixels, depths, width, height, n).Success?
    ensures forall m :: m in OverlayPrefix(pixels, depths, width, height, n).value ==>
      0 <= m.col < width && 0 <= m.row < height && ColorInRange(m.color)
  {
    if n > 0 {
      PositiveDepthsDrawSafely(pixels, depths, width, height, n - 1);
      PrefixOutcome(pixels, depths, width, height, n);
      if InsideImage(pixels[n - 1], width, height) {
        DepthColorInRange(depths[n - 1], MaxOf(depths));
      }
    }
  }

  /** Projecting a scan and overlaying it never fails and draws only valid circles inside the image. */
  lemma ProjectThenOverlay(c: KittiCalib.Calibration, points: seq<LidarScan.Point3>, width: nat, height: nat)
    ensures OverlaySpec(Project(c, points).pixels, Project(c, points).depths, width, height).Success?
    ensures forall m :: m in OverlaySpec(Project(c, points).pixels, Project(c, points).depths, width, height).value ==>
      0 <= m.col < width && 0 <= m.row < height && ColorInRange(m.color)
  {
    var r := Project(c, points);
    ProjectDepthsPositive(c, points);
    PositiveDepthsDrawSafely(r.pixels, r.depths, width, height, ZipLength(r.pixels, r.depths));
  }

  /** `overlay_lidar_on_image` after the image is read: the loop over the zipped points. */
  method OverlayLidarOnImage(pixels: seq<Pixel>, depths: seq<real>, width: nat, height: nat)
    returns (r: Result<seq<Marker>, OverlayError>)
    ensures r == OverlaySpec(pixels, depths, width, height)
  {
    var n := ZipLength(pixels, depths);
    var markers := [];
    for i := 0 to n
      invariant OverlayPrefix(pixels, depths, width, height, i) == Success(markers)
    {
      var p := pixels[i];
      if InsideImage(p, width, height) {
        var maxDepth := MaxOf(depths);
        if maxDepth == 0.0 {
          FailureIsFinal(pixels, depths, width, height, i + 1, n);
          return Failure(ZeroMaxDepth);
        }
        markers := markers + [MarkerOf(p, depths[i], maxDepth, width, height)];
      }
    }
    r := Success(markers);
  }
}
