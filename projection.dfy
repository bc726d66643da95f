/**
 * `project_lidar_to_image`: LiDAR points to homogeneous form, through
 * `R0_rect @ Tr_velo_to_cam` into the rectified camera frame, the points in
 * front of the camera kept, then through P2 and a perspective division to
 * pixel coordinates, each paired with its camera-frame depth.
 */
module Projection {
  import opened Numerics
  import opened LinAlg
  import opened BoolMask
  import opened KittiCalib
  import opened LidarScan

  /** Pixel coordinates as numpy leaves them after the division. */
  datatype Pixel = Pixel(u: Coord, v: Coord)

  /** The two arrays the projection returns: `img_coords[:, :2]` and the depths. */
  datatype Projected = Projected(pixels: seq<Pixel>, depths: seq<real>)

  /** A point with the homogeneous 1 appended (`np.hstack` with a column of ones). */
  function Homogeneous(p: Point3): Vec4
  {
    [p.x, p.y, p.z, 1.0]
  }

  /** `R0_rect @ Tr_velo_to_cam`, composed once per call. */
  function VeloToRect(c: Calibration): Mat4
  {
    Mul44(c.r0Rect, c.trVeloToCam)
  }

  /** The point's homogeneous coordinates in the rectified camera frame. */
  function CamCoords(c: Calibration, p: Point3): Vec4
  {
    Apply4(VeloToRect(c), Homogeneous(p))
  }

  /** The visibility test `cam_coords[:, 2] > 0`. */
  predicate InFront(c: Calibration, p: Point3)
  {
    CamCoords(c, p)[2] > 0.0
  }

  function FrontMask(c: Calibration, points: seq<Point3>): seq<bool>
  {
    seq(|points|, i requires 0 <= i < |points| => InFront(c, points[i]))
  }

  /** Indices of the points that survive the visibility test, in input order. */
  function FrontIndices(c: Calibration, points: seq<Point3>): seq<nat>
  {
    TrueIndices(FrontMask(c, points))
  }

  /** `cam_coords` before the mask: every point in the camera frame. */
  function AllCamCoords(c: Calibration, points: seq<Point3>): seq<Vec4>
  {
    seq(|points|, i requires 0 <= i < |points| => CamCoords(c, points[i]))
  }

  /** `cam_coords` after the mask: the camera-frame coordinates of the survivors. */
  function VisibleCamCoords(c: Calibration, points: seq<Point3>): seq<Vec4>
  {
    Select(AllCamCoords(c, points), FrontMask(c, points))
  }

  /** Dividing the first two image coordinates by the third. */
  function PerspectivePixel(img: Vec3): Pixel
  {
    Pixel(Div(Finite(img[0]), Finite(img[2])), Div(Finite(img[1]), Finite(img[2])))
  }

  /** The pixel of a camera-frame point: `P2 @ cam`, then the division. */
  function PixelOf(c: Calibration, cam: Vec4): Pixel
  {
    PerspectivePixel(Apply34(c.p2, cam))
  }

  /**
   * The whole projection as a value; `ProjectLidarToImage` computes it in
   * place. It yields one pixel and one depth per point in front of the camera.
   */
  function Project(c: Calibration, points: seq<Point3>): (r: Projected)
    ensures |r.pixels| == |r.depths| == |FrontIndices(c, points)| <= |points|
  {
    if |points| == 0 then Projected([], [])
    else
      VisibleAt(c, points);
      var cams := VisibleCamCoords(c, points);
      Projected(seq(|cams|, k requires 0 <= k < |cams| => PixelOf(c, cams[k])),
                seq(|cams|, k requires 0 <= k < |cams| => cams[k][2]))
  }

  /** Entry `k` of the surviving coordinates belongs to input point `FrontIndices[k]`. */
  lemma VisibleAt(c: Calibration, points: seq<Point3>)
    ensures |VisibleCamCoords(c, points)| == |FrontIndices(c, points)|
    ensures forall k :: 0 <= k < |FrontIndices(c, points)| ==>
      VisibleCamCoords(c, points)[k] == CamCoords(c, points[FrontIndices(c, points)[k]])
  {
    SelectAt(AllCamCoords(c, points), FrontMask(c, points));
  }

  /**
   * The outputs are the survivors of the visibility test in input order:
   * output `k` is the pixel and depth of input point `FrontIndices[k]`, the
   * indices increase, and they are exactly the points in front of the camera.
   */
  lemma ProjectKeepsFrontInOrder(c: Calibration, points: seq<Point3>)
    ensures var r := Project(c, points); var idx := FrontIndices(c, points);
      && |r.pixels| == |r.depths| == |idx|
      && (forall k :: 0 <= k < |idx| ==>
            idx[k] < |points| && InFront(c, points[idx[k]])
            && r.depths[k] == CamCoords(c, points[idx[k]])[2]
            && r.pixels[k] == PixelOf(c, CamCoords(c, points[idx[k]])))
      && (forall k, l :: 0 <= k < l < |idx| ==> idx[k] < idx[l])
      && (forall i :: 0 <= i < |points| ==> (InFront(c, points[i]) <==> i in idx))
  {
    VisibleAt(c, points);
    var idx := FrontIndices(c, points);
    forall i | 0 <= i < |points| && i in idx
      ensures InFront(c, points[i])
    {
      var k :| 0 <= k < |idx| && idx[k] == i;
      assert FrontMask(c, points)[idx[k]];
    }
  }

  /** Every output depth is strictly positive. */
  lemma ProjectDepthsPositive(c: Calibration, points: seq<Point3>)
    ensures forall k :: 0 <= k < |Project(c, points).depths| ==> Project(c, points).depths[k] > 0.0
  {
    ProjectKeepsFrontInOrder(c, points);
  }

  /**
   * Output and depth arrays have one length, at most the input count, and
   * equal to it exactly when every point lies in front of the camera.
   */
  lemma ProjectCount(c: Calibration, points: seq<Point3>)
    ensures |Project(c, points).pixels| == |Project(c, points).depths| <= |points|
    ensures |Project(c, points).pixels| == |points| <==> forall i :: 0 <= i < |points| ==> InFront(c, points[i])
  {
    var mask := FrontMask(c, points);
    assert |Select(AllCamCoords(c, points), mask)| == |points| <==> forall i :: 0 <= i < |mask| ==> mask[i];
    assert forall i :: 0 <= i < |points| ==> (mask[i] <==> InFront(c, points[i]));
  }

  /** No points, or no point in front of the camera, gives two empty outputs and no error. */
  lemma ProjectNothingVisible(c: Calibration, points: seq<Point3>)
    requires forall i :: 0 <= i < |points| ==> !InFront(c, points[i])
    ensures Project(c, points) == Projected([], [])
  {
    var mask := FrontMask(c, points);
    assert forall i :: 0 <= i < |points| ==> (mask[i] <==> InFront(c, points[i]));
    assert |VisibleCamCoords(c, points)| == 0;
  }

  /** The composed transform is Tr_velo_to_cam first, then R0_rect. */
  lemma CamCoordsComposes(c: Calibration, p: Point3)
    ensures CamCoords(c, p) == Apply4(c.r0Rect, Apply4(c.trVeloToCam, Homogeneous(p)))
  {
    ApplyComposed(c.r0Rect, c.trVeloToCam, Homogeneous(p));
  }

  /** With both bottom rows `[0, 0, 0, 1]`, every camera-frame point keeps homogeneous coordinate 1. */
  lemma CamCoordsStayHomogeneous(c: Calibration, p: Point3)
    requires HomogeneousRows(c)
    ensures CamCoords(c, p)[3] == 1.0
  {
    var m := VeloToRect(c);
    assert m[3] == [Dot4(c.r0Rect[3], Column(c.trVeloToCam, 0)), Dot4(c.r0Rect[3], Column(c.trVeloToCam, 1)),
                    Dot4(c.r0Rect[3], Column(c.trVeloToCam, 2)), Dot4(c.r0Rect[3], Column(c.trVeloToCam, 3))];
    assert m[3] == [0.0, 0.0, 0.0, 1.0];
  }

  /**
   * The division uses the third component of `P2 @ cam`, not the depth; when
   * P2's third row is `[0, 0, 1, 0]` the two agree, so output pixel `k` is the
   * first two image coordinates divided by depth `k`, and every pixel is finite.
   */
  lemma ProjectFiniteForPinholeRow(c: Calibration, points: seq<Point3>)
    requires c.p2[2] == [0.0, 0.0, 1.0, 0.0]
    ensures var r := Project(c, points); var idx := FrontIndices(c, points);
      && |r.pixels| == |r.depths| == |idx|
      && forall k :: 0 <= k < |idx| ==>
           var img := Apply34(c.p2, CamCoords(c, points[idx[k]]));
           r.depths[k] > 0.0 && r.pixels[k] == Pixel(Finite(img[0] / r.depths[k]), Finite(img[1] / r.depths[k]))
    ensures forall k :: 0 <= k < |Project(c, points).pixels| ==>
      Project(c, points).pixels[k].u.Finite? && Project(c, points).pixels[k].v.Finite?
  {
    ProjectKeepsFrontInOrder(c, points);
    var r := Project(c, points);
    var idx := FrontIndices(c, points);
    forall k | 0 <= k < |idx|
      ensures var img := Apply34(c.p2, CamCoords(c, points[idx[k]]));
        r.pixels[k] == Pixel(Finite(img[0] / r.depths[k]), Finite(img[1] / r.depths[k]))
    {
      var cam := CamCoords(c, points[idx[k]]);
      assert Apply34(c.p2, cam)[2] == cam[2] == r.depths[k];
    }
  }

  /** A camera with focal lengths fx, fy and principal point (cx, cy), and identity frames. */
  function PinholeCalibration(fx: real, fy: real, cx: real, cy: real): Calibration
  {
    Calibration([[fx, 0.0, cx, 0.0], [0.0, fy, cy, 0.0], [0.0, 0.0, 1.0, 0.0]], Eye4(), Eye4())
  }

  /** Under identity frames the projection is the pinhole model `u = fx x / z + cx`, `v = fy y / z + cy`. */
  lemma Pinhole(fx: real, fy: real, cx: real, cy: real, p: Point3)
    requires p.z > 0.0
    ensures Project(PinholeCalibration(fx, fy, cx, cy), [p])
         == Projected([Pixel(Finite(fx * p.x / p.z + cx), Finite(fy * p.y / p.z + cy))], [p.z])
  {
    var c := PinholeCalibration(fx, fy, cx, cy);
    var h := Homogeneous(p);
    ApplyComposed(Eye4(), Eye4(), h);
    assert Apply4(Eye4(), h) == h;
    var cam := CamCoords(c, p);
    assert cam == [p.x, p.y, p.z, 1.0];
    assert FrontMask(c, [p]) == [true];
    var cams := AllCamCoords(c, [p]);
    assert cams == [cam];
    assert Select(cams, [true]) == Select(cams[..0], [true][..0]) + [cam];
    assert VisibleCamCoords(c, [p]) == [cam];
    var img := Apply34(c.p2, cam);
    assert img[0] == Dot4(c.p2[0], cam) == fx * p.x + cx * p.z;
    assert img[1] == Dot4(c.p2[1], cam) == fy * p.y + cy * p.z;
    assert img[2] == Dot4(c.p2[2], cam) == p.z;
    assert (fx * p.x + cx * p.z) / p.z == fx * p.x / p.z + cx;
    assert (fy * p.y + cy * p.z) / p.z == fy * p.y / p.z + cy;
  }

  /** The worked example: `(1, 0, 10)` lands on pixel `(600, 300)` at depth 10. */
  lemma PinholeExample()
    ensures Project(PinholeCalibration(1000.0, 1000.0, 500.0, 300.0), [Point3(1.0, 0.0, 10.0)])
         == Projected([Pixel(Finite(600.0), Finite(300.0))], [10.0])
  {
    Pinhole(1000.0, 1000.0, 500.0, 300.0, Point3(1.0, 0.0, 10.0));
  }

  /** `project_lidar_to_image`'s in-place division of columns 0 and 1 of `img_coords` by column 2. */
  method PerspectiveDivide(img: array2<Coord>)
    requires img.Length1 == 3
    modifies img
    ensures forall i :: 0 <= i < img.Length0 ==>
      && img[i, 0] == Div(old(img[i, 0]), old(img[i, 2]))
      && img[i, 1] == Div(old(img[i, 1]), old(img[i, 2]))
      && img[i, 2] == old(img[i, 2])
  {
    forall i | 0 <= i < img.Length0 {
      img[i, 0] := Div(img[i, 0], img[i, 2]);
    }
    forall i | 0 <= i < img.Length0 {
      img[i, 1] := Div(img[i, 1], img[i, 2]);
    }
  }

  /** `project_lidar_to_image`, with `img_coords` as an array divided in place. */
  method ProjectLidarToImage(points: seq<Point3>, c: Calibration) returns (pixels: seq<Pixel>, depths: seq<real>)
    ensures Projected(pixels, depths) == Project(c, points)
  {
    if |points| == 0 {
      return [], [];
    }
    var cams := VisibleCamCoords(c, points);
    var n := |cams|;
    var img := new Coord[n, 3];
    forall i, j | 0 <= i < n && 0 <= j < 3 {
      img[i, j] := Finite(Apply34(c.p2, cams[i])[j]);
    }
    PerspectiveDivide(img);
    pixels := seq(n, i requires 0 <= i < n reads img => Pixel(img[i, 0], img[i, 1]));
    depths := seq(n, k requires 0 <= k < n => cams[k][2]);
    assert forall k :: 0 <= k < n ==> pixels[k] == PixelOf(c, cams[k]);
  }
}
