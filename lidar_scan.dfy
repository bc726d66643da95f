/**
 * The part of `load_lidar_data` after the file read: a flat float buffer of
 * x, y, z, reflectance quadruples, reshaped to rows of four and cut to the
 * first three columns.
 */
module LidarScan {
  import opened Wrappers

  /** A point in the LiDAR sensor frame. */
  datatype Point3 = Point3(x: real, y: real, z: real)

  /** `reshape(-1, 4)` refuses a buffer whose size is not a multiple of four. */
  datatype LidarError = NotQuadruples(size: nat)

  /** `raw.reshape(-1, 4)[:, :3]`. */
  function StripReflectance(raw: seq<real>): (r: Result<seq<Point3>, LidarError>)
    ensures r.Success? <==> |raw| % 4 == 0
    ensures r.Success? ==> 4 * |r.value| == |raw|
    ensures r.Success? ==> forall i :: 0 <= i < |r.value| ==>
      r.value[i] == Point3(raw[4 * i], raw[4 * i + 1], raw[4 * i + 2])
    ensures r.Failure? ==> r.error == NotQuadruples(|raw|)
  {
    if |raw| % 4 != 0 then Failure(NotQuadruples(|raw|))
    else Success(seq(|raw| / 4, i requires 0 <= i < |raw| / 4 => Point3(raw[4 * i], raw[4 * i + 1], raw[4 * i + 2])))
  }

  /** The buffer a scan is stored as: each point followed by its reflectance. */
  function Interleave(points: seq<Point3>, reflectance: seq<real>): (raw: seq<real>)
    requires |reflectance| == |points|
  {
    seq(4 * |points|, k requires 0 <= k < 4 * |points| =>
      var p := points[k / 4];
      if k % 4 == 0 then p.x else if k % 4 == 1 then p.y else if k % 4 == 2 then p.z else reflectance[k / 4])
  }

  /** Stripping the stored buffer gives back exactly the points, whatever the reflectances. */
  lemma StripInterleave(points: seq<Point3>, reflectance: seq<real>)
    requires |reflectance| == |points|
    ensures StripReflectance(Interleave(points, reflectance)) == Success(points)
  {
    var raw := Interleave(points, reflectance);
    var r := StripReflectance(raw);
    assert |raw| % 4 == 0;
    forall i | 0 <= i < |points|
      ensures r.value[i] == points[i]
    {
      assert (4 * i) / 4 == i && (4 * i + 1) / 4 == i && (4 * i + 2) / 4 == i;
      assert (4 * i) % 4 == 0 && (4 * i + 1) % 4 == 1 && (4 * i + 2) % 4 == 2;
    }
    assert |r.value| == |points|;
    assert r.value == points;
  }
}
