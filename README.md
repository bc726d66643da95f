# LiDAR-to-camera projection, modelled in Dafny

This project models the sensor-fusion core of a set of KITTI-style visualisation
scripts. The core has five parts:

- Reading a calibration record. Line 2 holds the camera projection matrix `P2` (3x4). Line 4 holds the rectifying rotation `R0_rect` (3x3, embedded in a 4x4 identity). Line 5 holds the LiDAR-to-camera transform `Tr_velo_to_cam` (3x4, embedded in a 4x4 identity).
- Cutting a flat LiDAR buffer of `x, y, z, reflectance` quadruples down to 3D points.
- Projecting the points. Each point is made homogeneous and moved into the rectified camera frame by `R0_rect @ Tr_velo_to_cam`. Points with camera depth `z <= 0` are dropped with an order-preserving mask. The survivors go through `P2` and a perspective division.
- The overlay loop. It keeps the projected points inside the image and colours each one from green (near) to blue (far).
- The 2D box of one label line. Fields at fixed token positions are scaled to pixels, truncated with Python's `int()`, and clamped toward the image.

All arithmetic is over `real`. Python's `float()` is a parameter `parse: Token -> Option<real>`; `None` stands for the `ValueError`. Every exception the scripts can raise on these paths is a `Failure` value of a `Result`.

Modules, one file each:

- `Wrappers`: `Option` and `Result`.
- `Numerics`: `Trunc` (Python `int()`) and `Coord`. `Coord` is a float after numpy division: finite, or one of inf/nan.
- `LinAlg`: fixed-shape vectors and matrices with explicit 3x4 and 4x4 products.
- `BoolMask`: numpy boolean-mask indexing.
- `KittiCalib`: `load_calibration`.
- `LidarScan`: the reshape in `load_lidar_data`.
- `Projection`: `project_lidar_to_image`.
- `Overlay`: the drawing loop of `overlay_lidar_on_image`.
- `LabelBoxes`: the per-label box computation.

Where the scripts update state, the model does too:

- The perspective division at 2pathlib_calib.py:50-51 is a method. It divides two columns of an `array2` in place with `forall` statements.
- The overlay and label loops are methods with loop invariants.
- Each method's ensures gives its whole result: per entry for `PerspectiveDivide`, per line for `BoxesForLabels`, and as equality with `OverlaySpec` and `Project` for the other two.

Behaviour of the code that is easy to misread, modelled as written:

- The division uses the third component of `P2 @ cam`, not the camera depth. The two agree only when `P2`'s third row is `[0, 0, 1, 0]`; `Projection.ProjectFiniteForPinholeRow` proves this case. Otherwise a zero divisor gives a non-finite coordinate, and the overlay's bounds test rejects that point.
- Label lines are not skipped on error. The label loop has no `try`, so the first bad line aborts it.
- The colour ratio `depth / max(depths)` is not clamped. It stays in `[0, 1]` only because the projection yields positive depths, as `Overlay.PositiveDepthsDrawSafely` proves.
- A zero maximum depth gives `int()` of an infinity or a nan, which raises. The model returns `Failure(ZeroMaxDepth)`.
- The bounds check against the image happens in the overlay loop, not in the projection.

## Model

| member | source | states |
|---|---|---|
| `Numerics.Trunc` | 2pathlib_label.py:49-52 | Python `int()` truncates toward zero: the result lies between 0 and `x`, less than 1 away from `x` |
| `Numerics.TruncHalf` | 2pathlib_label.py:49-52 | `int(k + 0.5)` is `k` for `k >= 0` and `k + 1` below zero |
| `Numerics.Div` | 2pathlib_calib.py:50-51 | a division of two finite values is finite exactly when the divisor is non-zero (the model's non-finite value absorbs any further division), and then quotient times divisor gives back the dividend |
| `LinAlg.Eye4` | 2pathlib_calib.py:23-26 | `np.eye(4)` has ones on the diagonal and zeros everywhere else |
| `LinAlg.Reshape33` | 2pathlib_calib.py:24 | `reshape(3, 3)` is row-major: entry `(i, j)` is value `3i+j`, and the rows concatenate back to the input |
| `LinAlg.Reshape34` | 2pathlib_calib.py:19 | `reshape(3, 4)` is row-major: entry `(i, j)` is value `4i+j`, and the rows concatenate back to the input |
| `LinAlg.Overwrite` | 2pathlib_calib.py:23-27 | the slice assignment `m[:rows, :cols] = b` puts `b` in the top-left block and leaves every other entry as it was |
| `LinAlg.Mul44` | 2pathlib_calib.py:47 | the product of two matrices with bottom row `[0,0,0,1]` has bottom row `[0,0,0,1]` |
| `LinAlg.Apply4` | 2pathlib_calib.py:47 | the identity leaves a vector unchanged, and a bottom row `[0,0,0,1]` keeps its last coordinate |
| `LinAlg.Apply34` | 2pathlib_calib.py:49 | a third row `[0,0,1,0]` copies the vector's third coordinate into the image's third coordinate |
| `LinAlg.ApplyComposed` | 2pathlib_calib.py:47 | applying the composed matrix `R0_rect @ Tr_velo_to_cam` to a point equals applying `Tr_velo_to_cam` and then `R0_rect` |
| `BoolMask.Select` | 2pathlib_calib.py:48 | the masked rows are at most as many as the input; all rows are kept exactly when every mask entry is true; none are kept exactly when every entry is false |
| `BoolMask.TrueIndices` | 2pathlib_calib.py:48 | the surviving positions are strictly increasing, each has a true mask entry, and every true entry's position is among them |
| `BoolMask.SelectAt` | 2pathlib_calib.py:48 | entry `k` of `s[mask]` is `s[TrueIndices(mask)[k]]`, so the mask keeps survivors in input order |
| `KittiCalib.ParseValues` | 2pathlib_calib.py:19 | the float list comprehension succeeds exactly when every token parses, and then gives each token's value in order; otherwise it names the first refused token |
| `KittiCalib.ParseRow` | 2pathlib_calib.py:18-27 | a line past the end is `MissingLine`; a present line with a refused token is `BadNumber` at the first refused position; readable values of the wrong count are `WrongCount`; success exactly when the line exists, all its values parse and there are `count` of them |
| `KittiCalib.LoadCalibration` | 2pathlib_calib.py:15-29 | success exactly when lines 2, 4 and 5 hold 12, 9 and 12 numbers. Then `P2[r][c]` is token `1+4r+c` of line 2. `R0_rect` is identity outside its top-left 3x3, which holds line 4 row-major. `Tr_velo_to_cam` holds line 5 in its top rows, with bottom row `[0,0,0,1]`. On failure the error names the first bad line of 2, 4, 5 and is exactly that line's `ParseRow` error (missing line, first refused token, or wrong count), and no calibration is returned |
| `KittiCalib.LoadedHasHomogeneousRows` | 2pathlib_calib.py:23-27 | every loaded calibration has bottom row `[0,0,0,1]` in both 4x4 matrices |
| `KittiCalib.OnlyLines245Matter` | 2pathlib_calib.py:21-27 | two records with at least six lines that agree on lines 2, 4 and 5 load to the same result |
| `KittiCalib.WrongCountOnLine5` | 2pathlib_calib.py:26-27 | a readable line 5 without exactly 12 values fails with `WrongCount(5, n)`, after lines 2 and 4 are accepted |
| `LidarScan.StripReflectance` | 2pathlib_calib.py:37-38 | succeeds exactly when the buffer length is a multiple of 4; then it gives `len/4` points, point `i` being `(a[4i], a[4i+1], a[4i+2])` |
| `LidarScan.StripInterleave` | 2pathlib_calib.py:37-38 | stripping a buffer built from points and any reflectances gives back exactly those points |
| `Projection.Project` | 2pathlib_calib.py:41-52 | one pixel and one depth per point in front of the camera, so never more than the input points |
| `Projection.VisibleAt` | 2pathlib_calib.py:46-48 | the masked camera coordinates are those of the input points at the front indices, in order |
| `Projection.ProjectKeepsFrontInOrder` | 2pathlib_calib.py:46-52 | output `k` is the pixel and camera depth of input point `idx[k]`. The indices increase, and they are exactly the points with camera `z > 0` |
| `Projection.ProjectDepthsPositive` | 2pathlib_calib.py:48-52 | every returned depth is strictly positive |
| `Projection.ProjectCount` | 2pathlib_calib.py:48-52 | pixels and depths have equal length, at most the input count, with equality exactly when every point has camera `z > 0` |
| `Projection.ProjectNothingVisible` | 2pathlib_calib.py:42-48 | no input points, or none in front of the camera, gives two empty outputs and no error |
| `Projection.CamCoordsComposes` | 2pathlib_calib.py:47 | a point's camera coordinates are `R0_rect @ (Tr_velo_to_cam @ [x, y, z, 1])` |
| `Projection.CamCoordsStayHomogeneous` | 2pathlib_calib.py:46-47 | with both bottom rows `[0,0,0,1]`, every camera-frame point keeps homogeneous coordinate 1 |
| `Projection.ProjectFiniteForPinholeRow` | 2pathlib_calib.py:49-52 | if `P2`'s third row is `[0,0,1,0]`, output pixel `k` is the first two components of `P2 @ cam` divided by the positive depth `k`, so every output pixel is finite |
| `Projection.Pinhole` | 2pathlib_calib.py:46-52 | with identity frames and intrinsics `fx, fy, cx, cy`, a point with `z > 0` projects to `(fx x/z + cx, fy y/z + cy)` with depth `z` |
| `Projection.PinholeExample` | 2pathlib_calib.py:46-52 | the point `(1, 0, 10)` with `P2 = [[1000,0,500,0],[0,1000,300,0],[0,0,1,0]]` projects to `(600, 300)` with depth 10 |
| `Projection.PerspectiveDivide` | 2pathlib_calib.py:50-51 | in place, columns 0 and 1 of every row become their quotient by column 2, and column 2 is unchanged |
| `Projection.ProjectLidarToImage` | 2pathlib_calib.py:41-52 | the method's pixels and depths are exactly the projection specified by `Project`, whose properties the lemmas above state |
| `Overlay.MaxOf` | 2pathlib_calib.py:69 | `max(depths)` is one of the depths and no depth exceeds it |
| `Overlay.InsideImage` | 2pathlib_calib.py:68-70 | a pixel passing the bounds test is finite and `int()` of its coordinates is a column and row of the image |
| `Overlay.DepthColor` | 2pathlib_calib.py:69 | red is always 0, and when `depth / max` lies in `[0, 1]` every channel is in `[0, 255]` |
| `Overlay.DepthColorMonotone` | 2pathlib_calib.py:69 | with a positive maximum, a farther point is never greener and never less blue |
| `Overlay.DepthColorEndpoints` | 2pathlib_calib.py:69 | depth 0 maps to `(0, 255, 0)` and the largest depth to `(0, 0, 255)` |
| `Overlay.DepthColorInRange` | 2pathlib_calib.py:69 | for `0 <= depth <= max` with `max > 0`, every channel is in `[0, 255]`, and green plus blue is 254 or 255 |
| `Overlay.MarkerOf` | 2pathlib_calib.py:68-70 | a point passing the bounds test is drawn at a whole pixel inside the image |
| `Overlay.OverlayPrefix` | 2pathlib_calib.py:67-70 | after `n` iterations without a raise, at most `n` circles are drawn, each centred inside the image |
| `Overlay.OverlayDrawsEveryInsidePoint` | 2pathlib_calib.py:67-70 | after `n` iterations without a raise, circle `k` is the marker of the `k`-th of those pixels that passes the bounds test, so every in-image point is drawn once, in input order |
| `Overlay.OverlaySpec` | 2pathlib_calib.py:67-70 | the loop raises exactly when some zipped point is inside the image and `max(depths)` is 0; otherwise it draws exactly the in-image points' markers, in order |
| `Overlay.FailureIsFinal` | 2pathlib_calib.py:67-70 | once an iteration of the drawing loop raises, that failure is the loop's outcome |
| `Overlay.PrefixOutcome` | 2pathlib_calib.py:67-70 | the loop fails exactly when some zipped point is inside the image and `max(depths)` is 0. Otherwise it draws at most one circle per point, each inside the image |
| `Overlay.PositiveDepthsDrawSafely` | 2pathlib_calib.py:67-70 | with positive depths the loop never fails, and every circle has a centre inside the image and a valid 8-bit colour |
| `Overlay.ProjectThenOverlay` | 2pathlib_calib.py:91-94 | overlaying the projection's output never fails and draws only valid circles inside the image |
| `Overlay.OverlayLidarOnImage` | 2pathlib_calib.py:67-70 | the loop method's result is exactly the specified overlay outcome |
| `LabelBoxes.PixelCorners` | 2pathlib_label.py:43-52 | for a non-negative scaled length, the x corners enclose the scaled centre and span the length or one pixel less; the y corners do the same with the scaled width |
| `LabelBoxes.CornersSpan` | 2pathlib_label.py:49-52 | for a non-negative pixel size, the truncated corners enclose the centre and span `size` or `size - 1` pixels, and exactly `size` when it is even |
| `LabelBoxes.PixelCornersAroundCenter` | 2pathlib_label.py:43-52 | for non-negative normalised sizes, the unclamped box encloses the scaled centre and spans the scaled length and width, or one pixel less, on both axes |
| `LabelBoxes.Clamp` | 2pathlib_label.py:54-58 | after clamping, `x1 >= 0`, `y1 >= 0`, `x2 <= W-1` and `y2 <= H-1`. Each corner only moves toward the image, and to the bound if at all. A box already within the bounds is unchanged |
| `LabelBoxes.ClampIdempotent` | 2pathlib_label.py:54-58 | clamping twice equals clamping once |
| `LabelBoxes.ClampIsOneSided` | 2pathlib_label.py:54-58 | the clamp leaves `x1` past the last column when the box lies right of the image |
| `LabelBoxes.LabelBox` | 2pathlib_label.py:35-58 | success exactly when the line has at least 10 tokens and tokens 4, 5, 7, 8, 9 parse. The class is token 0 and the corners are the clamped pixel corners of tokens 4, 5, 7, 8. Token 9 is read but unused. A failure names the first missing or refused field, in read order; an empty line fails at the class name, field 0, and only an empty line does |
| `LabelBoxes.BoxesForLabels` | 2pathlib_label.py:34-58 | one box per line, in order, when every line succeeds; otherwise the error of the first failing line, all earlier lines having succeeded |

## Left out

- File-existence checks and their messages (2pathlib_calib.py:11-13, 33-35, 56-63; 2pathlib_label.py:11-14, 21-24), and every `print`: I/O. The calibration is read from already-read lines.
- `str.split()`: lines arrive already split into tokens.
- `float()` text conversion: it is the `parse` parameter, not modelled itself.
- `np.fromfile` decoding and float32 precision: the loader starts from a buffer of reals.
- IEEE-754 rounding: all arithmetic is exact over `real`. inf, -inf and nan are one `NonFinite` value, which the pipeline never divides again.
- `int()` of an infinity or nan in the label code: label values are finite reals.
- Rendering: `cv2.imread`, `cvtColor`, `cv2.circle`, `cv2.rectangle`, `cv2.putText` and `plt` are foreign calls. The overlay returns the circles it would draw (centre and colour) instead of pixels. The label code returns the boxes instead of drawing them, and the class-name text position is not modelled.
- The module-level driver (2pathlib_calib.py:76-94) and the image/label file loop (2pathlib_label.py:6-31, 60-71): directory and file handling. `Overlay.ProjectThenOverlay` states what the driver's composition guarantees.
- 0demo.py and 2pathlib_img.py: they only list and display files.
