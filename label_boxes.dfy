/**
 * The 2D box drawn for one label line: class name, normalised centre and
 * size read from fixed token positions, scaled to pixels, turned into
 * corners with Python's `int()` and clamped toward the image.
 */
module LabelBoxes {
  import opened Wrappers
  import opened Numerics

  /**
   * Why a label line aborts the loop: a token position past the end
   * (IndexError) or a token `float()` refuses (ValueError).
   */
  datatype LabelError = MissingField(index: nat) | BadNumber(index: nat)

  /** Corners `(x1, y1)` top-left and `(x2, y2)` bottom-right, in pixels. */
  datatype Corners = Corners(x1: int, y1: int, x2: int, y2: int)

  datatype Box = Box(className: Token, corners: Corners)

  /** `float(label_parts[index])`. */
  function Field(parts: seq<Token>, index: nat, parse: Token -> Option<real>): Result<real, LabelError>
  {
    if |parts| <= index then Failure(MissingField(index))
    else match parse(parts[index])
      case None => Failure(BadNumber(index))
      case Some(x) => Success(x)
  }

  /** The token positions read as numbers, in the order the source reads them. */
  predicate NumericField(index: nat)
  {
    index == 4 || index == 5 || index == 7 || index == 8 || index == 9
  }

  /**
   * The corners before clamping: centre and size scaled to whole pixels,
   * then `int(centre - size / 2)` and `int(centre + size / 2)`. The x pair
   * uses the length (scaled by the width), the y pair the width (scaled by
   * the height). For a non-negative scaled size each pair encloses its
   * centre and spans the size, or one pixel less.
   */
  function PixelCorners(xNorm: real, yNorm: real, lengthNorm: real, widthNorm: real, imgWidth: nat, imgHeight: nat): (c: Corners)
    ensures var xCenter := Trunc(xNorm * imgWidth as real);
            var length := Trunc(lengthNorm * imgWidth as real);
            length >= 0 ==> c.x1 <= xCenter <= c.x2 && length - 1 <= c.x2 - c.x1 <= length
    ensures var yCenter := Trunc(yNorm * imgHeight as real);
            var width := Trunc(widthNorm * imgHeight as real);
            width >= 0 ==> c.y1 <= yCenter <= c.y2 && width - 1 <= c.y2 - c.y1 <= width
  {
    var xCenter := Trunc(xNorm * imgWidth as real);
    var yCenter := Trunc(yNorm * imgHeight as real);
    var length := Trunc(lengthNorm * imgWidth as real);
    var width := Trunc(widthNorm * imgHeight as real);
    CornersSpan(xCenter, length);
    CornersSpan(yCenter, width);
    Corners(Trunc(xCenter as real - length as real / 2.0), Trunc(yCenter as real - width as real / 2.0),
            Trunc(xCenter as real + length as real / 2.0), Trunc(yCenter as real + width as real / 2.0))
  }

  /**
   * Corners drawn around a truncated centre `center` for a truncated size
   * `size`: for a non-negative size they enclose the centre and span `size`
   * or `size - 1` pixels, and exactly `size` when it is even.
   */
  lemma {:induction false} CornersSpan(center: int, size: int)
    ensures var lo := Trunc(center as real - size as real / 2.0);
            var hi := Trunc(center as real + size as real / 2.0);
            size >= 0 ==>
            && lo <= center <= hi
            && size - 1 <= hi - lo <= size
            && (size % 2 == 0 ==> hi - lo == size)
  {
    if size >= 0 {
      var half := size as real / 2.0;
      var h := size / 2;
      TruncMonotone(center as real - half, center as real);
      TruncMonotone(center as real, center as real + half);
      TruncOfInt(center);
      if size % 2 == 0 {
        assert half == h as real;
        TruncOfInt(center - h);
        TruncOfInt(center + h);
        assert center as real - half == (center - h) as real;
        assert center as real + half == (center + h) as real;
      } else {
        assert half == h as real + 0.5;
        TruncHalf(center - h - 1);
        TruncHalf(center + h);
        assert center as real - half == (center - h - 1) as real + 0.5;
        assert center as real + half == (center + h) as real + 0.5;
      }
    }
  }

  /**
   * For non-negative normalised sizes the unclamped box encloses the scaled
   * centre and spans the scaled size, or one pixel less, on both axes.
   */
  lemma PixelCornersAroundCenter(xNorm: real, yNorm: real, lengthNorm: real, widthNorm: real, imgWidth: nat, imgHeight: nat)
    requires lengthNorm >= 0.0 && widthNorm >= 0.0
    ensures var c := PixelCorners(xNorm, yNorm, lengthNorm, widthNorm, imgWidth, imgHeight);
            var xCenter := Trunc(xNorm * imgWidth as real);
            var yCenter := Trunc(yNorm * imgHeight as real);
            var length := Trunc(lengthNorm * imgWidth as real);
            var width := Trunc(widthNorm * imgHeight as real);
            && c.x1 <= xCenter <= c.x2 && length - 1 <= c.x2 - c.x1 <= length
            && c.y1 <= yCenter <= c.y2 && width - 1 <= c.y2 - c.y1 <= width
  {
    assert lengthNorm * imgWidth as real >= 0.0 && widthNorm * imgHeight as real >= 0.0;
  }

  /** A box whose corners already satisfy the four bounds the clamp enforces. */
  predicate WithinClamp(c: Corners, imgWidth: nat, imgHeight: nat)
  {
    0 <= c.x1 && 0 <= c.y1 && c.x2 <= imgWidth - 1 && c.y2 <= imgHeight - 1
  }

  /** `max(0, x1)`, `max(0, y1)`, `min(W - 1, x2)`, `min(H - 1, y2)`. */
  function Clamp(c: Corners, imgWidth: nat, imgHeight: nat): (r: Corners)
    ensures WithinClamp(r, imgWidth, imgHeight)
    ensures WithinClamp(c, imgWidth, imgHeight) ==> r == c
    ensures r.x1 >= c.x1 && r.y1 >= c.y1 && r.x2 <= c.x2 && r.y2 <= c.y2
    ensures (r.x1 == c.x1 || r.x1 == 0) && (r.y1 == c.y1 || r.y1 == 0)
    ensures (r.x2 == c.x2 || r.x2 == imgWidth - 1) && (r.y2 == c.y2 || r.y2 == imgHeight - 1)
  {
    Corners(if c.x1 < 0 then 0 else c.x1, if c.y1 < 0 then 0 else c.y1,
            if c.x2 > imgWidth - 1 then imgWidth - 1 else c.x2,
            if c.y2 > imgHeight - 1 then imgHeight - 1 else c.y2)
  }

  /** Clamping twice is clamping once. */
  lemma ClampIdempotent(c: Corners, imgWidth: nat, imgHeight: nat)
    ensures Clamp(Clamp(c, imgWidth, imgHeight), imgWidth, imgHeight) == Clamp(c, imgWidth, imgHeight)
  {
  }

  /**
   * The clamp bounds each corner from one side only: a box right of a
   * 100-pixel-wide image keeps an `x1` past the last column.
   */
  lemma ClampIsOneSided()
    ensures Clamp(Corners(150, 10, 250, 20), 100, 100).x1 == 150
  {
  }

  /**
   * The body of the label loop in `2pathlib_label.py` for one label line:
   * read the fields, scale them to pixels, and clamp the box.
   */
  function LabelBox(parts: seq<Token>, parse: Token -> Option<real>, imgWidth: nat, imgHeight: nat): (r: Result<Box, LabelError>)
    ensures r.Success? <==> 10 <= |parts| && forall i: nat :: NumericField(i) ==> parse(parts[i]).Some?
    ensures r.Success? ==> r.value.className == parts[0]
    ensures r.Success? ==> r.value.corners == Clamp(PixelCorners(parse(parts[4]).value, parse(parts[5]).value,
                                                                 parse(parts[7]).value, parse(parts[8]).value,
                                                                 imgWidth, imgHeight), imgWidth, imgHeight)
    ensures r.Failure? && r.error.MissingField? ==> |parts| <= r.error.index
    ensures r.Failure? && r.error.BadNumber? ==> NumericField(r.error.index) && r.error.index < |parts| && parse(parts[r.error.index]).None?
    ensures r.Failure? ==> r.error.index == 0 || NumericField(r.error.index)
    ensures r.Failure? ==> forall i: nat :: NumericField(i) && i < r.error.index ==> i < |parts| && parse(parts[i]).Some?
    ensures |parts| < 10 ==> r.Failure?
    ensures |parts| == 0 <==> r == Failure(MissingField(0))
  {
    if |parts| == 0 then Failure(MissingField(0))
    else
      var className := parts[0];
      match Field(parts, 4, parse)
      case Failure(e) => Failure(e)
      case Success(xCenter) =>
        match Field(parts, 5, parse)
        case Failure(e) => Failure(e)
        case Success(yCenter) =>
          match Field(parts, 7, parse)
          case Failure(e) => Failure(e)
          case Success(length) =>
            match Field(parts, 8, parse)
            case Failure(e) => Failure(e)
            case Success(width) =>
              match Field(parts, 9, parse)
              case Failure(e) => Failure(e)
              case Success(_) =>
                Success(Box(className, Clamp(PixelCorners(xCenter, yCenter, length, width, imgWidth, imgHeight),
                                             imgWidth, imgHeight)))
  }

  /**
   * The loop over the lines of a label file: one box per line, in order; the
   * first line that raises aborts the loop with its error.
   */
  method BoxesForLabels(labels: seq<seq<Token>>, parse: Token -> Option<real>, imgWidth: nat, imgHeight: nat)
    returns (r: Result<seq<Box>, LabelError>)
    ensures r.Success? <==> forall i :: 0 <= i < |labels| ==> LabelBox(labels[i], parse, imgWidth, imgHeight).Success?
    ensures r.Success? ==> |r.value| == |labels|
    ensures r.Success? ==> forall i :: 0 <= i < |labels| ==> r.value[i] == LabelBox(labels[i], parse, imgWidth, imgHeight).value
    ensures r.Failure? ==> exists i :: (0 <= i < |labels|
      && LabelBox(labels[i], parse, imgWidth, imgHeight) == Failure(r.error)
      && forall j :: 0 <= j < i ==> LabelBox(labels[j], parse, imgWidth, imgHeight).Success?)
  {
    var boxes := [];
    for i := 0 to |labels|
      invariant |boxes| == i
      invariant forall j :: 0 <= j < i ==> LabelBox(labels[j], parse, imgWidth, imgHeight) == Success(boxes[j])
    {
      var box := LabelBox(labels[i], parse, imgWidth, imgHeight);
      if box.Failure? {
        return Failure(box.error);
      }
      boxes := boxes + [box.value];
    }
    r := Success(boxes);
  }
}
