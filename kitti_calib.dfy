/**
 * Reading a KITTI calibration record: the camera projection matrix P2, the
 * rectifying rotation R0_rect and the LiDAR-to-camera transform
 * Tr_velo_to_cam, each on its own labelled line.
 */
module KittiCalib {
  import opened Wrappers
  import opened LinAlg

  /** One line of the record, already split on whitespace. */
  type Line = seq<Token>

  datatype Calibration = Calibration(p2: Mat34, r0Rect: Mat4, trVeloToCam: Mat4)

  /**
   * Why a record is rejected: a line index past the end (IndexError), a
   * token that `float()` refuses (ValueError; `token` counts the label as
   * token 0), or a value count that `reshape` refuses (ValueError).
   */
  datatype CalibError =
    | MissingLine(line: nat)
    | BadNumber(line: nat, token: nat)
    | WrongCount(line: nat, count: nat)

  /** `line.split()[1:]`: everything after the label. */
  function Values(line: Line): seq<Token>
  {
    if |line| == 0 then [] else line[1..]
  }

  /** `[float(x) for x in tokens]`, stopping at the first refused token. */
  function ParseValues(tokens: seq<Token>, parse: Token -> Option<real>): (r: Result<seq<real>, nat>)
    ensures r.Success? <==> forall k :: 0 <= k < |tokens| ==> parse(tokens[k]).Some?
    ensures r.Success? ==> |r.value| == |tokens|
    ensures r.Success? ==> forall k :: 0 <= k < |tokens| ==> r.value[k] == parse(tokens[k]).value
    ensures r.Failure? ==> r.error < |tokens| && parse(tokens[r.error]).None?
    ensures r.Failure? ==> forall k :: 0 <= k < r.error ==> parse(tokens[k]).Some?
  {
    if |tokens| == 0 then Success([])
    else
      match parse(tokens[0])
      case None => Failure(0)
      case Some(x) =>
        match ParseValues(tokens[1..], parse)
        case Failure(k) => Failure(k + 1)
        case Success(xs) => Success([x] + xs)
  }

  /** Every value token of `line` is a number, and there are `count` of them. */
  predicate ValidRow(line: Line, count: nat, parse: Token -> Option<real>)
  {
    |Values(line)| == count && forall k :: 0 <= k < |Values(line)| ==> parse(Values(line)[k]).Some?
  }

  /** Line `index` of the record exists and is a valid row of `count` values. */
  predicate RowOk(lines: seq<Line>, index: nat, count: nat, parse: Token -> Option<real>)
  {
    index < |lines| && ValidRow(lines[index], count, parse)
  }

  /** The values of line `index`, which must hold exactly `count` of them. */
  function ParseRow(lines: seq<Line>, index: nat, count: nat, parse: Token -> Option<real>): (r: Result<seq<real>, CalibError>)
    ensures r.Success? <==> RowOk(lines, index, count, parse)
    ensures r.Success? ==> |r.value| == count
    ensures r.Success? ==> forall k :: 0 <= k < count ==> r.value[k] == parse(lines[index][k + 1]).value
    ensures r.Failure? ==> r.error.line == index
    ensures index >= |lines| ==> r == Failure(MissingLine(index))
    ensures r.Failure? && r.error.BadNumber? ==>
      index < |lines| && 0 < r.error.token < |lines[index]| && parse(lines[index][r.error.token]).None?
    ensures index < |lines| && (forall k :: 0 <= k < |Values(lines[index])| ==> parse(Values(lines[index])[k]).Some?)
            && |Values(lines[index])| != count
            ==> r == Failure(WrongCount(index, |Values(lines[index])|))
    ensures index < |lines| && (exists k :: 0 <= k < |Values(lines[index])| && parse(Values(lines[index])[k]).None?)
            ==> r.Failure? && r.error.BadNumber?
                && forall k :: 1 <= k < r.error.token ==> parse(lines[index][k]).Some?
  {
    if |lines| <= index then Failure(MissingLine(index))
    else
      match ParseValues(Values(lines[index]), parse)
      case Failure(k) => Failure(BadNumber(index, k + 1))
      case Success(vs) => if |vs| != count then Failure(WrongCount(index, |vs|)) else Success(vs)
  }

  /**
   * `load_calibration` on the lines of an existing file: P2 from line 2,
   * R0_rect from line 4, Tr_velo_to_cam from line 5, in that order; the first
   * failure aborts the whole load.
   */
  function LoadCalibration(lines: seq<Line>, parse: Token -> Option<real>): (r: Result<Calibration, CalibError>)
    ensures r.Success? <==> RowOk(lines, 2, 12, parse) && RowOk(lines, 4, 9, parse) && RowOk(lines, 5, 12, parse)
    ensures r.Success? ==> forall i, j :: 0 <= i < 3 && 0 <= j < 4 ==>
      r.value.p2[i][j] == parse(lines[2][1 + 4 * i + j]).value
    ensures r.Success? ==> forall i, j :: 0 <= i < 4 && 0 <= j < 4 ==>
      r.value.r0Rect[i][j] == if i < 3 && j < 3 then parse(lines[4][1 + 3 * i + j]).value
                              else if i == j then 1.0 else 0.0
    ensures r.Success? ==> forall i, j :: 0 <= i < 3 && 0 <= j < 4 ==>
      r.value.trVeloToCam[i][j] == parse(lines[5][1 + 4 * i + j]).value
    ensures r.Success? ==> r.value.trVeloToCam[3] == [0.0, 0.0, 0.0, 1.0]
    ensures r.Failure? ==> r.error.line == 2 || r.error.line == 4 || r.error.line == 5
    ensures r.Failure? && r.error.line == 2 ==> !RowOk(lines, 2, 12, parse)
    ensures r.Failure? && r.error.line == 4 ==> RowOk(lines, 2, 12, parse) && !RowOk(lines, 4, 9, parse)
    ensures r.Failure? && r.error.line == 5 ==>
      RowOk(lines, 2, 12, parse) && RowOk(lines, 4, 9, parse) && !RowOk(lines, 5, 12, parse)
    ensures |lines| < 3 ==> r == Failure(MissingLine(2))
    ensures r.Failure? && r.error.line == 2 ==>
      ParseRow(lines, 2, 12, parse).Failure? && r.error == ParseRow(lines, 2, 12, parse).error
    ensures r.Failure? && r.error.line == 4 ==>
      ParseRow(lines, 4, 9, parse).Failure? && r.error == ParseRow(lines, 4, 9, parse).error
    ensures r.Failure? && r.error.line == 5 ==>
      ParseRow(lines, 5, 12, parse).Failure? && r.error == ParseRow(lines, 5, 12, parse).error
  {
    match ParseRow(lines, 2, 12, parse)
    case Failure(e) => Failure(e)
    case Success(p) =>
      match ParseRow(lines, 4, 9, parse)
      case Failure(e) => Failure(e)
      case Success(rot) =>
        match ParseRow(lines, 5, 12, parse)
        case Failure(e) => Failure(e)
        case Success(tr) =>
          Success(Calibration(
            Reshape34(p),
            Overwrite(Eye4(), Reshape33(rot), 3, 3),
            Overwrite(Eye4(), Reshape34(tr), 3, 4)))
  }

  /** Both 4x4 matrices keep the identity's bottom row `[0, 0, 0, 1]`. */
  predicate HomogeneousRows(c: Calibration)
  {
    c.r0Rect[3] == [0.0, 0.0, 0.0, 1.0] && c.trVeloToCam[3] == [0.0, 0.0, 0.0, 1.0]
  }

  /** Every loaded calibration has both bottom rows equal to `[0, 0, 0, 1]`. */
  lemma LoadedHasHomogeneousRows(lines: seq<Line>, parse: Token -> Option<real>)
    requires LoadCalibration(lines, parse).Success?
    ensures HomogeneousRows(LoadCalibration(lines, parse).value)
  {
    var c := LoadCalibration(lines, parse).value;
    assert c.r0Rect[3] == [c.r0Rect[3][0], c.r0Rect[3][1], c.r0Rect[3][2], c.r0Rect[3][3]];
  }

  /** Lines other than 2, 4 and 5 never affect the result. */
  lemma OnlyLines245Matter(a: seq<Line>, b: seq<Line>, parse: Token -> Option<real>)
    requires 6 <= |a| && 6 <= |b|
    requires a[2] == b[2] && a[4] == b[4] && a[5] == b[5]
    ensures LoadCalibration(a, parse) == LoadCalibration(b, parse)
  {
  }

  /**
   * A line 5 whose numbers are all readable but are not exactly twelve is
   * rejected as a count error on line 5, and no calibration is produced.
   */
  lemma WrongCountOnLine5(lines: seq<Line>, parse: Token -> Option<real>)
    requires RowOk(lines, 2, 12, parse) && RowOk(lines, 4, 9, parse) && 6 <= |lines|
    requires forall k :: 0 <= k < |Values(lines[5])| ==> parse(Values(lines[5])[k]).Some?
    requires |Values(lines[5])| != 12
    ensures LoadCalibration(lines, parse) == Failure(WrongCount(5, |Values(lines[5])|))
  {
  }
}
