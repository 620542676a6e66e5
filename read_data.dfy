/** `data2df`: from the log's lines to the cleaned displacement table. */
module ReadData {
  import opened Outcome
  import opened Table
  import opened Columns
  import opened SummerTime
  import opened Derived
  import opened Jumps
  import opened Cleaning

  /** Fields per line after the date and the time: the 18 named ones and a
      trailing one that `data[2:-1]` drops. */
  const FieldsPerLine: nat := 19

  /** The file has lines and each carries exactly `FieldsPerLine` fields after
      the date and the time; otherwise building the 18-column frame fails. */
  predicate ShapeOk(lines: seq<Line>)
  {
    |lines| > 0 && forall i :: 0 <= i < |lines| ==> |lines[i].fields| == FieldsPerLine
  }

  /** `data[2:-1]` per line: the named fields, the trailing field dropped. */
  function NamedFields(lines: seq<Line>): (vals: seq<seq<real>>)
    requires ShapeOk(lines)
    ensures |vals| == |lines| && WellShaped(vals)
  {
    seq(|lines|, i requires 0 <= i < |lines| => lines[i].fields[..FieldsPerLine - 1])
  }

  function Times(lines: seq<Line>): (ts: seq<int>)
    ensures |ts| == |lines|
  {
    seq(|lines|, i requires 0 <= i < |lines| => lines[i].time)
  }

  /** Both channels' jump lists are taken from the uncorrected frame, then the
      vertical corrections are applied, then the horizontal ones. */
  function CorrectBoth(df: seq<Row>): (r: seq<Row>)
    ensures |r| == |df|
  {
    var jsV := Scan(df, Vertical, |df|);
    var jsH := Scan(df, Horizontal, |df|);
    CorrectAll(CorrectAll(df, jsV, Vertical), jsH, Horizontal)
  }

  /** The whole loader on the log's lines, as a function. */
  function Load(lines: seq<Line>, doCorrect: bool): Result<seq<Row>>
  {
    if !ShapeOk(lines) then Err(ShapeMismatch)
    else
      var times := Times(lines);
      if CountInWindow(times, |times|) < 2 then Err(SummerIndex)
      else
        var df := Frame(NamedFields(lines), Shifted(times, SummerFlags(times)), LogGroups);
        if !doCorrect then Ok(KeepPlausible(df))
        else
          match Trim(CorrectBoth(df))
          case Err(e) => Err(e)
          case Ok(t) => Ok(KeepPlausible(t))
  }

  /**
    `data2df(do_correct)`: the grouping loops, the summer-time mask, the
    derived columns, and with `doCorrect` the two detection loops, the two
    correction loops and the trimming, then the humidity filter.
  */
  method Data2Df(lines: seq<Line>, doCorrect: bool) returns (r: Result<seq<Row>>)
    ensures r == Load(lines, doCorrect)
  {
    if !ShapeOk(lines) {
      return Err(ShapeMismatch);
    }
    var vals := NamedFields(lines);
    var rvCols, tCols := GroupByKind(ColNames);
    var tFront, rvFront, tBack, rvBack := GroupByPlacement(ColNames);
    var groups := Groups(rvCols, tCols, rvFront, rvBack, tFront, tBack);
    LogGroupsValues();
    var times := Times(lines);
    var mask := SummerMask(times);
    if mask.Err? {
      return Err(mask.error);
    }
    var df := Frame(vals, Shifted(times, mask.value), groups);
    if doCorrect {
      var shVer := DetectJumps(df, Vertical);
      var shHor := DetectJumps(df, Horizontal);
      df := ApplyCorrections(df, shVer, Vertical);
      df := ApplyCorrections(df, shHor, Horizontal);
      var trimmed := Trim(df);
      if trimmed.Err? {
        return Err(trimmed.error);
      }
      df := trimmed.value;
    }
    r := Ok(KeepPlausible(df));
  }

  /** The loader fails exactly on a malformed file, on fewer than two
      summer-time samples, and, when correcting, on fewer than 31 lines. */
  lemma LoadFails(lines: seq<Line>, doCorrect: bool)
    ensures Load(lines, doCorrect) == Err(ShapeMismatch) <==> !ShapeOk(lines)
    ensures Load(lines, doCorrect) == Err(SummerIndex) <==>
              ShapeOk(lines) && CountInWindow(Times(lines), |lines|) < 2
    ensures Load(lines, doCorrect) == Err(TrimIndex) <==>
              ShapeOk(lines) && CountInWindow(Times(lines), |lines|) >= 2 && doCorrect && |lines| <= NDrop + Midnight
  {
  }

  /** Every row the loader returns has a mean humidity below 100 %, and it
      returns at most as many rows as there are lines (14 fewer when
      correcting). */
  lemma LoadRows(lines: seq<Line>, doCorrect: bool)
    requires Load(lines, doCorrect).Ok?
    ensures forall x :: x in Load(lines, doCorrect).value ==> x.rvAvg < RVLimit
    ensures |Load(lines, doCorrect).value| <= |lines| - (if doCorrect then NDrop else 0)
  {
  }
}
