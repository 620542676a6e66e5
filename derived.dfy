/** The columns the loader derives from a line's named fields and the
    normalised timestamps: millimetre displacements, elapsed minutes and days,
    group means of humidity and temperature, and first differences. */
module Derived {
  import opened Table
  import opened Columns

  /** `-x * 10`: the logged relative shift (centimetres) in millimetres, with
      the sign flipped so that expansion of the leather reads as an increase.
      Dividing by minus ten gives the logged value back. */
  function Scaled(x: real): (mm: real)
    ensures x == -mm / 10.0
    ensures mm < 0.0 <==> x > 0.0
  {
    -x * 10.0
  }

  /** Minutes elapsed since the first sample (`total_seconds() / 60`). */
  function Minutes(t: int, t0: int): real
  {
    (t - t0) as real / 60.0
  }

  /** `minutes / (24 * 60)`. */
  function Days(minutes: real): real
  {
    minutes / 1440.0
  }

  /** `concatenate(([0.0], x[1:] - x[:-1]))`: the change from the previous
      sample, zero for the first one. */
  function FirstDiff(xs: seq<real>): (d: seq<real>)
    requires |xs| > 0
    ensures |d| == |xs| && d[0] == 0.0
  {
    [0.0] + seq(|xs| - 1, i requires 0 <= i < |xs| - 1 => xs[i + 1] - xs[i])
  }

  function Sum(xs: seq<real>): real
  {
    if |xs| == 0 then 0.0 else Sum(xs[..|xs| - 1]) + xs[|xs| - 1]
  }

  /** Adding up the differences recovers the series: `x[k] = x[0] + d[1] + ... + d[k]`. */
  lemma {:induction false} FirstDiffTelescopes(xs: seq<real>, k: nat)
    requires k < |xs|
    ensures xs[0] + Sum(FirstDiff(xs)[1..k + 1]) == xs[k]
  {
    var d := FirstDiff(xs);
    if k > 0 {
      FirstDiffTelescopes(xs, k - 1);
      assert d[1..k + 1][..k - 1] == d[1..k];
      assert d[k] == xs[k] - xs[k - 1];
    }
  }

  /** Sum of the fields of `v` named by `cols`. */
  function SumOf(v: seq<real>, cols: seq<Column>): real
    requires |v| == 18
  {
    if |cols| == 0 then 0.0
    else SumOf(v, cols[..|cols| - 1]) + v[Position(cols[|cols| - 1])]
  }

  /** The sum over a short list of columns, written out. */
  lemma SumOf3(v: seq<real>, a: Column, b: Column, c: Column)
    requires |v| == 18
    ensures SumOf(v, [a, b, c]) == v[Position(a)] + v[Position(b)] + v[Position(c)]
  {
    assert [a, b, c][..2] == [a, b];
    assert SumOf(v, [a, b, c]) == SumOf(v, [a, b]) + v[Position(c)];
    assert [a, b][..1] == [a];
    assert SumOf(v, [a, b]) == SumOf(v, [a]) + v[Position(b)];
    assert [a][..0] == [];
    assert SumOf(v, [a]) == SumOf(v, []) + v[Position(a)];
  }

  lemma SumOf4(v: seq<real>, a: Column, b: Column, c: Column, d: Column)
    requires |v| == 18
    ensures SumOf(v, [a, b, c, d]) == v[Position(a)] + v[Position(b)] + v[Position(c)] + v[Position(d)]
  {
    assert [a, b, c, d][..3] == [a, b, c];
    assert SumOf(v, [a, b, c, d]) == SumOf(v, [a, b, c]) + v[Position(d)];
    assert [a, b, c][..2] == [a, b];
    assert SumOf(v, [a, b, c]) == SumOf(v, [a, b]) + v[Position(c)];
    assert [a, b][..1] == [a];
    assert SumOf(v, [a, b]) == SumOf(v, [a]) + v[Position(b)];
    assert [a][..0] == [];
    assert SumOf(v, [a]) == SumOf(v, []) + v[Position(a)];
  }

  lemma SumOf8(v: seq<real>, a: Column, b: Column, c: Column, d: Column, e: Column, f: Column, g: Column, h: Column)
    requires |v| == 18
    ensures SumOf(v, [a, b, c, d, e, f, g, h]) == v[Position(a)] + v[Position(b)] + v[Position(c)] + v[Position(d)] + v[Position(e)] + v[Position(f)] + v[Position(g)] + v[Position(h)]
  {
    assert [a, b, c, d, e, f, g, h][..7] == [a, b, c, d, e, f, g];
    assert SumOf(v, [a, b, c, d, e, f, g, h]) == SumOf(v, [a, b, c, d, e, f, g]) + v[Position(h)];
    assert [a, b, c, d, e, f, g][..6] == [a, b, c, d, e, f];
    assert SumOf(v, [a, b, c, d, e, f, g]) == SumOf(v, [a, b, c, d, e, f]) + v[Position(g)];
    assert [a, b, c, d, e, f][..5] == [a, b, c, d, e];
    assert SumOf(v, [a, b, c, d, e, f]) == SumOf(v, [a, b, c, d, e]) + v[Position(f)];
    assert [a, b, c, d, e][..4] == [a, b, c, d];
    assert SumOf(v, [a, b, c, d, e]) == SumOf(v, [a, b, c, d]) + v[Position(e)];
    assert [a, b, c, d][..3] == [a, b, c];
    assert SumOf(v, [a, b, c, d]) == SumOf(v, [a, b, c]) + v[Position(d)];
    assert [a, b, c][..2] == [a, b];
    assert SumOf(v, [a, b, c]) == SumOf(v, [a, b]) + v[Position(c)];
    assert [a, b][..1] == [a];
    assert SumOf(v, [a, b]) == SumOf(v, [a]) + v[Position(b)];
    assert [a][..0] == [];
    assert SumOf(v, [a]) == SumOf(v, []) + v[Position(a)];
  }

  /** `df[cols].mean(axis=1)` on one row. */
  function MeanOf(v: seq<real>, cols: seq<Column>): real
    requires |v| == 18 && |cols| > 0
  {
    SumOf(v, cols) / |cols| as real
  }

  /** The six column lists the loader averages over. */
  datatype Groups = Groups(rv: seq<Column>, t: seq<Column>,
                           rvFront: seq<Column>, rvBack: seq<Column>,
                           tFront: seq<Column>, tBack: seq<Column>)

  predicate NonEmptyGroups(g: Groups)
  {
    |g.rv| > 0 && |g.t| > 0 && |g.rvFront| > 0 && |g.rvBack| > 0 && |g.tFront| > 0 && |g.tBack| > 0
  }

  /** The six lists the loader averages over: eight humidity and eight
      temperature columns, three front sensors, and four back sensors (sensor
      7, listed on both sides, lands in front only). */
  const LogGroups: Groups :=
    Groups([RV(1), RV(2), RV(3), RV(4), RV(5), RV(6), RV(7), RV(8)],
           [T(1), T(2), T(3), T(4), T(5), T(6), T(7), T(8)],
           [RV(1), RV(4), RV(7)], [RV(2), RV(3), RV(5), RV(6)],
           [T(1), T(4), T(7)], [T(2), T(3), T(5), T(6)])

  /** The two grouping loops, run on the log's column names, build exactly
      these lists. */
  lemma LogGroupsValues()
    ensures LogGroups == Groups(Selected(ColNames, |ColNames|, "RV"), Selected(ColNames, |ColNames|, "T"),
                                Placed(ColNames, |ColNames|, 1), Placed(ColNames, |ColNames|, 3),
                                Placed(ColNames, |ColNames|, 0), Placed(ColNames, |ColNames|, 2))
    ensures NonEmptyGroups(LogGroups)
  {
    HumidityColumnsOfLog();
    TemperatureColumnsOfLog();
    RVFrontOfLog();
    RVBackOfLog();
    TFrontOfLog();
    TBackOfLog();
  }

  /** Every line carries the 18 named fields. */
  predicate WellShaped(vals: seq<seq<real>>)
  {
    forall i :: 0 <= i < |vals| ==> |vals[i]| == 18
  }

  /** The `ver_rel` (`ch` vertical) or `hor_rel` column in millimetres. */
  function Displacements(vals: seq<seq<real>>, ch: Channel): (xs: seq<real>)
    requires WellShaped(vals)
    ensures |xs| == |vals|
  {
    seq(|vals|, i requires 0 <= i < |vals| => Scaled(vals[i][if ch == Vertical then 0 else 1]))
  }

  /** The `minutes_diff` column: minutes since the first sample. */
  function ElapsedMinutes(times: seq<int>): (ms: seq<real>)
    requires |times| > 0
    ensures |ms| == |times|
  {
    seq(|times|, i requires 0 <= i < |times| => Minutes(times[i], times[0]))
  }

  /** Row `i` of the frame, given its whole displacement and minute columns. */
  function FrameRow(vals: seq<seq<real>>, times: seq<int>, g: Groups, i: nat): Row
    requires |vals| == |times| > 0 && WellShaped(vals) && NonEmptyGroups(g) && i < |vals|
  {
    var vers := Displacements(vals, Vertical);
    var hors := Displacements(vals, Horizontal);
    var mins := ElapsedMinutes(times);
    Row(times[i], vers[i], hors[i], vals[i][2..], mins[i], Days(mins[i]),
        MeanOf(vals[i], g.rv), MeanOf(vals[i], g.rvFront), MeanOf(vals[i], g.rvBack),
        MeanOf(vals[i], g.t), MeanOf(vals[i], g.tFront), MeanOf(vals[i], g.tBack),
        FirstDiff(vers)[i], FirstDiff(hors)[i], FirstDiff(mins)[i])
  }

  /**
    The data frame before jump correction: named fields `vals` (one list of 18
    per line), normalised timestamps `times`, and the columns derived from
    them with the group lists `g`.
  */
  function Frame(vals: seq<seq<real>>, times: seq<int>, g: Groups): (df: seq<Row>)
    requires |vals| == |times| > 0 && WellShaped(vals) && NonEmptyGroups(g)
    ensures |df| == |vals|
  {
    seq(|vals|, i requires 0 <= i < |vals| => FrameRow(vals, times, g, i))
  }

  /** The first row is the origin of time, and its differences are zero. */
  lemma FrameStart(vals: seq<seq<real>>, times: seq<int>, g: Groups)
    requires |vals| == |times| > 0 && WellShaped(vals) && NonEmptyGroups(g)
    ensures Frame(vals, times, g)[0].minutes == 0.0 && Frame(vals, times, g)[0].days == 0.0
    ensures Frame(vals, times, g)[0].dver == 0.0 && Frame(vals, times, g)[0].dhor == 0.0
    ensures Frame(vals, times, g)[0].intervalMins == 0.0
  {
  }

  /** Each later row's differences are the change from the row before, and the
      sampling interval is the gap between the two timestamps in minutes. */
  lemma FrameDiffs(vals: seq<seq<real>>, times: seq<int>, g: Groups, i: nat)
    requires |vals| == |times| > 0 && WellShaped(vals) && NonEmptyGroups(g)
    requires 0 < i < |vals|
    ensures Frame(vals, times, g)[i].dver == Frame(vals, times, g)[i].ver - Frame(vals, times, g)[i - 1].ver
    ensures Frame(vals, times, g)[i].dhor == Frame(vals, times, g)[i].hor - Frame(vals, times, g)[i - 1].hor
    ensures Frame(vals, times, g)[i].intervalMins == (times[i] - times[i - 1]) as real / 60.0
  {
  }

  /** Elapsed days follow the timestamps' order. */
  lemma FrameDaysOrder(vals: seq<seq<real>>, times: seq<int>, g: Groups, i: nat, j: nat)
    requires |vals| == |times| > 0 && WellShaped(vals) && NonEmptyGroups(g)
    requires i < |vals| && j < |vals|
    ensures Frame(vals, times, g)[i].days <= Frame(vals, times, g)[j].days <==> times[i] <= times[j]
    ensures Frame(vals, times, g)[i].days * 1440.0 == Frame(vals, times, g)[i].minutes
  {
  }

  // With the log's lists each mean is over fixed fields of a line: field 0
  // is `ver_rel`, field 1 `hor_rel`, field `2n` is `Tn` and field `2n + 1` is `RVn`.

  /** The `rv` mean averages all eight humidity sensors. */
  lemma LogMeanRv(v: seq<real>)
    requires |v| == 18
    ensures |LogGroups.rv| > 0 && MeanOf(v, LogGroups.rv) == (v[3] + v[5] + v[7] + v[9] + v[11] + v[13] + v[15] + v[17]) / 8.0
  {
    SumOf8(v, RV(1), RV(2), RV(3), RV(4), RV(5), RV(6), RV(7), RV(8));
  }

  /** The `t` mean averages all eight temperature sensors. */
  lemma LogMeanT(v: seq<real>)
    requires |v| == 18
    ensures |LogGroups.t| > 0 && MeanOf(v, LogGroups.t) == (v[2] + v[4] + v[6] + v[8] + v[10] + v[12] + v[14] + v[16]) / 8.0
  {
    SumOf8(v, T(1), T(2), T(3), T(4), T(5), T(6), T(7), T(8));
  }

  /** The `rvFront` mean averages humidity sensors 1, 4 and 7. */
  lemma LogMeanRvFront(v: seq<real>)
    requires |v| == 18
    ensures |LogGroups.rvFront| > 0 && MeanOf(v, LogGroups.rvFront) == (v[3] + v[9] + v[15]) / 3.0
  {
    SumOf3(v, RV(1), RV(4), RV(7));
  }

  /** The `rvBack` mean averages humidity sensors 2, 3, 5 and 6: sensor 7 is left out. */
  lemma LogMeanRvBack(v: seq<real>)
    requires |v| == 18
    ensures |LogGroups.rvBack| > 0 && MeanOf(v, LogGroups.rvBack) == (v[5] + v[7] + v[11] + v[13]) / 4.0
  {
    SumOf4(v, RV(2), RV(3), RV(5), RV(6));
  }

  /** The `tFront` mean averages temperature sensors 1, 4 and 7. */
  lemma LogMeanTFront(v: seq<real>)
    requires |v| == 18
    ensures |LogGroups.tFront| > 0 && MeanOf(v, LogGroups.tFront) == (v[2] + v[8] + v[14]) / 3.0
  {
    SumOf3(v, T(1), T(4), T(7));
  }

  /** The `tBack` mean averages temperature sensors 2, 3, 5 and 6: sensor 7 is left out. */
  lemma LogMeanTBack(v: seq<real>)
    requires |v| == 18
    ensures |LogGroups.tBack| > 0 && MeanOf(v, LogGroups.tBack) == (v[4] + v[6] + v[10] + v[12]) / 4.0
  {
    SumOf4(v, T(2), T(3), T(5), T(6));
  }

  /** The displacement at any row is the first row's value plus the
      differences up to it, on either channel: the difference column loses
      nothing. */
  lemma FrameTelescopes(vals: seq<seq<real>>, times: seq<int>, g: Groups, ch: Channel, k: nat)
    requires |vals| == |times| > 0 && WellShaped(vals) && NonEmptyGroups(g)
    requires k < |vals|
    ensures Rel(Frame(vals, times, g)[0], ch) + Sum(seq(k, j requires 0 <= j < k => Diff(Frame(vals, times, g)[j + 1], ch)))
              == Rel(Frame(vals, times, g)[k], ch)
  {
    var df := Frame(vals, times, g);
    var xs := Displacements(vals, ch);
    FirstDiffTelescopes(xs, k);
    assert seq(k, j requires 0 <= j < k => Diff(df[j + 1], ch)) == FirstDiff(xs)[1..k + 1];
  }
}
