/** The last cleaning steps: dropping the irregular start of the log,
    re-baselining the time and displacement columns, and discarding rows
    with an implausible mean humidity. */
module Cleaning {
  import opened Outcome
  import opened Table

  /** Rows dropped at the start, where the sampling interval is irregular. */
  const NDrop: nat := 14

  /** The row of the trimmed table that is the first midnight. */
  const Midnight: nat := 16

  /** Every row minus the first row in `days`, `minutes`, `ver` and `hor`. */
  function Rebased(t: seq<Row>): (r: seq<Row>)
    requires |t| > 0
    ensures |r| == |t|
  {
    seq(|t|, i requires 0 <= i < |t| =>
      t[i].(days := t[i].days - t[0].days, minutes := t[i].minutes - t[0].minutes,
            ver := t[i].ver - t[0].ver, hor := t[i].hor - t[0].hor))
  }

  /** `days` made zero at row `Midnight`. */
  function DaysFromMidnight(t: seq<Row>): (r: seq<Row>)
    requires |t| > Midnight
    ensures |r| == |t|
  {
    seq(|t|, i requires 0 <= i < |t| => t[i].(days := t[i].days - t[Midnight].days))
  }

  /**
    The `do_correct` trimming: drop the first `NDrop` rows, re-baseline, and
    put day zero at trimmed row `Midnight`. With `NDrop` rows or fewer,
    `iloc[0]` fails; with fewer than `NDrop + Midnight + 1`, `values[16]` does:
    both end in `Err(TrimIndex)`.
  */
  function Trim(df: seq<Row>): (r: Result<seq<Row>>)
    ensures r.Err? <==> |df| <= NDrop + Midnight
    ensures r.Err? ==> r.error == TrimIndex
    ensures r.Ok? ==> |r.value| == |df| - NDrop
  {
    if |df| <= NDrop then Err(TrimIndex)
    else
      var t := Rebased(df[NDrop..]);
      if |t| <= Midnight then Err(TrimIndex)
      else Ok(DaysFromMidnight(t))
  }

  /** Row `i` of the trimmed table is row `i + 14` of the input with its time
      measured from the first kept row (minutes) and from the midnight row
      (days), and its displacements from the first kept row; every other
      column is kept. */
  lemma TrimRows(df: seq<Row>, i: nat)
    requires |df| > NDrop + Midnight && i < |df| - NDrop
    ensures var r := Trim(df).value;
      && r[i].days == df[i + NDrop].days - df[NDrop + Midnight].days
      && r[i].minutes == df[i + NDrop].minutes - df[NDrop].minutes
      && r[i].ver == df[i + NDrop].ver - df[NDrop].ver
      && r[i].hor == df[i + NDrop].hor - df[NDrop].hor
      && r[i].(days := df[i + NDrop].days, minutes := df[i + NDrop].minutes,
               ver := df[i + NDrop].ver, hor := df[i + NDrop].hor) == df[i + NDrop]
  {
  }

  /** The first kept row is the origin of minutes and displacements, and the
      midnight row the origin of days; differences between rows are kept. */
  lemma TrimOrigins(df: seq<Row>, i: nat, j: nat)
    requires |df| > NDrop + Midnight && i < |df| - NDrop && j < |df| - NDrop
    ensures Trim(df).value[0].minutes == 0.0 && Trim(df).value[0].ver == 0.0 && Trim(df).value[0].hor == 0.0
    ensures Trim(df).value[Midnight].days == 0.0
    ensures Trim(df).value[i].ver - Trim(df).value[j].ver == df[i + NDrop].ver - df[j + NDrop].ver
    ensures Trim(df).value[i].hor - Trim(df).value[j].hor == df[i + NDrop].hor - df[j + NDrop].hor
    ensures Trim(df).value[i].minutes - Trim(df).value[j].minutes == df[i + NDrop].minutes - df[j + NDrop].minutes
    ensures Trim(df).value[i].days - Trim(df).value[j].days == df[i + NDrop].days - df[j + NDrop].days
  {
  }

  /** Mean humidity limit: rows at or above it are discarded. */
  const RVLimit: real := 100.0

  /** `df[df['RV_avg'] < 100]`: the rows whose mean humidity is below the
      limit, in their original order. */
  function KeepPlausible(df: seq<Row>): (r: seq<Row>)
    ensures |r| <= |df|
    ensures forall x :: x in r ==> x in df && x.rvAvg < RVLimit
  {
    if |df| == 0 then []
    else KeepPlausible(df[..|df| - 1]) + (if df[|df| - 1].rvAvg < RVLimit then [df[|df| - 1]] else [])
  }

  /** No row below the limit is lost. */
  lemma {:induction false} KeepPlausibleKeeps(df: seq<Row>, x: Row)
    requires x in df && x.rvAvg < RVLimit
    ensures x in KeepPlausible(df)
  {
    var last := df[|df| - 1];
    if x != last {
      assert df == df[..|df| - 1] + [last];
      KeepPlausibleKeeps(df[..|df| - 1], x);
    }
  }

  /** Filtering a table split in two filters each part: the order of the rows
      is kept. */
  lemma {:induction false} KeepPlausibleAppend(a: seq<Row>, b: seq<Row>)
    ensures KeepPlausible(a + b) == KeepPlausible(a) + KeepPlausible(b)
  {
    if |b| == 0 {
      assert a + b == a;
    } else {
      assert (a + b)[..|a + b| - 1] == a + b[..|b| - 1];
      KeepPlausibleAppend(a, b[..|b| - 1]);
    }
  }

  /** Filtering twice is filtering once. */
  lemma {:induction false} KeepPlausibleIdempotent(df: seq<Row>)
    ensures KeepPlausible(KeepPlausible(df)) == KeepPlausible(df)
  {
    if |df| > 0 {
      var rest := KeepPlausible(df[..|df| - 1]);
      KeepPlausibleIdempotent(df[..|df| - 1]);
      if df[|df| - 1].rvAvg < RVLimit {
        KeepPlausibleAppend(rest, [df[|df| - 1]]);
        assert KeepPlausible([df[|df| - 1]]) == [df[|df| - 1]] by {
          assert [df[|df| - 1]][..0] == [];
        }
      } else {
        assert KeepPlausible(df) == rest;
      }
    }
  }
}
