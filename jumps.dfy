/** Detection of, and correction for, the jumps a device reset leaves in the
    displacement series: after a reset the logger reads close to zero again,
    so the series drops by roughly the value it had just before. */
module Jumps {
  import opened Table

  /** `ver_cut = 0.25` and `hor_cut = 0.15` (millimetres). */
  function Cut(ch: Channel): (c: real)
    ensures c > 0.0
  {
    match ch
    case Vertical => 0.25
    case Horizontal => 0.15
  }

  /** One entry of `sh_ver` / `sh_hor`: the day of the sample before the reset
      and the displacement it had, which is the size of the jump. */
  datatype Jump = Jump(day: real, size: real)

  /** The detection test at row `i`: the step from the previous sample exceeds
      the cut while the reading itself is within the cut of zero. */
  predicate Flagged(df: seq<Row>, ch: Channel, i: nat)
    requires i < |df|
  {
    Abs(Diff(df[i], ch)) > Cut(ch) && Abs(Rel(df[i], ch)) < Cut(ch)
  }

  /** `iloc[i - 1]`: the previous row, which for `i = 0` is the last row
      (a negative position counts from the end). */
  function Prev(df: seq<Row>, i: nat): (p: nat)
    requires i < |df|
    ensures p < |df|
  {
    if i == 0 then |df| - 1 else i - 1
  }

  /** The entry the scan appends for a flagged row `i`. */
  function AnchorAt(df: seq<Row>, ch: Channel, i: nat): Jump
    requires i < |df|
  {
    Jump(df[Prev(df, i)].days, Rel(df[Prev(df, i)], ch))
  }

  /** The list the scan has built after rows `0 .. k - 1`. */
  function Scan(df: seq<Row>, ch: Channel, k: nat): (js: seq<Jump>)
    requires k <= |df|
    ensures |js| <= k
  {
    if k == 0 then []
    else Scan(df, ch, k - 1) + (if Flagged(df, ch, k - 1) then [AnchorAt(df, ch, k - 1)] else [])
  }

  /** One of the two detection loops: every row is tested in order and the
      anchor of each flagged row is appended. */
  method DetectJumps(df: seq<Row>, ch: Channel) returns (js: seq<Jump>)
    ensures js == Scan(df, ch, |df|)
  {
    js := [];
    for i := 0 to |df|
      invariant js == Scan(df, ch, i)
    {
      if Flagged(df, ch, i) {
        js := js + [AnchorAt(df, ch, i)];
      }
    }
  }

  /** The first row never passes the test when its difference is zero, as the
      first difference always is: the wrap-around of `iloc[i - 1]` never fires. */
  lemma NoWrap(df: seq<Row>, ch: Channel)
    requires |df| > 0 && Diff(df[0], ch) == 0.0
    ensures !Flagged(df, ch, 0)
  {
  }

  /** With a zero first difference, the scan's entries are exactly the
      (day, displacement) of the row before each flagged row. */
  lemma {:induction false} ScanMembers(df: seq<Row>, ch: Channel, k: nat, jp: Jump)
    requires 0 < |df| && k <= |df| && Diff(df[0], ch) == 0.0
    ensures jp in Scan(df, ch, k) <==>
              exists i :: 1 <= i < k && Flagged(df, ch, i) && jp == Jump(df[i - 1].days, Rel(df[i - 1], ch))
  {
    if k > 0 {
      ScanMembers(df, ch, k - 1, jp);
      if jp in Scan(df, ch, k) && jp !in Scan(df, ch, k - 1) {
        assert Flagged(df, ch, k - 1) && jp == AnchorAt(df, ch, k - 1);
        assert k - 1 >= 1;
      }
    }
  }

  /** When the days strictly increase, the scan lists the jumps in time order. */
  lemma {:induction false} ScanOrdered(df: seq<Row>, ch: Channel, k: nat)
    requires 0 < |df| && k <= |df| && Diff(df[0], ch) == 0.0
    requires forall i, j :: 0 <= i < j < |df| ==> df[i].days < df[j].days
    ensures forall m, n :: 0 <= m < n < |Scan(df, ch, k)| ==> Scan(df, ch, k)[m].day < Scan(df, ch, k)[n].day
    ensures forall m :: 0 <= m < |Scan(df, ch, k)| ==> Scan(df, ch, k)[m].day < (if k == 0 then 0.0 else df[k - 1].days)
  {
    if k > 0 {
      ScanOrdered(df, ch, k - 1);
      var prev := Scan(df, ch, k - 1);
      if k >= 2 {
        assert forall m :: 0 <= m < |prev| ==> prev[m].day < df[k - 1].days;
      }
      if Flagged(df, ch, k - 1) {
        assert k - 1 >= 1;
        assert AnchorAt(df, ch, k - 1).day == df[k - 2].days;
      }
    }
  }

  /** `correct_jump` on values: `size` is added to the displacement of every
      row whose `days_diff` exceeds `day`; nothing else changes. */
  function Corrected(df: seq<Row>, j: Jump, ch: Channel): (r: seq<Row>)
    ensures |r| == |df|
  {
    seq(|df|, i requires 0 <= i < |df| =>
      WithRel(df[i], ch, Rel(df[i], ch) + (if df[i].days > j.day then j.size else 0.0)))
  }

  /**
    `correct_jump`: copies the displacement column into an array, adds the
    jump size where the day mask holds, and writes the column back.
  */
  method CorrectJump(df: seq<Row>, j: Jump, ch: Channel) returns (r: seq<Row>)
    ensures r == Corrected(df, j, ch)
  {
    var xNew := new real[|df|](i requires 0 <= i < |df| => Rel(df[i], ch));
    for i := 0 to |df|
      invariant forall k :: 0 <= k < i ==> xNew[k] == Rel(df[k], ch) + (if df[k].days > j.day then j.size else 0.0)
      invariant forall k :: i <= k < |df| ==> xNew[k] == Rel(df[k], ch)
    {
      if df[i].days > j.day {
        xNew[i] := xNew[i] + j.size;
      }
    }
    r := seq(|df|, i requires 0 <= i < |df| reads xNew => WithRel(df[i], ch, xNew[i]));
  }

  /** The correction loop: `correct_jump` for each entry in turn, each on the
      frame the previous one returned. */
  function CorrectAll(df: seq<Row>, js: seq<Jump>, ch: Channel): (r: seq<Row>)
    ensures |r| == |df|
  {
    if |js| == 0 then df
    else Corrected(CorrectAll(df, js[..|js| - 1], ch), js[|js| - 1], ch)
  }

  method ApplyCorrections(df: seq<Row>, js: seq<Jump>, ch: Channel) returns (r: seq<Row>)
    ensures r == CorrectAll(df, js, ch)
  {
    r := df;
    for k := 0 to |js|
      invariant r == CorrectAll(df, js[..k], ch)
    {
      assert js[..k + 1][..k] == js[..k];
      r := CorrectJump(r, js[k], ch);
    }
    assert js[..|js|] == js;
  }

  /** Total size of the jumps that happened before `day`. */
  function ShiftAt(js: seq<Jump>, day: real): real
  {
    if |js| == 0 then 0.0
    else ShiftAt(js[..|js| - 1], day) + (if day > js[|js| - 1].day then js[|js| - 1].size else 0.0)
  }

  /** After all corrections each row's displacement is raised by the sum of
      the jumps that happened before it, and every other column is as before. */
  lemma {:induction false} CorrectAllShifts(df: seq<Row>, js: seq<Jump>, ch: Channel, i: nat)
    requires i < |df|
    ensures CorrectAll(df, js, ch)[i] == WithRel(df[i], ch, Rel(df[i], ch) + ShiftAt(js, df[i].days))
  {
    if |js| > 0 {
      CorrectAllShifts(df, js[..|js| - 1], ch, i);
    }
  }

  /** Correcting one channel leaves the other channel's detection unchanged:
      the two scans may run in either order relative to the corrections. */
  lemma {:induction false} ScanIgnoresOtherChannel(df: seq<Row>, js: seq<Jump>, ch: Channel, k: nat)
    requires k <= |df|
    ensures Scan(CorrectAll(df, js, ch), Other(ch), k) == Scan(df, Other(ch), k)
  {
    if k > 0 {
      ScanIgnoresOtherChannel(df, js, ch, k - 1);
      CorrectAllShifts(df, js, ch, k - 1);
      if k - 1 == 0 {
        CorrectAllShifts(df, js, ch, |df| - 1);
      } else {
        CorrectAllShifts(df, js, ch, k - 2);
      }
    }
  }

  /** Correcting for a jump found at row `i` (days strictly increasing): rows
      before `i` keep their displacement, rows from `i` on are raised by the
      displacement of row `i - 1`, so the corrected step across the reset is the
      reading just after it, smaller than the cut. */
  lemma JumpBridged(df: seq<Row>, ch: Channel, i: nat)
    requires 1 <= i < |df| && Flagged(df, ch, i)
    requires forall a, b :: 0 <= a < b < |df| ==> df[a].days < df[b].days
    ensures forall k :: 0 <= k < i ==> Rel(Corrected(df, AnchorAt(df, ch, i), ch)[k], ch) == Rel(df[k], ch)
    ensures forall k :: i <= k < |df| ==>
              Rel(Corrected(df, AnchorAt(df, ch, i), ch)[k], ch) == Rel(df[k], ch) + Rel(df[i - 1], ch)
    ensures Abs(Rel(Corrected(df, AnchorAt(df, ch, i), ch)[i], ch) - Rel(Corrected(df, AnchorAt(df, ch, i), ch)[i - 1], ch)) < Cut(ch)
  {
  }
}
