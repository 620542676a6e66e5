/** Daylight-saving normalisation of the log's timestamps: the logger's clock
    jumped forward on 2021-03-28 and back on 2021-10-31, and the loader moves
    the summer-time samples one hour back so that time runs continuously. */
module SummerTime {
  import opened Outcome

  /** 2021-03-28 02:30:00 and 2021-10-31 03:00:00, in seconds since
      1970-01-01 00:00:00 of the same (naive, zone-less) clock. */
  const SummerStart: int := 1616898600
  const SummerEnd: int := 1635649200

  /** One hour in seconds. */
  const Hour: int := 3600

  /** The timestamp lies strictly between the two bounds. */
  predicate InWindow(t: int)
  {
    SummerStart < t < SummerEnd
  }

  /** How many of the first `m` timestamps fall in the summer-time window. */
  function CountInWindow(ts: seq<int>, m: nat): nat
    requires m <= |ts|
  {
    if m == 0 then 0
    else CountInWindow(ts, m - 1) + (if InWindow(ts[m - 1]) then 1 else 0)
  }

  /** The summer-time mask the loader ends with: a row is shifted when it lies
      in the window and is not one of the last two rows that do (those two
      repeat the hour after the clocks went back and are winter time already). */
  function SummerFlags(ts: seq<int>): (flags: seq<bool>)
    ensures |flags| == |ts|
  {
    seq(|ts|, i requires 0 <= i < |ts| => InWindow(ts[i]) && CountInWindow(ts, i + 1) + 2 <= CountInWindow(ts, |ts|))
  }

  /** Number of set entries of a mask. */
  function CountTrue(bs: seq<bool>): nat
  {
    if |bs| == 0 then 0
    else CountTrue(bs[..|bs| - 1]) + (if bs[|bs| - 1] then 1 else 0)
  }

  /** `CountInWindow` never decreases along prefixes. */
  lemma {:induction false} CountMonotone(ts: seq<int>, i: nat, j: nat)
    requires i <= j <= |ts|
    ensures CountInWindow(ts, i) <= CountInWindow(ts, j)
    decreases j - i
  {
    if i < j {
      CountMonotone(ts, i, j - 1);
    }
  }

  /** `summer_idx`: the positions of the in-window rows. Entry `k` is the
      row that is in-window row number `k + 1`, and every in-window row is
      listed. */
  method WindowIndices(times: seq<int>) returns (idx: seq<nat>)
    ensures |idx| == CountInWindow(times, |times|)
    ensures forall k :: 0 <= k < |idx| ==> idx[k] < |times| && InWindow(times[idx[k]])
    ensures forall k :: 0 <= k < |idx| ==> CountInWindow(times, idx[k] + 1) == k + 1
    ensures forall j :: 0 <= j < |times| && InWindow(times[j]) ==> j in idx
  {
    idx := [];
    for i := 0 to |times|
      invariant |idx| == CountInWindow(times, i)
      invariant forall k :: 0 <= k < |idx| ==> idx[k] < i && InWindow(times[idx[k]])
      invariant forall k :: 0 <= k < |idx| ==> CountInWindow(times, idx[k] + 1) == k + 1
      invariant forall j :: 0 <= j < i && InWindow(times[j]) ==> j in idx
    {
      if InWindow(times[i]) {
        idx := idx + [i];
      }
    }
  }

  /**
    Builds the boolean window mask, takes the positions of its set entries,
    and clears the last two of them. With fewer than two rows in the window
    `summer_idx[-2]` raises an `IndexError`, modelled as `Err(SummerIndex)`.
  */
  method SummerMask(times: seq<int>) returns (r: Result<seq<bool>>)
    ensures r == if CountInWindow(times, |times|) < 2 then Err(SummerIndex) else Ok(SummerFlags(times))
  {
    var summer := new bool[|times|](i requires 0 <= i < |times| => InWindow(times[i]));
    var idx := WindowIndices(times);
    var n := |idx|;
    if n < 2 {
      return Err(SummerIndex);
    }
    summer[idx[n - 2]] := false;
    summer[idx[n - 1]] := false;
    forall i | 0 <= i < |times|
      ensures summer[i] == SummerFlags(times)[i]
    {
      if InWindow(times[i]) {
        var k :| 0 <= k < n && idx[k] == i;
        assert CountInWindow(times, i + 1) == k + 1;
      }
    }
    assert summer[..] == SummerFlags(times);
    r := Ok(summer[..]);
  }

  /** The shift step: masked timestamps move one hour back, the rest stay. */
  function Shifted(times: seq<int>, mask: seq<bool>): (r: seq<int>)
    requires |mask| == |times|
    ensures |r| == |times|
  {
    seq(|times|, i requires 0 <= i < |times| => if mask[i] then times[i] - Hour else times[i])
  }

  /** Exactly the in-window rows before the last two are moved one hour back;
      rows outside the window and the last two in-window rows keep their time. */
  lemma ShiftedRows(ts: seq<int>, i: nat)
    requires i < |ts|
    ensures Shifted(ts, SummerFlags(ts))[i] == ts[i] - Hour <==>
              InWindow(ts[i]) && CountInWindow(ts, i + 1) + 2 <= CountInWindow(ts, |ts|)
    ensures !InWindow(ts[i]) ==> Shifted(ts, SummerFlags(ts))[i] == ts[i]
    ensures !SummerFlags(ts)[i] ==> Shifted(ts, SummerFlags(ts))[i] == ts[i]
  {
    var flags := SummerFlags(ts);
    assert flags[i] == (InWindow(ts[i]) && CountInWindow(ts, i + 1) + 2 <= CountInWindow(ts, |ts|));
    assert Shifted(ts, flags)[i] == if flags[i] then ts[i] - Hour else ts[i];
  }

  /** On every prefix the mask counts the in-window rows, capped two below
      the total number of in-window rows. */
  lemma {:induction false} CountFlagsPrefix(ts: seq<int>, m: nat)
    requires m <= |ts| && CountInWindow(ts, |ts|) >= 2
    ensures CountTrue(SummerFlags(ts)[..m]) ==
              if CountInWindow(ts, m) <= CountInWindow(ts, |ts|) - 2 then CountInWindow(ts, m)
              else CountInWindow(ts, |ts|) - 2
  {
    if m > 0 {
      CountFlagsPrefix(ts, m - 1);
      assert SummerFlags(ts)[..m][..m - 1] == SummerFlags(ts)[..m - 1];
    }
  }

  /** Exactly two of the in-window rows are left unshifted. */
  lemma CountFlags(ts: seq<int>)
    requires CountInWindow(ts, |ts|) >= 2
    ensures CountTrue(SummerFlags(ts)) == CountInWindow(ts, |ts|) - 2
  {
    CountFlagsPrefix(ts, |ts|);
    assert SummerFlags(ts)[..|ts|] == SummerFlags(ts);
  }

  /** The flagged rows are an initial run of the in-window rows: an in-window
      row before a flagged row is itself flagged. */
  lemma FlagsArePrefix(ts: seq<int>, i: nat, j: nat)
    requires i < j < |ts| && InWindow(ts[i]) && SummerFlags(ts)[j]
    ensures SummerFlags(ts)[i]
  {
    CountMonotone(ts, i + 1, j + 1);
  }
}
