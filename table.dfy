/** The cleaned table: one `Row` per sampled timestamp, in file order. */
module Table {

  /** One line of the log file: its date and time fields joined and read as
      seconds since 1970-01-01 (naive local clock), and the fields after them
      read as numbers. */
  datatype Line = Line(time: int, fields: seq<real>)

  /** One row of the data frame after the derived columns have been added. */
  datatype Row = Row(
    time: int,            // normalised timestamp, seconds since 1970-01-01 (naive local time)
    ver: real,            // `ver_rel`: vertical displacement, sign-flipped and times ten
    hor: real,            // `hor_rel`: horizontal displacement, sign-flipped and times ten
    sensors: seq<real>,   // T1, RV1, T2, RV2, ..., T8, RV8 as read
    minutes: real,        // `minutes_diff`
    days: real,           // `days_diff`
    rvAvg: real, rvFront: real, rvBack: real,
    tAvg: real, tFront: real, tBack: real,
    dver: real,           // `dver_raw`: first difference of `ver_rel`
    dhor: real,           // `dhor_raw`: first difference of `hor_rel`
    intervalMins: real)   // `interval_mins`: first difference of `minutes_diff`

  /** The two displacement channels, `'ver'` and `'hor'` in the source. */
  datatype Channel = Vertical | Horizontal

  /** The `<direction>_rel` column of a row. */
  function Rel(r: Row, ch: Channel): real
  {
    match ch
    case Vertical => r.ver
    case Horizontal => r.hor
  }

  /** The `d<direction>_raw` column of a row. */
  function Diff(r: Row, ch: Channel): real
  {
    match ch
    case Vertical => r.dver
    case Horizontal => r.dhor
  }

  /** The row with its `<direction>_rel` column replaced and every other column kept. */
  function WithRel(r: Row, ch: Channel, v: real): (r': Row)
    ensures Rel(r', ch) == v
    ensures Rel(r', Other(ch)) == Rel(r, Other(ch))
    ensures r'.(ver := r.ver, hor := r.hor) == r
  {
    match ch
    case Vertical => r.(ver := v)
    case Horizontal => r.(hor := v)
  }

  function Other(ch: Channel): Channel
  {
    match ch
    case Vertical => Horizontal
    case Horizontal => Vertical
  }

  function Abs(x: real): real
  {
    if x < 0.0 then -x else x
  }
}
