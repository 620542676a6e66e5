# Leather displacement log loader, modelled in Dafny

This project models `data2df` and `correct_jump` in `scripts/read_data.py`. That
code loads the space-delimited log of a leather-suspension experiment into a
cleaned table. Each line of the log holds:

- a date and a time;
- the vertical and horizontal relative displacement of the leather (`ver_rel`, `hor_rel`);
- eight paired temperature / relative-humidity sensors (`T1`, `RV1` … `T8`, `RV8`);
- one trailing field, which the loader drops.

The loader works in these steps, and the model follows them in order:

1. **Grouping** (`Columns`). One loop builds both the humidity and the temperature
   lists (a substring test on the name). Then a second loop's if/elif chain splits the
   sensors into front and back lists. Sensor 7 is listed on both sides, but the elif chain only
   ever puts it in front.
2. **Summer time** (`SummerTime`). A mask marks the timestamps inside the
   2021 summer-time window. The last two marked rows are unmarked: they repeat the hour after the clocks
   went back. The marked rows move one hour back. With fewer than two rows in the
   window, `summer_idx[-2]` raises `IndexError`.
3. **Derived columns** (`Derived`):
   - minutes and days since the first sample;
   - displacements converted to millimetres with the sign flipped (`-x * 10`);
   - six per-row means over the sensor groups;
   - first differences of the displacements and of the minutes.
4. **Jumps** (`Jumps`), only when `do_correct`:
   - Two detection loops (cut 0.25 mm vertical, 0.15 mm horizontal) flag rows whose step exceeds
     the cut while the reading is within the cut of zero: a device reset.
   - Each flagged row records the day and the displacement of the row before it.
   - `correct_jump` then adds that displacement to every later row, one jump after the other.
5. **Trimming** (`Cleaning`), only when `do_correct`:
   - The first 14 rows are dropped.
   - Time and displacement are re-baselined on the first kept row.
   - Day zero moves to trimmed row 16 (the first midnight). With too few rows, one of these positional look-ups raises `IndexError`.
6. **Filter** (`Cleaning`). Only rows whose mean humidity is below 100 % are kept.

`ReadData.Load` is the whole loader as a function. `ReadData.Data2Df` is the
loader as the source runs it, with the loops as methods, and it is proved equal
to `Load`.

The model takes the source's own form:

- The loops are methods with loop invariants: the grouping loops, the `summer_idx`
  comprehension, the detection loops, the correction loop, and
  `correct_jump`'s copy-and-overwrite on an array.
- The mask update is a method that writes two positions of a boolean array.
- Each method is proved equal to a specification function.
- The vectorised pandas steps are functions.
- Properties of those functions are lemmas.

Errors become `Outcome.Result` values. `ShapeMismatch` is a file that is empty
or whose lines do not carry 19 fields after the date and time. `SummerIndex`
and `TrimIndex` are the two `IndexError`s.

The verbose listing (`scripts/read_data.py:219-224`) prints the rows above 100 % as the ones
thrown out. The filter (line 227) keeps only rows strictly below 100 %, so a row at exactly
100 % is dropped without being listed. The model follows the filter.

## Model

| member | source | states |
|---|---|---|
| Columns.HasInfixIff | scripts/read_data.py:80-83 | The recursive substring test behind `'RV' in acol` holds exactly when the substring occurs at some position of the name. |
| Columns.NameTests | scripts/read_data.py:79-83 | A column name contains `RV` iff it is a humidity column, and contains `T` iff it is a temperature column. The displacement names contain neither. |
| Columns.GroupByKind | scripts/read_data.py:77-83 | The loop's two lists are the columns whose name contains `RV`, resp. `T`, in column order (`Selected`). |
| Columns.GroupByPlacement | scripts/read_data.py:87-99 | Each of the four lists holds the columns whose first matching branch of the if/elif chain is that list, in column order (`Placed`). |
| Columns.ArmOfColumn | scripts/read_data.py:91-99 | The branch each column takes: sensors 1, 4, 7 go front, 2, 3, 5, 6 go back, 8 goes nowhere. Sensor 7 is in the back lists yet is placed in front. |
| Columns.PositionOfName | scripts/read_data.py:65-67 | Field `i` of a line carries column `c` exactly when `Position(c) == i`, so names and fields correspond one to one. |
| Columns.HumidityColumnsOfLog | scripts/read_data.py:77-81 | On the log's names, `RVcollist` is `RV1` … `RV8`. |
| Columns.TemperatureColumnsOfLog | scripts/read_data.py:77-83 | On the log's names, `Tcollist` is `T1` … `T8`. |
| Columns.TFrontOfLog | scripts/read_data.py:87-93 | `Tcollist_front` is `T1`, `T4`, `T7`. |
| Columns.RVFrontOfLog | scripts/read_data.py:87-95 | `RVcollist_front` is `RV1`, `RV4`, `RV7`. |
| Columns.TBackOfLog | scripts/read_data.py:87-97 | `Tcollist_back` is `T2`, `T3`, `T5`, `T6`: sensor 7 is missing. |
| Columns.RVBackOfLog | scripts/read_data.py:87-99 | `RVcollist_back` is `RV2`, `RV3`, `RV5`, `RV6`: sensor 7 is missing. |
| SummerTime.WindowIndices | scripts/read_data.py:112-114 | `summer_idx` lists every in-window row and only those. Entry `k` is the row that is in-window row number `k + 1`. |
| SummerTime.SummerMask | scripts/read_data.py:112-116 | Fails with `SummerIndex` iff fewer than two rows are in the window. Otherwise a row is marked iff it is in the window and not one of the last two in-window rows (`SummerFlags`). |
| SummerTime.ShiftedRows | scripts/read_data.py:110-119 | A timestamp moves one hour back iff it is marked. Every unmarked row, the last two in-window rows included, keeps its time; rows outside the window keep theirs. |
| SummerTime.CountFlags | scripts/read_data.py:115-119 | Exactly two of the in-window rows are left unshifted. |
| SummerTime.CountFlagsPrefix | scripts/read_data.py:115-116 | On every prefix, the marked count equals the in-window count, capped two below the total. |
| SummerTime.FlagsArePrefix | scripts/read_data.py:110-116 | The shifted rows are an initial run of the in-window rows: an in-window row before a shifted row is shifted too. |
| Derived.Scaled | scripts/read_data.py:133-134 | The millimetre value divided by minus ten is the logged value. A positive logged value becomes negative. |
| Derived.FirstDiffTelescopes | scripts/read_data.py:148-155 | Adding the first differences up to row `k` to the first value gives the value at row `k`. |
| Derived.FrameStart | scripts/read_data.py:127-161 | The first row has zero minutes and days, and zero differences and interval. |
| Derived.FrameDiffs | scripts/read_data.py:148-161 | For a later row, `dver_raw` and `dhor_raw` are the change from the row before. `interval_mins` is the gap between the two timestamps in minutes. |
| Derived.FrameDaysOrder | scripts/read_data.py:127-129 | `days_diff` follows the order of the timestamps, and days times 1440 is minutes. |
| Derived.FrameTelescopes | scripts/read_data.py:148-158 | On either channel, `ver_rel` / `hor_rel` at any row is the first row's value plus the `dver_raw` / `dhor_raw` values up to that row. |
| Derived.LogGroupsValues | scripts/read_data.py:77-99 | The two grouping loops, run on the log's names, build exactly the six written-out group lists, none of them empty. |
| Derived.LogMeanRv | scripts/read_data.py:138 | `RV_avg` is the mean of the eight humidity fields. |
| Derived.LogMeanRvFront | scripts/read_data.py:139 | `RV_front` is the mean of `RV1`, `RV4`, `RV7`. |
| Derived.LogMeanRvBack | scripts/read_data.py:140 | `RV_back` is the mean of `RV2`, `RV3`, `RV5`, `RV6`, over four fields and without `RV7`. |
| Derived.LogMeanT | scripts/read_data.py:142 | `T_avg` is the mean of the eight temperature fields. |
| Derived.LogMeanTFront | scripts/read_data.py:143 | `T_front` is the mean of `T1`, `T4`, `T7`. |
| Derived.LogMeanTBack | scripts/read_data.py:144 | `T_back` is the mean of `T2`, `T3`, `T5`, `T6`, without `T7`. |
| Jumps.DetectJumps | scripts/read_data.py:175-194 | The detection loop returns `Scan`: one entry per flagged row, in row order, each the day and displacement of `iloc[i-1]`. |
| Jumps.NoWrap | scripts/read_data.py:176-179 | Row 0 is never flagged when its difference is zero, as the first difference always is. So the wrap of `iloc[-1]` to the last row never fires. |
| Jumps.ScanMembers | scripts/read_data.py:175-189 | With a zero first difference, an entry is in the list iff it is the (day, displacement) of the row before some flagged row `i >= 1`. |
| Jumps.ScanOrdered | scripts/read_data.py:175-189 | When days strictly increase, the entries' days strictly increase, and all lie before the last scanned row's day. |
| Jumps.CorrectJump | scripts/read_data.py:24-27 | The result is `Corrected`: the jump size is added to the channel's displacement in every row whose `days_diff` exceeds the jump day. Every other column and row is unchanged. |
| Jumps.ApplyCorrections | scripts/read_data.py:196-199 | The correction loop equals applying `correct_jump` for each entry in list order (`CorrectAll`). |
| Jumps.CorrectAllShifts | scripts/read_data.py:196-199 | After all corrections, each row's displacement is raised by the total size of the jumps whose day lies before the row's day. All other columns are unchanged. |
| Jumps.ScanIgnoresOtherChannel | scripts/read_data.py:173-199 | Correcting one channel leaves the other channel's detection unchanged. So detecting both channels before correcting loses nothing. |
| Jumps.JumpBridged | scripts/read_data.py:176-199 | When days strictly increase, correcting the jump found at row `i` keeps rows before `i` and raises rows from `i` on by row `i-1`'s displacement. The corrected step across the reset is below the cut. |
| Cleaning.Trim | scripts/read_data.py:206-217 | Fails with `TrimIndex` iff there are at most 30 rows. Otherwise it returns 14 fewer rows. |
| Cleaning.TrimRows | scripts/read_data.py:207-217 | Trimmed row `i` is input row `i + 14`. Its days are measured from input row 30, and its minutes and displacements from input row 14. Every other column is kept. |
| Cleaning.TrimOrigins | scripts/read_data.py:210-217 | The first kept row has zero minutes and displacements, and trimmed row 16 has day zero. Differences between rows in days, minutes and both displacements are unchanged. |
| Cleaning.KeepPlausible | scripts/read_data.py:227 | Every kept row is an input row with mean humidity below 100, and no rows are added. |
| Cleaning.KeepPlausibleKeeps | scripts/read_data.py:227 | No input row below 100 is dropped. |
| Cleaning.KeepPlausibleAppend | scripts/read_data.py:227 | Filtering a concatenation is the concatenation of the filtered parts, so row order is kept. |
| Cleaning.KeepPlausibleIdempotent | scripts/read_data.py:227 | Filtering twice equals filtering once. |
| ReadData.Data2Df | scripts/read_data.py:31-229 | The loader, run loop by loop, returns `Load(lines, do_correct)`. |
| ReadData.LoadFails | scripts/read_data.py:102-217 | The loader fails with `ShapeMismatch` iff the file is malformed. It fails with `SummerIndex` iff fewer than two samples are in the window. It fails with `TrimIndex` iff it corrects with at most 30 lines. |
| ReadData.LoadRows | scripts/read_data.py:206-227 | Every returned row has mean humidity below 100. There are at most as many rows as lines, 14 fewer when correcting. |

## Left out

- Reading the file is left out: the log's path and `np.genfromtxt`'s text splitting. The input is a sequence of `Line` values.
- Number and date parsing is left out (`astype(float)`, `pd.to_datetime`). A line's date and time arrive as seconds since 1970-01-01 on the logger's naive clock, and its fields arrive as numbers.
- The decimal-comma `replace` is not modelled. Its result is discarded, so it has no effect on the data.
- Floating point is not modelled: values are exact reals. Float rounding in the differences, means and re-baselining is out of scope.
- NaN is not modelled. pandas' NaN-skipping mean and NaN comparisons do not arise.
- `time_avg` is left out. It is computed but never used.
- The `datetime_raw` column is left out. It only holds the joined strings.
- The printing under `be_verbose` is output only and changes nothing. It is left out, and so is the `df_wrongRV` copy.
- pandas index labels are not modelled. Rows are positions in a sequence. After the filter the source keeps the old labels, gaps included.
- The chained assignment `df['datetime'][summer] = ...` is modelled as writing through to the frame, as it does with the pandas versions the script targets.
- A file whose lines have differing field counts is folded into `ShapeMismatch`. So are an empty file and lines with other than 19 fields after date and time. The source raises different exceptions for these.
- A one-line file is not modelled exactly. There `genfromtxt` returns a flat array and the source fails while indexing it. The model instead reports `SummerIndex`, since one line cannot hold two summer-time samples.
- `Jumps.CorrectJump`: the source writes the corrected column into the caller's frame in place and returns that same frame. The model returns a new sequence and leaves the argument as it was, so the aliasing is not captured. `data2df` always rebinds its frame to the result, so the loader's outcome is the same.
- `ReadData.Data2Df`: the group lists come from the grouping methods run on the fixed column names. The model does not cover other column names.
- The `fig7_mm.py` and `fig8_40perc.py` plotting scripts are not part of this model.
