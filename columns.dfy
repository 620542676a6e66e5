/** Column names of the log and the groups of sensor columns whose per-row
    means become `RV_avg`, `RV_front`, `RV_back`, `T_avg`, `T_front`, `T_back`. */
module Columns {

  /** A named field of a log line. The source names these by strings; `Name`
      gives the string, and the grouping loops test substrings of it. */
  datatype Column = VerRel | HorRel | T(sensor: Sensor) | RV(sensor: Sensor)

  /** The eight paired temperature and humidity sensors. */
  type Sensor = n: nat | 1 <= n <= 8 witness 1

  /** The column's name in the data frame: `ver_rel`, `hor_rel`, `T1`, `RV1`, ... */
  function Name(c: Column): string
  {
    match c
    case VerRel => "ver_rel"
    case HorRel => "hor_rel"
    case T(n) => "T" + [Digit(n)]
    case RV(n) => "RV" + [Digit(n)]
  }

  function Digit(n: Sensor): char
  {
    ('0' as int + n) as char
  }

  /** The 18 named fields of a line, in file order. */
  const ColNames: seq<Column> := seq(18, i requires 0 <= i < 18 => ColumnAt(i))

  /** Column `i` of the named fields: the two displacements, then a
      temperature and a humidity column per sensor. */
  function ColumnAt(i: nat): Column
    requires i < 18
  {
    if i == 0 then VerRel
    else if i == 1 then HorRel
    else if i % 2 == 0 then T(i / 2)
    else RV(i / 2)
  }

  /** Where a column sits among the 18 named fields of a line. */
  function Position(c: Column): (p: nat)
    ensures p < 18
  {
    match c
    case VerRel => 0
    case HorRel => 1
    case T(n) => 2 * n
    case RV(n) => 2 * n + 1
  }

  /** `Position` and the column list are inverse: every named field has one
      column and every column one field. */
  lemma PositionOfName(i: nat, c: Column)
    requires i < 18
    ensures ColNames[i] == c <==> Position(c) == i
  {
  }

  /** Sensors hanging in front of and behind the leather, as listed in the source
      (sensor 7 is listed on both sides). */
  const TFront: set<Column> := {T(1), T(4), T(7)}
  const RVFront: set<Column> := {RV(1), RV(4), RV(7)}
  const TBack: set<Column> := {T(2), T(3), T(5), T(6), T(7)}
  const RVBack: set<Column> := {RV(2), RV(3), RV(5), RV(6), RV(7)}

  /** Python's substring test `sub in s`. */
  predicate HasInfix(s: string, sub: string)
  {
    InfixFrom(s, sub, 0)
  }

  /** `sub` occurs in `s` at some position `i` or later. */
  predicate InfixFrom(s: string, sub: string, i: nat)
    decreases |s| - i
  {
    i + |sub| <= |s| && (MatchAt(s, sub, i, 0) || InfixFrom(s, sub, i + 1))
  }

  /** The characters `sub[k..]` appear in `s` from position `i + k` on. */
  predicate MatchAt(s: string, sub: string, i: nat, k: nat)
    requires i + |sub| <= |s| && k <= |sub|
    decreases |sub| - k
  {
    k == |sub| || (s[i + k] == sub[k] && MatchAt(s, sub, i, k + 1))
  }

  predicate OccursAt(s: string, sub: string, i: int)
  {
    0 <= i <= |s| - |sub| && s[i..i + |sub|] == sub
  }

  lemma {:induction false} MatchAtIff(s: string, sub: string, i: nat, k: nat)
    requires i + |sub| <= |s| && k <= |sub|
    ensures MatchAt(s, sub, i, k) <==> s[i + k..i + |sub|] == sub[k..]
    decreases |sub| - k
  {
    if k < |sub| {
      MatchAtIff(s, sub, i, k + 1);
      assert s[i + k..i + |sub|] == [s[i + k]] + s[i + k + 1..i + |sub|];
      assert sub[k..] == [sub[k]] + sub[k + 1..];
    }
  }

  lemma {:induction false} InfixFromIff(s: string, sub: string, i: nat)
    ensures InfixFrom(s, sub, i) <==> exists j :: i <= j && OccursAt(s, sub, j)
    decreases |s| - i
  {
    if i + |sub| <= |s| {
      MatchAtIff(s, sub, i, 0);
      assert sub[0..] == sub;
      InfixFromIff(s, sub, i + 1);
      if MatchAt(s, sub, i, 0) {
        assert OccursAt(s, sub, i);
      } else if InfixFrom(s, sub, i + 1) {
        var j :| i + 1 <= j && OccursAt(s, sub, j);
        assert i <= j;
      } else {
        assert !OccursAt(s, sub, i);
        forall j | i <= j
          ensures !OccursAt(s, sub, j)
        {
          if j > i {
            assert !(i + 1 <= j && OccursAt(s, sub, j));
          }
        }
      }
    }
  }

  /** The recursive test agrees with the positional definition of a substring. */
  lemma HasInfixIff(s: string, sub: string)
    ensures HasInfix(s, sub) <==> exists i :: OccursAt(s, sub, i)
  {
    InfixFromIff(s, sub, 0);
  }

  /** The list the first loop builds for `sub` after `k` columns: the columns
      whose name contains `sub`, in order. */
  function Selected(names: seq<Column>, k: nat, sub: string): seq<Column>
    requires k <= |names|
  {
    if k == 0 then []
    else if HasInfix(Name(names[k - 1]), sub) then Selected(names, k - 1, sub) + [names[k - 1]]
    else Selected(names, k - 1, sub)
  }

  /** Which arm of the if/elif chain takes a column: 0 for `Tcollist_front`,
      1 for `RVcollist_front`, 2 for `Tcollist_back`, 3 for `RVcollist_back`,
      4 for none. The first arm that matches wins. */
  function Arm(c: Column): nat
  {
    if c in TFront then 0
    else if c in RVFront then 1
    else if c in TBack then 2
    else if c in RVBack then 3
    else 4
  }

  /** The list arm `a` of the second loop builds after `k` columns. */
  function Placed(names: seq<Column>, k: nat, a: nat): seq<Column>
    requires k <= |names|
  {
    if k == 0 then []
    else if Arm(names[k - 1]) == a then Placed(names, k - 1, a) + [names[k - 1]]
    else Placed(names, k - 1, a)
  }

  /** On the log's columns the substring tests of the first loop pick out
      exactly the humidity and the temperature columns. */
  lemma NameTests(c: Column)
    ensures HasInfix(Name(c), "RV") <==> c.RV?
    ensures HasInfix(Name(c), "T") <==> c.T?
  {
    match c
    case VerRel =>
      assert !MatchAt("ver_rel", "T", 0, 0) && !MatchAt("ver_rel", "T", 1, 0);
    case HorRel =>
      assert !MatchAt("hor_rel", "T", 0, 0) && !MatchAt("hor_rel", "T", 1, 0);
    case T(n) =>
      var s := Name(c);
      assert s == ['T', Digit(n)] && '1' <= Digit(n) <= '8';
      assert MatchAt(s, "T", 0, 0);
      assert !InfixFrom(s, "RV", 1);
      assert !MatchAt(s, "RV", 0, 0);
    case RV(n) =>
      var s := Name(c);
      assert s == ['R', 'V', Digit(n)] && '1' <= Digit(n) <= '8';
      assert MatchAt(s, "RV", 0, 0);
      assert !MatchAt(s, "T", 2, 0) && !InfixFrom(s, "T", 3);
      assert !MatchAt(s, "T", 1, 0) && !InfixFrom(s, "T", 2);
      assert !MatchAt(s, "T", 0, 0) && !InfixFrom(s, "T", 1);
  }

  /** The arm each column takes: sensors 1, 4 and 7 go to the front lists,
      sensors 2, 3, 5 and 6 to the back lists, sensor 8 and the displacement
      columns to none. Sensor 7 also appears in the back lists, but the front
      arms come first. */
  lemma ArmOfColumn(c: Column)
    ensures Arm(c) == match c
      case T(n) => if n in {1, 4, 7} then 0 else if n in {2, 3, 5, 6} then 2 else 4
      case RV(n) => if n in {1, 4, 7} then 1 else if n in {2, 3, 5, 6} then 3 else 4
      case _ => 4
    ensures c == T(7) ==> c in TBack
    ensures c == RV(7) ==> c in RVBack
  {
  }

  /** The first loop over the column names. */
  method GroupByKind(names: seq<Column>) returns (rvCols: seq<Column>, tCols: seq<Column>)
    ensures rvCols == Selected(names, |names|, "RV")
    ensures tCols == Selected(names, |names|, "T")
  {
    rvCols, tCols := [], [];
    for i := 0 to |names|
      invariant rvCols == Selected(names, i, "RV")
      invariant tCols == Selected(names, i, "T")
    {
      if HasInfix(Name(names[i]), "RV") {
        rvCols := rvCols + [names[i]];
      }
      if HasInfix(Name(names[i]), "T") {
        tCols := tCols + [names[i]];
      }
    }
  }

  /** The second loop over the column names: the if/elif chain. */
  method GroupByPlacement(names: seq<Column>)
    returns (tFront: seq<Column>, rvFront: seq<Column>, tBack: seq<Column>, rvBack: seq<Column>)
    ensures tFront == Placed(names, |names|, 0) && rvFront == Placed(names, |names|, 1)
    ensures tBack == Placed(names, |names|, 2) && rvBack == Placed(names, |names|, 3)
  {
    tFront, rvFront, tBack, rvBack := [], [], [], [];
    for i := 0 to |names|
      invariant tFront == Placed(names, i, 0) && rvFront == Placed(names, i, 1)
      invariant tBack == Placed(names, i, 2) && rvBack == Placed(names, i, 3)
    {
      var c := names[i];
      if c in TFront {
        tFront := tFront + [c];
      } else if c in RVFront {
        rvFront := rvFront + [c];
      } else if c in TBack {
        tBack := tBack + [c];
      } else if c in RVBack {
        rvBack := rvBack + [c];
      }
    }
  }

  /** The list the loop has built after the first nine columns, `ver_rel` to `T4`. */
  lemma HumidityColumnsOfLogFirstHalf()
    ensures Selected(ColNames, 9, "RV") == [RV(1), RV(2), RV(3)]
  {
    forall c: Column
      ensures HasInfix(Name(c), "RV") <==> c.RV?
    {
      NameTests(c);
    }
    assert Selected(ColNames, 1, "RV") == [];
    assert Selected(ColNames, 2, "RV") == [];
    assert Selected(ColNames, 3, "RV") == [];
    assert Selected(ColNames, 4, "RV") == [RV(1)];
    assert Selected(ColNames, 5, "RV") == [RV(1)];
    assert Selected(ColNames, 6, "RV") == [RV(1), RV(2)];
    assert Selected(ColNames, 7, "RV") == [RV(1), RV(2)];
    assert Selected(ColNames, 8, "RV") == [RV(1), RV(2), RV(3)];
    assert Selected(ColNames, 9, "RV") == [RV(1), RV(2), RV(3)];
  }

  /** The first loop, run on the log's columns, collects all eight humidity
      columns. */
  lemma HumidityColumnsOfLog()
    ensures Selected(ColNames, |ColNames|, "RV") == [RV(1), RV(2), RV(3), RV(4), RV(5), RV(6), RV(7), RV(8)]
  {
    forall c: Column
      ensures HasInfix(Name(c), "RV") <==> c.RV?
    {
      NameTests(c);
    }
    HumidityColumnsOfLogFirstHalf();
    assert Selected(ColNames, 10, "RV") == [RV(1), RV(2), RV(3), RV(4)];
    assert Selected(ColNames, 11, "RV") == [RV(1), RV(2), RV(3), RV(4)];
    assert Selected(ColNames, 12, "RV") == [RV(1), RV(2), RV(3), RV(4), RV(5)];
    assert Selected(ColNames, 13, "RV") == [RV(1), RV(2), RV(3), RV(4), RV(5)];
    assert Selected(ColNames, 14, "RV") == [RV(1), RV(2), RV(3), RV(4), RV(5), RV(6)];
    assert Selected(ColNames, 15, "RV") == [RV(1), RV(2), RV(3), RV(4), RV(5), RV(6)];
    assert Selected(ColNames, 16, "RV") == [RV(1), RV(2), RV(3), RV(4), RV(5), RV(6), RV(7)];
    assert Selected(ColNames, 17, "RV") == [RV(1), RV(2), RV(3), RV(4), RV(5), RV(6), RV(7)];
    assert Selected(ColNames, 18, "RV") == [RV(1), RV(2), RV(3), RV(4), RV(5), RV(6), RV(7), RV(8)];
  }

  /** The list the loop has built after the first nine columns, `ver_rel` to `T4`. */
  lemma TemperatureColumnsOfLogFirstHalf()
    ensures Selected(ColNames, 9, "T") == [T(1), T(2), T(3), T(4)]
  {
    forall c: Column
      ensures HasInfix(Name(c), "T") <==> c.T?
    {
      NameTests(c);
    }
    assert Selected(ColNames, 1, "T") == [];
    assert Selected(ColNames, 2, "T") == [];
    assert Selected(ColNames, 3, "T") == [T(1)];
    assert Selected(ColNames, 4, "T") == [T(1)];
    assert Selected(ColNames, 5, "T") == [T(1), T(2)];
    assert Selected(ColNames, 6, "T") == [T(1), T(2)];
    assert Selected(ColNames, 7, "T") == [T(1), T(2), T(3)];
    assert Selected(ColNames, 8, "T") == [T(1), T(2), T(3)];
    assert Selected(ColNames, 9, "T") == [T(1), T(2), T(3), T(4)];
  }

  /** The first loop, run on the log's columns, collects all eight temperature
      columns. */
  lemma TemperatureColumnsOfLog()
    ensures Selected(ColNames, |ColNames|, "T") == [T(1), T(2), T(3), T(4), T(5), T(6), T(7), T(8)]
  {
    forall c: Column
      ensures HasInfix(Name(c), "T") <==> c.T?
    {
      NameTests(c);
    }
    TemperatureColumnsOfLogFirstHalf();
    assert Selected(ColNames, 10, "T") == [T(1), T(2), T(3), T(4)];
    assert Selected(ColNames, 11, "T") == [T(1), T(2), T(3), T(4), T(5)];
    assert Selected(ColNames, 12, "T") == [T(1), T(2), T(3), T(4), T(5)];
    assert Selected(ColNames, 13, "T") == [T(1), T(2), T(3), T(4), T(5), T(6)];
    assert Selected(ColNames, 14, "T") == [T(1), T(2), T(3), T(4), T(5), T(6)];
    assert Selected(ColNames, 15, "T") == [T(1), T(2), T(3), T(4), T(5), T(6), T(7)];
    assert Selected(ColNames, 16, "T") == [T(1), T(2), T(3), T(4), T(5), T(6), T(7)];
    assert Selected(ColNames, 17, "T") == [T(1), T(2), T(3), T(4), T(5), T(6), T(7), T(8)];
    assert Selected(ColNames, 18, "T") == [T(1), T(2), T(3), T(4), T(5), T(6), T(7), T(8)];
  }

  /** The list the loop has built after the first nine columns, `ver_rel` to `T4`. */
  lemma TFrontOfLogFirstHalf()
    ensures Placed(ColNames, 9, 0) == [T(1), T(4)]
  {
    assert Placed(ColNames, 1, 0) == [];
    assert Placed(ColNames, 2, 0) == [];
    assert Placed(ColNames, 3, 0) == [T(1)];
    assert Placed(ColNames, 4, 0) == [T(1)];
    assert Placed(ColNames, 5, 0) == [T(1)];
    assert Placed(ColNames, 6, 0) == [T(1)];
    assert Placed(ColNames, 7, 0) == [T(1)];
    assert Placed(ColNames, 8, 0) == [T(1)];
    assert Placed(ColNames, 9, 0) == [T(1), T(4)];
  }

  /** Run on the log's columns, the front temperature group holds sensors 1, 4 and 7. */
  lemma TFrontOfLog()
    ensures Placed(ColNames, |ColNames|, 0) == [T(1), T(4), T(7)]
  {
    TFrontOfLogFirstHalf();
    assert Placed(ColNames, 10, 0) == [T(1), T(4)];
    assert Placed(ColNames, 11, 0) == [T(1), T(4)];
    assert Placed(ColNames, 12, 0) == [T(1), T(4)];
    assert Placed(ColNames, 13, 0) == [T(1), T(4)];
    assert Placed(ColNames, 14, 0) == [T(1), T(4)];
    assert Placed(ColNames, 15, 0) == [T(1), T(4), T(7)];
    assert Placed(ColNames, 16, 0) == [T(1), T(4), T(7)];
    assert Placed(ColNames, 17, 0) == [T(1), T(4), T(7)];
    assert Placed(ColNames, 18, 0) == [T(1), T(4), T(7)];
  }

  /** The list the loop has built after the first nine columns, `ver_rel` to `T4`. */
  lemma RVFrontOfLogFirstHalf()
    ensures Placed(ColNames, 9, 1) == [RV(1)]
  {
    assert Placed(ColNames, 1, 1) == [];
    assert Placed(ColNames, 2, 1) == [];
    assert Placed(ColNames, 3, 1) == [];
    assert Placed(ColNames, 4, 1) == [RV(1)];
    assert Placed(ColNames, 5, 1) == [RV(1)];
    assert Placed(ColNames, 6, 1) == [RV(1)];
    assert Placed(ColNames, 7, 1) == [RV(1)];
    assert Placed(ColNames, 8, 1) == [RV(1)];
    assert Placed(ColNames, 9, 1) == [RV(1)];
  }

  /** Run on the log's columns, the front humidity group holds sensors 1, 4 and 7. */
  lemma RVFrontOfLog()
    ensures Placed(ColNames, |ColNames|, 1) == [RV(1), RV(4), RV(7)]
  {
    RVFrontOfLogFirstHalf();
    assert Placed(ColNames, 10, 1) == [RV(1), RV(4)];
    assert Placed(ColNames, 11, 1) == [RV(1), RV(4)];
    assert Placed(ColNames, 12, 1) == [RV(1), RV(4)];
    assert Placed(ColNames, 13, 1) == [RV(1), RV(4)];
    assert Placed(ColNames, 14, 1) == [RV(1), RV(4)];
    assert Placed(ColNames, 15, 1) == [RV(1), RV(4)];
    assert Placed(ColNames, 16, 1) == [RV(1), RV(4), RV(7)];
    assert Placed(ColNames, 17, 1) == [RV(1), RV(4), RV(7)];
    assert Placed(ColNames, 18, 1) == [RV(1), RV(4), RV(7)];
  }

  /** The list the loop has built after the first nine columns, `ver_rel` to `T4`. */
  lemma TBackOfLogFirstHalf()
    ensures Placed(ColNames, 9, 2) == [T(2), T(3)]
  {
    assert Placed(ColNames, 1, 2) == [];
    assert Placed(ColNames, 2, 2) == [];
    assert Placed(ColNames, 3, 2) == [];
    assert Placed(ColNames, 4, 2) == [];
    assert Placed(ColNames, 5, 2) == [T(2)];
    assert Placed(ColNames, 6, 2) == [T(2)];
    assert Placed(ColNames, 7, 2) == [T(2), T(3)];
    assert Placed(ColNames, 8, 2) == [T(2), T(3)];
    assert Placed(ColNames, 9, 2) == [T(2), T(3)];
  }

  /** Run on the log's columns, the back temperature group holds sensors 2, 3, 5 and 6: four
      columns, not the five `T_back` names, since `T7` went to the front. */
  lemma TBackOfLog()
    ensures Placed(ColNames, |ColNames|, 2) == [T(2), T(3), T(5), T(6)]
  {
    TBackOfLogFirstHalf();
    assert Placed(ColNames, 10, 2) == [T(2), T(3)];
    assert Placed(ColNames, 11, 2) == [T(2), T(3), T(5)];
    assert Placed(ColNames, 12, 2) == [T(2), T(3), T(5)];
    assert Placed(ColNames, 13, 2) == [T(2), T(3), T(5), T(6)];
    assert Placed(ColNames, 14, 2) == [T(2), T(3), T(5), T(6)];
    assert Placed(ColNames, 15, 2) == [T(2), T(3), T(5), T(6)];
    assert Placed(ColNames, 16, 2) == [T(2), T(3), T(5), T(6)];
    assert Placed(ColNames, 17, 2) == [T(2), T(3), T(5), T(6)];
    assert Placed(ColNames, 18, 2) == [T(2), T(3), T(5), T(6)];
  }

  /** The list the loop has built after the first nine columns, `ver_rel` to `T4`. */
  lemma RVBackOfLogFirstHalf()
    ensures Placed(ColNames, 9, 3) == [RV(2), RV(3)]
  {
    assert Placed(ColNames, 1, 3) == [];
    assert Placed(ColNames, 2, 3) == [];
    assert Placed(ColNames, 3, 3) == [];
    assert Placed(ColNames, 4, 3) == [];
    assert Placed(ColNames, 5, 3) == [];
    assert Placed(ColNames, 6, 3) == [RV(2)];
    assert Placed(ColNames, 7, 3) == [RV(2)];
    assert Placed(ColNames, 8, 3) == [RV(2), RV(3)];
    assert Placed(ColNames, 9, 3) == [RV(2), RV(3)];
  }

  /** Run on the log's columns, the back humidity group holds sensors 2, 3, 5 and 6: four
      columns, not the five `RV_back` names, since `RV7` went to the front. */
  lemma RVBackOfLog()
    ensures Placed(ColNames, |ColNames|, 3) == [RV(2), RV(3), RV(5), RV(6)]
  {
    RVBackOfLogFirstHalf();
    assert Placed(ColNames, 10, 3) == [RV(2), RV(3)];
    assert Placed(ColNames, 11, 3) == [RV(2), RV(3)];
    assert Placed(ColNames, 12, 3) == [RV(2), RV(3), RV(5)];
    assert Placed(ColNames, 13, 3) == [RV(2), RV(3), RV(5)];
    assert Placed(ColNames, 14, 3) == [RV(2), RV(3), RV(5), RV(6)];
    assert Placed(ColNames, 15, 3) == [RV(2), RV(3), RV(5), RV(6)];
    assert Placed(ColNames, 16, 3) == [RV(2), RV(3), RV(5), RV(6)];
    assert Placed(ColNames, 17, 3) == [RV(2), RV(3), RV(5), RV(6)];
    assert Placed(ColNames, 18, 3) == [RV(2), RV(3), RV(5), RV(6)];
  }

}
