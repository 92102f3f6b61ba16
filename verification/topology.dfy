/** The fixed board graph: the four partial neighbour tables of `GameNode`
    (typescript/EnemyAIMinimax.ts:19-25), the neighbour pair tables that
    `GameBoard.Initialize` links the fields with (typescript/GameBoard.ts:74-86),
    and the sixteen mill lines as an independent reference the tables are
    checked against. */
module Topology {
  import opened Base

  /** `neighborLeft[f]`. */
  function LeftOf(f: Field): Option<Field> {
    if f == 0 then None
    else if f == 1 then Some(0)
    else if f == 2 then Some(1)
    else if f == 3 then None
    else if f == 4 then Some(3)
    else if f == 5 then Some(4)
    else if f == 6 then None
    else if f == 7 then Some(6)
    else if f == 8 then Some(7)
    else if f == 9 then None
    else if f == 10 then Some(9)
    else if f == 11 then Some(10)
    else if f == 12 then None
    else if f == 13 then Some(12)
    else if f == 14 then Some(13)
    else if f == 15 then None
    else if f == 16 then Some(15)
    else if f == 17 then Some(16)
    else if f == 18 then None
    else if f == 19 then Some(18)
    else if f == 20 then Some(19)
    else if f == 21 then None
    else if f == 22 then Some(21)
    else Some(22)
  }

  /** `neighborRight[f]`. */
  function RightOf(f: Field): Option<Field> {
    if f == 0 then Some(1)
    else if f == 1 then Some(2)
    else if f == 2 then None
    else if f == 3 then Some(4)
    else if f == 4 then Some(5)
    else if f == 5 then None
    else if f == 6 then Some(7)
    else if f == 7 then Some(8)
    else if f == 8 then None
    else if f == 9 then Some(10)
    else if f == 10 then Some(11)
    else if f == 11 then None
    else if f == 12 then Some(13)
    else if f == 13 then Some(14)
    else if f == 14 then None
    else if f == 15 then Some(16)
    else if f == 16 then Some(17)
    else if f == 17 then None
    else if f == 18 then Some(19)
    else if f == 19 then Some(20)
    else if f == 20 then None
    else if f == 21 then Some(22)
    else if f == 22 then Some(23)
    else None
  }

  /** `neighborTop[f]`. */
  function TopOf(f: Field): Option<Field> {
    if f == 0 then None
    else if f == 1 then None
    else if f == 2 then None
    else if f == 3 then None
    else if f == 4 then Some(1)
    else if f == 5 then None
    else if f == 6 then None
    else if f == 7 then Some(4)
    else if f == 8 then None
    else if f == 9 then Some(0)
    else if f == 10 then Some(3)
    else if f == 11 then Some(6)
    else if f == 12 then Some(8)
    else if f == 13 then Some(5)
    else if f == 14 then Some(2)
    else if f == 15 then Some(11)
    else if f == 16 then None
    else if f == 17 then Some(12)
    else if f == 18 then Some(10)
    else if f == 19 then Some(16)
    else if f == 20 then Some(13)
    else if f == 21 then Some(9)
    else if f == 22 then Some(19)
    else Some(14)
  }

  /** `neighborBottom[f]`. */
  function BottomOf(f: Field): Option<Field> {
    if f == 0 then Some(9)
    else if f == 1 then Some(4)
    else if f == 2 then Some(14)
    else if f == 3 then Some(10)
    else if f == 4 then Some(7)
    else if f == 5 then Some(13)
    else if f == 6 then Some(11)
    else if f == 7 then None
    else if f == 8 then Some(12)
    else if f == 9 then Some(21)
    else if f == 10 then Some(18)
    else if f == 11 then Some(15)
    else if f == 12 then Some(17)
    else if f == 13 then Some(20)
    else if f == 14 then Some(23)
    else if f == 15 then None
    else if f == 16 then Some(19)
    else if f == 17 then None
    else if f == 18 then None
    else if f == 19 then Some(22)
    else if f == 20 then None
    else if f == 21 then None
    else if f == 22 then None
    else None
  }

  /** The two directions a mill can run in. */
  datatype Axis = Horizontal | Vertical

  function Cross(axis: Axis): Axis {
    if axis == Horizontal then Vertical else Horizontal
  }

  /** The neighbour before a field along an axis: left, or top. */
  function Prev(axis: Axis, f: Field): Option<Field> {
    if axis == Horizontal then LeftOf(f) else TopOf(f)
  }

  /** The neighbour after a field along an axis: right, or bottom. */
  function Next(axis: Axis, f: Field): Option<Field> {
    if axis == Horizontal then RightOf(f) else BottomOf(f)
  }

  /** `GameNode.GetNeighbors`: the existing neighbours, in the order left, right, top, bottom. */
  function Neighbors(f: Field): seq<Field> {
    (if Prev(Horizontal, f).Some? then [Prev(Horizontal, f).value] else [])
    + (if Next(Horizontal, f).Some? then [Next(Horizontal, f).value] else [])
    + (if Prev(Vertical, f).Some? then [Prev(Vertical, f).value] else [])
    + (if Next(Vertical, f).Some? then [Next(Vertical, f).value] else [])
  }

  /** No field is listed twice among the neighbours of a field, and a field
      is not its own neighbour. */
  lemma NeighborsDistinct(f: Field)
    ensures Distinct(Neighbors(f))
    ensures f !in Neighbors(f)
  {
    var hs := AxisNeighbors(Horizontal, f);
    var vs := AxisNeighbors(Vertical, f);
    assert Neighbors(f) == hs + vs;
    AxisNeighborsIn(Horizontal, f);
    AxisNeighborsIn(Vertical, f);
    FieldFacts(f);
    DistinctConcat(hs, vs);
  }

  /** The neighbours of `f` along one axis: the first two or the last two
      parts of `Neighbors(f)`. */
  function AxisNeighbors(axis: Axis, f: Field): seq<Field> {
    (if Prev(axis, f).Some? then [Prev(axis, f).value] else [])
    + (if Next(axis, f).Some? then [Next(axis, f).value] else [])
  }

  lemma AxisNeighborsIn(axis: Axis, f: Field)
    ensures Distinct(AxisNeighbors(axis, f)) && f !in AxisNeighbors(axis, f)
    ensures forall g :: g in AxisNeighbors(axis, f) ==> g in LineOf(axis, f)
  {
    ShapeOf(axis, f);
  }

  // ---------------------------------------------------------------------
  // Reference mill lines (written independently of the neighbour tables).

  /** A mill line: three fields. */
  type Line = l: seq<Field> | |l| == 3 witness [0, 1, 2]

  /** The row through `f`, left to right: the eight rows are `0-1-2`, `3-4-5`, ..., `21-22-23`. */
  function RowOf(f: Field): Line {
    if f == 0 then [0, 1, 2]
    else if f == 1 then [0, 1, 2]
    else if f == 2 then [0, 1, 2]
    else if f == 3 then [3, 4, 5]
    else if f == 4 then [3, 4, 5]
    else if f == 5 then [3, 4, 5]
    else if f == 6 then [6, 7, 8]
    else if f == 7 then [6, 7, 8]
    else if f == 8 then [6, 7, 8]
    else if f == 9 then [9, 10, 11]
    else if f == 10 then [9, 10, 11]
    else if f == 11 then [9, 10, 11]
    else if f == 12 then [12, 13, 14]
    else if f == 13 then [12, 13, 14]
    else if f == 14 then [12, 13, 14]
    else if f == 15 then [15, 16, 17]
    else if f == 16 then [15, 16, 17]
    else if f == 17 then [15, 16, 17]
    else if f == 18 then [18, 19, 20]
    else if f == 19 then [18, 19, 20]
    else if f == 20 then [18, 19, 20]
    else if f == 21 then [21, 22, 23]
    else if f == 22 then [21, 22, 23]
    else [21, 22, 23]
  }

  /** The column through `f`, top to bottom: the eight columns are `0-9-21`, `1-4-7`, `2-14-23`, `3-10-18`, `5-13-20`, `6-11-15`, `8-12-17` and `16-19-22`. */
  function ColumnOf(f: Field): Line {
    if f == 0 then [0, 9, 21]
    else if f == 1 then [1, 4, 7]
    else if f == 2 then [2, 14, 23]
    else if f == 3 then [3, 10, 18]
    else if f == 4 then [1, 4, 7]
    else if f == 5 then [5, 13, 20]
    else if f == 6 then [6, 11, 15]
    else if f == 7 then [1, 4, 7]
    else if f == 8 then [8, 12, 17]
    else if f == 9 then [0, 9, 21]
    else if f == 10 then [3, 10, 18]
    else if f == 11 then [6, 11, 15]
    else if f == 12 then [8, 12, 17]
    else if f == 13 then [5, 13, 20]
    else if f == 14 then [2, 14, 23]
    else if f == 15 then [6, 11, 15]
    else if f == 16 then [16, 19, 22]
    else if f == 17 then [8, 12, 17]
    else if f == 18 then [3, 10, 18]
    else if f == 19 then [16, 19, 22]
    else if f == 20 then [5, 13, 20]
    else if f == 21 then [0, 9, 21]
    else if f == 22 then [16, 19, 22]
    else [2, 14, 23]
  }

  /** The mill line through `f` along `axis`, first to last. */
  function LineOf(axis: Axis, f: Field): Line {
    if axis == Horizontal then RowOf(f) else ColumnOf(f)
  }

  /** What the neighbour tables look like along one axis of `f`, in terms of
      the reference line through `f`: the line has three increasing fields,
      every field of it has the same line, `f` has no previous neighbour
      exactly at the first field and no next neighbour exactly at the last. */
  ghost predicate Shape(axis: Axis, f: Field) {
    var l := LineOf(axis, f);
    && |l| == 3 && f in l && l[0] < l[1] < l[2]
    && LineOf(axis, l[0]) == l && LineOf(axis, l[1]) == l && LineOf(axis, l[2]) == l
    && Prev(axis, f) == (if f == l[0] then None else if f == l[1] then Some(l[0]) else Some(l[1]))
    && Next(axis, f) == (if f == l[2] then None else if f == l[1] then Some(l[2]) else Some(l[1]))
  }

  /** The row and the column through a field meet in that field only. */
  ghost predicate Crossing(f: Field) {
    forall g :: g in LineOf(Horizontal, f) && g in LineOf(Vertical, f) ==> g == f
  }

  ghost predicate Facts(f: Field) {
    Shape(Horizontal, f) && Shape(Vertical, f) && Crossing(f)
  }

  /** The facts, field by field; each is a ground computation on the tables.
      They are separate lemmas so that each solver query unfolds the tables
      at one field only, rather than at all 24 in one query. */
  lemma FactsAt0() ensures Facts(0) {}
  lemma FactsAt1() ensures Facts(1) {}
  lemma FactsAt2() ensures Facts(2) {}
  lemma FactsAt3() ensures Facts(3) {}
  lemma FactsAt4() ensures Facts(4) {}
  lemma FactsAt5() ensures Facts(5) {}
  lemma FactsAt6() ensures Facts(6) {}
  lemma FactsAt7() ensures Facts(7) {}
  lemma FactsAt8() ensures Facts(8) {}
  lemma FactsAt9() ensures Facts(9) {}
  lemma FactsAt10() ensures Facts(10) {}
  lemma FactsAt11() ensures Facts(11) {}
  lemma FactsAt12() ensures Facts(12) {}
  lemma FactsAt13() ensures Facts(13) {}
  lemma FactsAt14() ensures Facts(14) {}
  lemma FactsAt15() ensures Facts(15) {}
  lemma FactsAt16() ensures Facts(16) {}
  lemma FactsAt17() ensures Facts(17) {}
  lemma FactsAt18() ensures Facts(18) {}
  lemma FactsAt19() ensures Facts(19) {}
  lemma FactsAt20() ensures Facts(20) {}
  lemma FactsAt21() ensures Facts(21) {}
  lemma FactsAt22() ensures Facts(22) {}
  lemma FactsAt23() ensures Facts(23) {}

  lemma FieldFacts(f: Field)
    ensures Facts(f)
  {
    if f == 0 { FactsAt0(); }
    else if f == 1 { FactsAt1(); }
    else if f == 2 { FactsAt2(); }
    else if f == 3 { FactsAt3(); }
    else if f == 4 { FactsAt4(); }
    else if f == 5 { FactsAt5(); }
    else if f == 6 { FactsAt6(); }
    else if f == 7 { FactsAt7(); }
    else if f == 8 { FactsAt8(); }
    else if f == 9 { FactsAt9(); }
    else if f == 10 { FactsAt10(); }
    else if f == 11 { FactsAt11(); }
    else if f == 12 { FactsAt12(); }
    else if f == 13 { FactsAt13(); }
    else if f == 14 { FactsAt14(); }
    else if f == 15 { FactsAt15(); }
    else if f == 16 { FactsAt16(); }
    else if f == 17 { FactsAt17(); }
    else if f == 18 { FactsAt18(); }
    else if f == 19 { FactsAt19(); }
    else if f == 20 { FactsAt20(); }
    else if f == 21 { FactsAt21(); }
    else if f == 22 { FactsAt22(); }
    else { FactsAt23(); }
  }

  /** `Shape` for a field and an axis, with the line facts unfolded. */
  lemma ShapeOf(axis: Axis, f: Field)
    ensures Shape(axis, f)
  {
    FieldFacts(f);
  }

  /** The two fields of `l` other than `f`, in line order. */
  function Others(l: Line, f: Field): (Field, Field) {
    if f == l[0] then (l[1], l[2]) else if f == l[1] then (l[0], l[2]) else (l[0], l[1])
  }

  lemma OthersIn(l: Line, f: Field)
    requires f in l && l[0] < l[1] < l[2]
    ensures var (x, y) := Others(l, f);
      && x != f && y != f && x != y && x in l && y in l
      && (forall g :: g in l ==> g == f || g == x || g == y)
      && (x == l[0] || x == l[1]) && (y == l[1] || y == l[2])
  {
  }

  /** The line through `f` holds `f`, in increasing field order. */
  lemma LineContains(axis: Axis, f: Field)
    ensures f in LineOf(axis, f)
    ensures LineOf(axis, f)[0] < LineOf(axis, f)[1] < LineOf(axis, f)[2]
  {
    ShapeOf(axis, f);
  }

  /** Every field of the line through `f` has that same line. */
  lemma SameLine(axis: Axis, f: Field)
    ensures var l := LineOf(axis, f);
      LineOf(axis, l[0]) == l && LineOf(axis, l[1]) == l && LineOf(axis, l[2]) == l
  {
    ShapeOf(axis, f);
  }

  lemma SameLineAll(axis: Axis, f: Field)
    ensures forall g :: g in LineOf(axis, f) ==> LineOf(axis, g) == LineOf(axis, f)
  {
    var l := LineOf(axis, f);
    SameLine(axis, f);
    assert forall g :: g in l ==> g == l[0] || g == l[1] || g == l[2];
  }

  /** The neighbour tables step along the line through `f`, first to last. */
  lemma LineSteps(axis: Axis, f: Field)
    ensures var l := LineOf(axis, f);
      && Prev(axis, l[0]) == None && Next(axis, l[0]) == Some(l[1])
      && Prev(axis, l[1]) == Some(l[0]) && Next(axis, l[1]) == Some(l[2])
      && Prev(axis, l[2]) == Some(l[1]) && Next(axis, l[2]) == None
  {
    var l := LineOf(axis, f);
    SameLine(axis, f);
    LineContains(axis, f);
    ShapeOf(axis, l[0]);
    ShapeOf(axis, l[1]);
    ShapeOf(axis, l[2]);
  }

  /** The two other fields of the line through `f` along `axis`. */
  function Mates(axis: Axis, f: Field): (Field, Field) {
    Others(LineOf(axis, f), f)
  }

  /** The line through `f` consists of `f` and its two mates, which share
      that line. */
  lemma MatesOf(axis: Axis, f: Field)
    ensures var (x, y) := Mates(axis, f); var l := LineOf(axis, f);
      && x != f && y != f && x != y && x in l && y in l && f in l
      && (forall g :: g in l ==> g == f || g == x || g == y)
      && LineOf(axis, x) == l && LineOf(axis, y) == l
  {
    ShapeOf(axis, f);
    OthersIn(LineOf(axis, f), f);
  }

  /** The mates of `f` along one axis are not on its crossing line. */
  lemma MatesOffCross(axis: Axis, f: Field)
    ensures var (x, y) := Mates(axis, f);
      x !in LineOf(Cross(axis), f) && y !in LineOf(Cross(axis), f)
  {
    MatesOf(axis, f);
    FieldFacts(f);
    var (x, y) := Mates(axis, f);
    assert x in LineOf(axis, f) && y in LineOf(axis, f);
    assert Crossing(f);
  }

  /** Walking right then left, or left then right, returns to the start. */
  lemma RightThenLeft(f: Field)
    ensures RightOf(f).Some? ==> LeftOf(RightOf(f).value) == Some(f)
  {
    if f == 0 {} else if f == 1 {} else if f == 2 {} else if f == 3 {} else if f == 4 {} else if f == 5 {}
    else if f == 6 {} else if f == 7 {} else if f == 8 {} else if f == 9 {} else if f == 10 {} else if f == 11 {}
    else if f == 12 {} else if f == 13 {} else if f == 14 {} else if f == 15 {} else if f == 16 {} else if f == 17 {}
    else if f == 18 {} else if f == 19 {} else if f == 20 {} else if f == 21 {} else if f == 22 {} else {}
  }

  lemma LeftThenRight(f: Field)
    ensures LeftOf(f).Some? ==> RightOf(LeftOf(f).value) == Some(f)
  {
    if f == 0 {} else if f == 1 {} else if f == 2 {} else if f == 3 {} else if f == 4 {} else if f == 5 {}
    else if f == 6 {} else if f == 7 {} else if f == 8 {} else if f == 9 {} else if f == 10 {} else if f == 11 {}
    else if f == 12 {} else if f == 13 {} else if f == 14 {} else if f == 15 {} else if f == 16 {} else if f == 17 {}
    else if f == 18 {} else if f == 19 {} else if f == 20 {} else if f == 21 {} else if f == 22 {} else {}
  }

  /** Walking down then up, or up then down, returns to the start. */
  lemma BottomThenTop(f: Field)
    ensures BottomOf(f).Some? ==> TopOf(BottomOf(f).value) == Some(f)
  {
    if f == 0 {} else if f == 1 {} else if f == 2 {} else if f == 3 {} else if f == 4 {} else if f == 5 {}
    else if f == 6 {} else if f == 7 {} else if f == 8 {} else if f == 9 {} else if f == 10 {} else if f == 11 {}
    else if f == 12 {} else if f == 13 {} else if f == 14 {} else if f == 15 {} else if f == 16 {} else if f == 17 {}
    else if f == 18 {} else if f == 19 {} else if f == 20 {} else if f == 21 {} else if f == 22 {} else {}
  }

  lemma TopThenBottom(f: Field)
    ensures TopOf(f).Some? ==> BottomOf(TopOf(f).value) == Some(f)
  {
    if f == 0 {} else if f == 1 {} else if f == 2 {} else if f == 3 {} else if f == 4 {} else if f == 5 {}
    else if f == 6 {} else if f == 7 {} else if f == 8 {} else if f == 9 {} else if f == 10 {} else if f == 11 {}
    else if f == 12 {} else if f == 13 {} else if f == 14 {} else if f == 15 {} else if f == 16 {} else if f == 17 {}
    else if f == 18 {} else if f == 19 {} else if f == 20 {} else if f == 21 {} else if f == 22 {} else {}
  }

  /** The neighbour tables are mutually consistent: `g` is right of `f` exactly
      when `f` is left of `g`, and likewise for bottom and top. */
  lemma PrevNextMutual(axis: Axis, f: Field, g: Field)
    ensures Next(axis, f) == Some(g) <==> Prev(axis, g) == Some(f)
  {
    if axis == Horizontal {
      RightThenLeft(f);
      LeftThenRight(g);
    } else {
      BottomThenTop(f);
      TopThenBottom(g);
    }
  }

  /** Neighbourhood is symmetric and runs along the mill lines. */
  lemma NeighborsSymmetric(f: Field, g: Field)
    ensures g in Neighbors(f) <==> f in Neighbors(g)
    ensures g in Neighbors(f) <==>
              exists axis :: Prev(axis, f) == Some(g) || Next(axis, f) == Some(g)
  {
    PrevNextMutual(Horizontal, f, g);
    PrevNextMutual(Horizontal, g, f);
    PrevNextMutual(Vertical, f, g);
    PrevNextMutual(Vertical, g, f);
    if g in Neighbors(f) {
      if LeftOf(f) == Some(g) {
        assert Prev(Horizontal, f) == Some(g);
      } else if RightOf(f) == Some(g) {
        assert Next(Horizontal, f) == Some(g);
      } else if TopOf(f) == Some(g) {
        assert Prev(Vertical, f) == Some(g);
      } else {
        assert Next(Vertical, f) == Some(g);
      }
    }
  }

  // ---------------------------------------------------------------------
  // GameBoard.Initialize: fields linked from pair tables.

  /** `nachbarL[i]` is the left partner of `nachbarR[i]` (typescript/GameBoard.ts:74-75). */
  const PairLeft: seq<Field> := [0, 1, 3, 4, 6, 7, 9, 10, 12, 13, 15, 16, 18, 19, 21, 22]
  const PairRight: seq<Field> := [1, 2, 4, 5, 7, 8, 10, 11, 13, 14, 16, 17, 19, 20, 22, 23]
  /** `nachbarT[i]` is the top partner of `nachbarB[i]` (typescript/GameBoard.ts:81-82). */
  const PairTop: seq<Field> := [0, 9, 3, 10, 6, 11, 1, 4, 16, 19, 8, 12, 5, 13, 2, 14]
  const PairBottom: seq<Field> := [9, 21, 10, 18, 11, 15, 4, 7, 19, 22, 12, 17, 13, 20, 14, 23]

  /** A fresh field has no neighbours. */
  const Unlinked: seq<Option<Field>> := seq(24, _ => None)

  /** The linking loop of `Initialize` for one neighbour slot: entry `from[i]`
      of the table is pointed at `to[i]`, for `i` from `start` upwards. */
  function Link(table: seq<Option<Field>>, from: seq<Field>, to: seq<Field>, start: nat): (r: seq<Option<Field>>)
    requires |from| == |to| && start <= |from| && |table| == 24
    ensures |r| == 24
    decreases |from| - start
  {
    if start == |from| then table else Link(table[from[start] := Some(to[start])], from, to, start + 1)
  }

  /** After the loop, an entry is untouched when its field is not among the
      remaining keys, and otherwise points at the partner of that key. */
  lemma {:induction false} LinkAt(table: seq<Option<Field>>, from: seq<Field>, to: seq<Field>, start: nat, f: Field)
    requires |from| == |to| && start <= |from| && |table| == 24
    requires forall i, j :: start <= i < j < |from| ==> from[i] != from[j]
    ensures f !in from[start..] ==> Link(table, from, to, start)[f] == table[f]
    ensures forall i :: start <= i < |from| && from[i] == f ==> Link(table, from, to, start)[f] == Some(to[i])
    decreases |from| - start
  {
    if start < |from| {
      assert from[start..] == [from[start]] + from[start + 1..];
      LinkAt(table[from[start] := Some(to[start])], from, to, start + 1, f);
    }
  }

  /** Every left/right pair given to `Initialize` is a pair of mutual
      neighbours of the static tables (typescript/GameBoard.ts:76-79). */
  lemma HorizontalPairsMutual(i: int)
    requires 0 <= i < 16
    ensures RightOf(PairLeft[i]) == Some(PairRight[i]) && LeftOf(PairRight[i]) == Some(PairLeft[i])
  {
    if i == 0 {} else if i == 1 {} else if i == 2 {} else if i == 3 {}
    else if i == 4 {} else if i == 5 {} else if i == 6 {} else if i == 7 {}
    else if i == 8 {} else if i == 9 {} else if i == 10 {} else if i == 11 {}
    else if i == 12 {} else if i == 13 {} else if i == 14 {} else {}
  }

  /** Every top/bottom pair given to `Initialize` is a pair of mutual
      neighbours of the static tables (typescript/GameBoard.ts:83-86). */
  lemma VerticalPairsMutual(i: int)
    requires 0 <= i < 16
    ensures BottomOf(PairTop[i]) == Some(PairBottom[i]) && TopOf(PairBottom[i]) == Some(PairTop[i])
  {
    if i == 0 {} else if i == 1 {} else if i == 2 {} else if i == 3 {}
    else if i == 4 {} else if i == 5 {} else if i == 6 {} else if i == 7 {}
    else if i == 8 {} else if i == 9 {} else if i == 10 {} else if i == 11 {}
    else if i == 12 {} else if i == 13 {} else if i == 14 {} else {}
  }

  /** A field that is no key of `PairLeft` has no right neighbour. */
  lemma UnpairedRight(f: Field)
    ensures f !in PairLeft ==> RightOf(f) == None
  {
    if f == 0 {} else if f == 1 {} else if f == 2 {} else if f == 3 {}
    else if f == 4 {} else if f == 5 {} else if f == 6 {} else if f == 7 {}
    else if f == 8 {} else if f == 9 {} else if f == 10 {} else if f == 11 {}
    else if f == 12 {} else if f == 13 {} else if f == 14 {} else if f == 15 {}
    else if f == 16 {} else if f == 17 {} else if f == 18 {} else if f == 19 {}
    else if f == 20 {} else if f == 21 {} else if f == 22 {} else {}
  }

  /** A field that is no key of `PairRight` has no left neighbour. */
  lemma UnpairedLeft(f: Field)
    ensures f !in PairRight ==> LeftOf(f) == None
  {
    if f == 0 {} else if f == 1 {} else if f == 2 {} else if f == 3 {}
    else if f == 4 {} else if f == 5 {} else if f == 6 {} else if f == 7 {}
    else if f == 8 {} else if f == 9 {} else if f == 10 {} else if f == 11 {}
    else if f == 12 {} else if f == 13 {} else if f == 14 {} else if f == 15 {}
    else if f == 16 {} else if f == 17 {} else if f == 18 {} else if f == 19 {}
    else if f == 20 {} else if f == 21 {} else if f == 22 {} else {}
  }

  /** A field that is no key of `PairTop` has no bottom neighbour. */
  lemma UnpairedBottom(f: Field)
    ensures f !in PairTop ==> BottomOf(f) == None
  {
    if f == 0 {} else if f == 1 {} else if f == 2 {} else if f == 3 {}
    else if f == 4 {} else if f == 5 {} else if f == 6 {} else if f == 7 {}
    else if f == 8 {} else if f == 9 {} else if f == 10 {} else if f == 11 {}
    else if f == 12 {} else if f == 13 {} else if f == 14 {} else if f == 15 {}
    else if f == 16 {} else if f == 17 {} else if f == 18 {} else if f == 19 {}
    else if f == 20 {} else if f == 21 {} else if f == 22 {} else {}
  }

  /** A field that is no key of `PairBottom` has no top neighbour. */
  lemma UnpairedTop(f: Field)
    ensures f !in PairBottom ==> TopOf(f) == None
  {
    if f == 0 {} else if f == 1 {} else if f == 2 {} else if f == 3 {}
    else if f == 4 {} else if f == 5 {} else if f == 6 {} else if f == 7 {}
    else if f == 8 {} else if f == 9 {} else if f == 10 {} else if f == 11 {}
    else if f == 12 {} else if f == 13 {} else if f == 14 {} else if f == 15 {}
    else if f == 16 {} else if f == 17 {} else if f == 18 {} else if f == 19 {}
    else if f == 20 {} else if f == 21 {} else if f == 22 {} else {}
  }

  /** One slot of the linking loop yields exactly the static table. */
  lemma LinkedSlot(from: seq<Field>, to: seq<Field>, table: Field -> Option<Field>)
    requires |from| == |to| == 16
    requires forall i, j :: 0 <= i < j < 16 ==> from[i] != from[j]
    requires forall i :: 0 <= i < 16 ==> table(from[i]) == Some(to[i])
    requires forall f: Field :: f !in from ==> table(f) == None
    ensures forall f: Field :: Link(Unlinked, from, to, 0)[f] == table(f)
  {
    forall f: Field
      ensures Link(Unlinked, from, to, 0)[f] == table(f)
    {
      LinkAt(Unlinked, from, to, 0, f);
      assert from[0..] == from;
    }
  }

  lemma RightLinked()
    ensures forall f: Field :: Link(Unlinked, PairLeft, PairRight, 0)[f] == RightOf(f)
  {
    forall i | 0 <= i < 16
      ensures RightOf(PairLeft[i]) == Some(PairRight[i])
    {
      HorizontalPairsMutual(i);
    }
    forall f: Field
      ensures f !in PairLeft ==> RightOf(f) == None
    {
      UnpairedRight(f);
    }
    LinkedSlot(PairLeft, PairRight, RightOf);
  }

  lemma LeftLinked()
    ensures forall f: Field :: Link(Unlinked, PairRight, PairLeft, 0)[f] == LeftOf(f)
  {
    forall i | 0 <= i < 16
      ensures LeftOf(PairRight[i]) == Some(PairLeft[i])
    {
      HorizontalPairsMutual(i);
    }
    forall f: Field
      ensures f !in PairRight ==> LeftOf(f) == None
    {
      UnpairedLeft(f);
    }
    LinkedSlot(PairRight, PairLeft, LeftOf);
  }

  lemma BottomLinked()
    ensures forall f: Field :: Link(Unlinked, PairTop, PairBottom, 0)[f] == BottomOf(f)
  {
    forall i | 0 <= i < 16
      ensures BottomOf(PairTop[i]) == Some(PairBottom[i])
    {
      VerticalPairsMutual(i);
    }
    forall f: Field
      ensures f !in PairTop ==> BottomOf(f) == None
    {
      UnpairedBottom(f);
    }
    LinkedSlot(PairTop, PairBottom, BottomOf);
  }

  lemma TopLinked()
    ensures forall f: Field :: Link(Unlinked, PairBottom, PairTop, 0)[f] == TopOf(f)
  {
    forall i | 0 <= i < 16
      ensures TopOf(PairBottom[i]) == Some(PairTop[i])
    {
      VerticalPairsMutual(i);
    }
    forall f: Field
      ensures f !in PairBottom ==> TopOf(f) == None
    {
      UnpairedTop(f);
    }
    LinkedSlot(PairBottom, PairTop, TopOf);
  }

  /** The pair tables of `GameBoard.Initialize` link every field to exactly
      the neighbours of `GameNode`'s static tables, so the live board and the
      search share one graph. */
  lemma PairTablesAgree()
    ensures forall f: Field :: Link(Unlinked, PairLeft, PairRight, 0)[f] == RightOf(f)
    ensures forall f: Field :: Link(Unlinked, PairRight, PairLeft, 0)[f] == LeftOf(f)
    ensures forall f: Field :: Link(Unlinked, PairTop, PairBottom, 0)[f] == BottomOf(f)
    ensures forall f: Field :: Link(Unlinked, PairBottom, PairTop, 0)[f] == TopOf(f)
  {
    RightLinked();
    LeftLinked();
    BottomLinked();
    TopLinked();
  }
}
