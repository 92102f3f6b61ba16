/** The live board's fields of typescript/GameField.ts, with the DOM
    objects replaced by field indices: every field has an owner (the stone
    on it, or none), and a stone is placed exactly when it owns a field.
    The mill getters and `CanStoneMoveTo` are pure functions of the owner
    table on the fixed board graph, and agree with `GameNode`'s rules. */
module GameField {
  import opened Base
  import opened Topology
  import opened Node

  /** A `GameStone`: its colour and its index in `GameBoard.stones[color]`
      when it was created. */
  datatype Stone = Stone(color: Color, id: nat)

  /** `gameFields[f].owner` for every field. */
  type Owners = s: seq<Option<Stone>> | |s| == 24 witness seq(24, _ => None)

  /** `gameFields[f].owner && gameFields[f].owner.color == c`. */
  predicate OwnedBy(o: Owners, f: Field, c: Color) {
    o[f].Some? && o[f].value.color == c
  }

  /** `stone.isPlaced`: the stone owns a field. */
  predicate Placed(o: Owners, s: Stone) {
    Some(s) in o
  }

  /** `isClosedMillHorizontal` (along `Horizontal`) and `isClosedMillVertical`
      (along `Vertical`): an end field of a line asks the middle field, which
      compares its two neighbours with its own owner's colour. */
  function IsClosedMill(o: Owners, axis: Axis, f: Field): bool
    decreases if Prev(axis, f).Some? && Next(axis, f).Some? then 0 else 1
  {
    if o[f].None? || (Prev(axis, f).None? && Next(axis, f).None?) then false
    else if Prev(axis, f).None? then
      var n := Next(axis, f).value;
      PrevNextMutual(axis, f, n);
      Next(axis, n).Some? && IsClosedMill(o, axis, n)
    else if Next(axis, f).None? then
      var p := Prev(axis, f).value;
      PrevNextMutual(axis, p, f);
      Prev(axis, p).Some? && IsClosedMill(o, axis, p)
    else OwnedBy(o, Prev(axis, f).value, o[f].value.color) && OwnedBy(o, Next(axis, f).value, o[f].value.color)
  }

  /** All three fields of the line through `f` are owned by stones of one colour. */
  predicate LineOwned(o: Owners, axis: Axis, f: Field) {
    var l := LineOf(axis, f);
    o[f].Some? && OwnedBy(o, l[0], o[f].value.color) && OwnedBy(o, l[1], o[f].value.color)
    && OwnedBy(o, l[2], o[f].value.color)
  }

  /** A field is in a closed mill exactly when its line is owned by stones
      of the colour of its own stone; an empty field never is. */
  lemma ClosedMillMeaning(o: Owners, axis: Axis, f: Field)
    ensures IsClosedMill(o, axis, f) <==> LineOwned(o, axis, f)
    ensures o[f].None? ==> !IsClosedMill(o, axis, f)
  {
    var l := LineOf(axis, f);
    LineSteps(axis, f);
    LineContains(axis, f);
    SameLine(axis, f);
    if f == l[0] {
      assert LineOf(axis, l[1]) == l;
    } else if f == l[2] {
      assert LineOf(axis, l[1]) == l;
    }
  }

  /** The three fields of a line agree on whether it is a closed mill. */
  lemma ClosedMillLineAgrees(o: Owners, axis: Axis, f: Field, g: Field)
    requires g in LineOf(axis, f)
    ensures IsClosedMill(o, axis, g) == IsClosedMill(o, axis, f)
  {
    SameLineAll(axis, f);
    LineContains(axis, f);
    ClosedMillMeaning(o, axis, f);
    ClosedMillMeaning(o, axis, g);
    var l := LineOf(axis, f);
    assert g == l[0] || g == l[1] || g == l[2];
    assert f == l[0] || f == l[1] || f == l[2];
  }

  /** `GameNode.GetFromCurrentBoard`: the stones of each colour on the
      fields, with the game's player, turn and phase. */
  function BoardOf(o: Owners, player: Color, turn: int, phase: Phase): (b: Board)
    ensures Disjoint(b)
  {
    Board(seq(24, (f: int) requires 0 <= f < 24 => OwnedBy(o, f, Black)),
          seq(24, (f: int) requires 0 <= f < 24 => OwnedBy(o, f, White)),
          player, turn, phase)
  }

  /** Every field's colour on the node is the colour of its owner. */
  lemma BoardOfColors(o: Owners, player: Color, turn: int, phase: Phase)
    ensures var b := BoardOf(o, player, turn, phase);
      forall f: Field, c :: Stones(b, c)[f] == OwnedBy(o, f, c)
    ensures var b := BoardOf(o, player, turn, phase);
      forall f: Field :: Occupied(b, f) == o[f].Some? && (o[f].Some? ==> ColorAt(b, f) == o[f].value.color)
  {
  }

  /** The live board's mill getters and `GameNode`'s mill checks give the
      same answer on the same stones. */
  lemma ClosedMillAgrees(o: Owners, player: Color, turn: int, phase: Phase, axis: Axis, f: Field)
    ensures IsClosedMill(o, axis, f) == CheckMillAlong(BoardOf(o, player, turn, phase), axis, f)
  {
    var b := BoardOf(o, player, turn, phase);
    ClosedMillMeaning(o, axis, f);
    CheckMillMeaning(b, axis, f);
    BoardOfColors(o, player, turn, phase);
  }

  /** `stone.isInClosedMill`. */
  predicate InClosedMill(o: Owners, f: Field) {
    IsClosedMill(o, Horizontal, f) || IsClosedMill(o, Vertical, f)
  }

  // ---------------------------------------------------------------------
  // Moving a stone onto a field

  /** `PlaceStoneAtField(stone, field)` on the owner table: the stone leaves
      the field it owned, if any, and owns `f`. */
  function MoveTo(o: Owners, s: Stone, f: Field): (r: Owners)
    ensures r[f] == Some(s)
    ensures forall g: Field :: g != f ==> r[g] == (if o[g] == Some(s) then None else o[g])
  {
    seq(24, (g: int) requires 0 <= g < 24 => if g == f then Some(s) else if o[g] == Some(s) then None else o[g])
  }

  /** `GameBoard.GetStonesOnField(color)` for the list `stones[color]`. */
  function OnField(o: Owners, stones: seq<Stone>): (r: seq<Stone>)
    ensures forall s :: s in r <==> s in stones && Placed(o, s)
    ensures |r| <= |stones|
  {
    if |stones| == 0 then []
    else (if Placed(o, stones[0]) then [stones[0]] else []) + OnField(o, stones[1..])
  }

  /** The fields owned by a stone of `p`. */
  function HeldBy(o: Owners, p: seq<Stone>): seq<bool> {
    seq(24, (f: int) requires 0 <= f < 24 => o[f].Some? && o[f].value in p)
  }

  /** When no stone is listed twice and no stone owns two fields, the stones
      of a list that are on the board are as many as the fields they own. */
  lemma {:induction false} OnFieldCount(o: Owners, p: seq<Stone>)
    requires Distinct(p)
    requires forall f: Field, h: Field :: o[f].Some? && o[h] == o[f] ==> h == f
    ensures |OnField(o, p)| == Count(HeldBy(o, p))
    decreases |p|
  {
    if |p| == 0 {
      CountBound(HeldBy(o, p));
    } else {
      var rest := p[1..];
      assert p == [p[0]] + rest;
      assert forall i :: 0 <= i < |rest| ==> rest[i] == p[i + 1];
      OnFieldCount(o, rest);
      assert p[0] !in rest;
      if Placed(o, p[0]) {
        var k :| 0 <= k < 24 && o[k] == Some(p[0]);
        assert HeldBy(o, p) == HeldBy(o, rest)[k := true];
        CountUpdate(HeldBy(o, rest), k, true);
      } else {
        assert HeldBy(o, p) == HeldBy(o, rest);
      }
    }
  }

  /** The stone owns the field `n`, if there is one. */
  predicate SitsOn(o: Owners, n: Option<Field>, s: Stone) {
    n.Some? && o[n.value] == Some(s)
  }

  /** `CanStoneMoveTo(stone)` for the field `f`, where `stones` is
      `GameBoard.stones[stone.color]`. */
  function CanStoneMoveTo(o: Owners, stones: seq<Stone>, s: Stone, f: Field): bool {
    if o[f].Some? then false
    else !Placed(o, s) || |OnField(o, stones)| <= 3
         || SitsOn(o, BottomOf(f), s) || SitsOn(o, LeftOf(f), s)
         || SitsOn(o, RightOf(f), s) || SitsOn(o, TopOf(f), s)
  }

  /** A stone may go to a field exactly when the field is free and the stone
      is still to be placed, its colour has three stones or fewer on the
      board, or it stands on a neighbour of the field. */
  lemma CanStoneMoveToMeaning(o: Owners, stones: seq<Stone>, s: Stone, f: Field)
    ensures CanStoneMoveTo(o, stones, s, f) <==>
              o[f].None?
              && (!Placed(o, s) || |OnField(o, stones)| <= 3 || exists n :: n in Neighbors(f) && o[n] == Some(s))
  {
    if exists n :: n in Neighbors(f) && o[n] == Some(s) {
      var n :| n in Neighbors(f) && o[n] == Some(s);
      assert SitsOn(o, Prev(Horizontal, f), s) || SitsOn(o, Next(Horizontal, f), s)
             || SitsOn(o, Prev(Vertical, f), s) || SitsOn(o, Next(Vertical, f), s);
    }
    if SitsOn(o, LeftOf(f), s) {
      assert LeftOf(f).value in Neighbors(f);
    } else if SitsOn(o, RightOf(f), s) {
      assert RightOf(f).value in Neighbors(f);
    } else if SitsOn(o, TopOf(f), s) {
      assert TopOf(f).value in Neighbors(f);
    } else if SitsOn(o, BottomOf(f), s) {
      assert BottomOf(f).value in Neighbors(f);
    }
  }

  /** For a placed stone of the player to move, in the moving phase, the
      live board's rule and `GameNode`'s agree: the stone may go to `t`
      exactly when `GameNode` accepts the slide and, unless the player
      flies, lists it among the possible moves. */
  lemma CanStoneMoveToAgrees(o: Owners, stones: seq<Stone>, s: Stone, g: Field, t: Field, turn: int)
    requires o[g] == Some(s)
    requires forall h: Field :: o[h] == Some(s) ==> h == g
    requires |OnField(o, stones)| == StoneCount(BoardOf(o, s.color, turn, Moving), s.color)
    ensures var b := BoardOf(o, s.color, turn, Moving);
      var m := Move(Moving, Some(g), Some(t));
      CanStoneMoveTo(o, stones, s, t) <==>
        MoveStone(b, m).Some? && (StoneCount(b, s.color) > 3 ==> Adjacent(m))
  {
    var b := BoardOf(o, s.color, turn, Moving);
    BoardOfColors(o, s.color, turn, Moving);
    CanStoneMoveToMeaning(o, stones, s, t);
    assert Placed(o, s);
    NeighborsSymmetric(g, t);
    if exists n :: n in Neighbors(t) && o[n] == Some(s) {
      var n :| n in Neighbors(t) && o[n] == Some(s);
      assert n == g;
    }
    if t in Neighbors(g) {
      assert g in Neighbors(t) && o[g] == Some(s);
    }
  }
}
