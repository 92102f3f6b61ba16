/** The would-be-mill predicates of `EnemyAIPrimitive`
    (typescript/EnemyAIZPrimitive.ts): whether moving or placing a stone
    onto an empty field closes a mill along one axis. They read the owner
    table of the live board and re-implement the mill rule independently of
    `GameNode`, so they are checked against it. */
module Primitive {
  import opened Base
  import opened Topology
  import opened Node
  import opened GameField
  import Rating

  /** `WouldBeMuehleHorizontal(field, stone)` along `Horizontal` and
      `wouldBeMuehleVertical` along `Vertical`, as written: a stone standing
      next to the field on the axis is excluded, a stone at the far end of
      the line is not. */
  function WouldBeMillAlong(o: Owners, axis: Axis, f: Field, s: Stone): bool {
    var p, n, c := Prev(axis, f), Next(axis, f), s.color;
    if p.None? && n.None? then false
    else if SitsOn(o, p, s) || SitsOn(o, n, s) then false
    else if p.None? && Next(axis, n.value).Some? then
      OwnedBy(o, n.value, c) && OwnedBy(o, Next(axis, n.value).value, c)
    else if n.None? && Prev(axis, p.value).Some? then
      OwnedBy(o, p.value, c) && OwnedBy(o, Prev(axis, p.value).value, c)
    else p.Some? && n.Some? && OwnedBy(o, p.value, c) && OwnedBy(o, n.value, c)
  }

  /** `wouldBeMuehle`: a mill along either axis. */
  function WouldBeMill(o: Owners, f: Field, s: Stone): bool {
    WouldBeMillAlong(o, Horizontal, f, s) || WouldBeMillAlong(o, Vertical, f, s)
  }

  /** The other two fields of the line through `f` are owned by stones of `c`. */
  predicate MatesOwned(o: Owners, axis: Axis, f: Field, c: Color) {
    var (x, y) := Mates(axis, f);
    OwnedBy(o, x, c) && OwnedBy(o, y, c)
  }

  /** The neighbours of `f` on the axis, where the stone may not stand. */
  predicate Beside(o: Owners, axis: Axis, f: Field, s: Stone) {
    SitsOn(o, Prev(axis, f), s) || SitsOn(o, Next(axis, f), s)
  }

  /** As written, the predicate is false for a stone beside the field on
      the axis, and otherwise says whether the other two fields of the line
      hold stones of the stone's colour, whichever field of the line `f` is. */
  lemma WouldBeMillMeaning(o: Owners, axis: Axis, f: Field, s: Stone)
    ensures WouldBeMillAlong(o, axis, f, s) <==> !Beside(o, axis, f, s) && MatesOwned(o, axis, f, s.color)
  {
    var l := LineOf(axis, f);
    LineSteps(axis, f);
    LineContains(axis, f);
    OthersIn(l, f);
  }

  /** The stone owns one of the other two fields of the line through `f`. */
  predicate OnLine(o: Owners, axis: Axis, f: Field, s: Stone) {
    var (x, y) := Mates(axis, f);
    o[x] == Some(s) || o[y] == Some(s)
  }

  /** For an empty field and a stone on neither line through it, the
      predicate as written says exactly whether placing a stone of that
      colour on the field closes a mill for `GameNode`. */
  lemma WouldBeMillAgrees(o: Owners, f: Field, s: Stone, player: Color, turn: int, phase: Phase)
    requires o[f].None?
    requires !OnLine(o, Horizontal, f, s) && !OnLine(o, Vertical, f, s)
    ensures WouldBeMill(o, f, s) == CheckMill(Put(BoardOf(o, player, turn, phase), s.color, f, true), f)
  {
    AgreesAlong(o, Horizontal, f, s, player, turn, phase);
    AgreesAlong(o, Vertical, f, s, player, turn, phase);
  }

  lemma AgreesAlong(o: Owners, axis: Axis, f: Field, s: Stone, player: Color, turn: int, phase: Phase)
    requires o[f].None? && !OnLine(o, axis, f, s)
    ensures WouldBeMillAlong(o, axis, f, s)
            == CheckMillAlong(Put(BoardOf(o, player, turn, phase), s.color, f, true), axis, f)
  {
    var b := BoardOf(o, player, turn, phase);
    BoardOfColors(o, player, turn, phase);
    WouldBeMillMeaning(o, axis, f, s);
    Rating.ReadyAfterPut(b, s.color, axis, f);
    var (x, y) := Mates(axis, f);
    assert Stones(b, s.color)[x] == OwnedBy(o, x, s.color) && Stones(b, s.color)[y] == OwnedBy(o, y, s.color);
    NotBeside(o, axis, f, s);
  }

  /** A stone on neither mate of `f` does not stand beside it. */
  lemma NotBeside(o: Owners, axis: Axis, f: Field, s: Stone)
    requires !OnLine(o, axis, f, s)
    ensures !Beside(o, axis, f, s)
  {
    MatesOf(axis, f);
    LineSteps(axis, f);
    LineContains(axis, f);
  }

  // ---------------------------------------------------------------------
  // The stone at the far end of the line

  /** With three black stones on the board, one on each of the fields 1 and 2
      of the top row and one elsewhere, the stone on field 2 may fly to field
      0, and the predicate as written reports a mill; after the move the row
      holds only fields 0 and 1, so no mill is closed. */
  lemma FarEndCounterexample()
    ensures var s := Stone(Black, 0);
      var o: Owners := seq(24, (g: int) requires 0 <= g < 24 =>
                         if g == 2 then Some(s) else if g == 1 then Some(Stone(Black, 1))
                         else if g == 9 then Some(Stone(Black, 2)) else None);
      && CanStoneMoveTo(o, [s, Stone(Black, 1), Stone(Black, 2)], s, 0)
      && WouldBeMillAlong(o, Horizontal, 0, s)
      && !IsClosedMill(MoveTo(o, s, 0), Horizontal, 0)
  {
    var s := Stone(Black, 0);
    var o: Owners := seq(24, (g: int) requires 0 <= g < 24 =>
                       if g == 2 then Some(s) else if g == 1 then Some(Stone(Black, 1))
                       else if g == 9 then Some(Stone(Black, 2)) else None);
    var stones := [s, Stone(Black, 1), Stone(Black, 2)];
    assert o[2] == Some(s);
    assert |OnField(o, stones)| <= 3;
    var r := MoveTo(o, s, 0);
    assert r[2] == None;
    ClosedMillMeaning(r, Horizontal, 0);
    assert LineOf(Horizontal, 0) == [0, 1, 2];
  }

  /** The evidently intended predicate: a stone standing anywhere else on
      the line is excluded, since moving it away breaks the line. */
  function WouldCloseMillAlong(o: Owners, axis: Axis, f: Field, s: Stone): bool {
    !OnLine(o, axis, f, s) && WouldBeMillAlong(o, axis, f, s)
  }

  function WouldCloseMill(o: Owners, f: Field, s: Stone): bool {
    WouldCloseMillAlong(o, Horizontal, f, s) || WouldCloseMillAlong(o, Vertical, f, s)
  }

  /** The corrected predicate says exactly whether moving the stone onto the
      empty field closes a mill there on the live board, wherever the stone
      stood before. */
  lemma WouldCloseMillAlongMeaning(o: Owners, axis: Axis, f: Field, s: Stone)
    requires o[f].None?
    ensures WouldCloseMillAlong(o, axis, f, s) <==> IsClosedMill(MoveTo(o, s, f), axis, f)
  {
    var r := MoveTo(o, s, f);
    ClosedMillMeaning(r, axis, f);
    WouldBeMillMeaning(o, axis, f, s);
    MatesOf(axis, f);
    LineSteps(axis, f);
    LineContains(axis, f);
    var l := LineOf(axis, f);
    var (x, y) := Mates(axis, f);
    assert LineOwned(r, axis, f) <==> OwnedBy(r, x, s.color) && OwnedBy(r, y, s.color);
    if !OnLine(o, axis, f, s) {
      assert r[x] == o[x] && r[y] == o[y];
      assert !Beside(o, axis, f, s);
    } else if o[x] == Some(s) {
      assert r[x] == None;
    } else {
      assert r[y] == None;
    }
  }

  /** On both axes: the corrected `wouldBeMuehle` is "the move closes a mill". */
  lemma WouldCloseMillMeaning(o: Owners, f: Field, s: Stone)
    requires o[f].None?
    ensures WouldCloseMill(o, f, s) <==> InClosedMill(MoveTo(o, s, f), f)
  {
    WouldCloseMillAlongMeaning(o, Horizontal, f, s);
    WouldCloseMillAlongMeaning(o, Vertical, f, s);
  }
}
