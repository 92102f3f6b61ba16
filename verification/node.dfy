/** `GameNode` of typescript/EnemyAIMinimax.ts: the rules engine the search
    runs on. A node holds, per colour, which of the 24 fields carry a stone of
    that colour, plus the player to move, the turn counter and the phase.
    The mutating methods `PerformMove` and `UndoMove` become functions from a
    board to an optional board: `None` is `GameNode`'s `return false`, which
    always happens before anything is changed. */
module Node {
  import opened Base
  import opened Topology

  /** One colour's stones, `stones[color]`: entry `f` tells whether that
      colour has a stone on field `f`. */
  type Row = s: seq<bool> | |s| == 24 witness seq(24, _ => false)

  /** `GameMove`; `None` stands for the TypeScript `null`. */
  datatype Move = Move(phase: Phase, from: Option<Field>, to: Option<Field>)

  datatype Board = Board(black: Row, white: Row, player: Color, turn: int, phase: Phase)

  /** `stones[color]`. */
  function Stones(b: Board, c: Color): Row {
    if c == Black then b.black else b.white
  }

  /** `stones[color][f] = v`. */
  function Put(b: Board, c: Color, f: Field, v: bool): (r: Board)
    ensures Stones(r, c) == Stones(b, c)[f := v]
    ensures Stones(r, Opp(c)) == Stones(b, Opp(c))
    ensures r.player == b.player && r.turn == b.turn && r.phase == b.phase
  {
    if c == Black then b.(black := b.black[f := v]) else b.(white := b.white[f := v])
  }

  /** `FieldIsOccupied`. */
  predicate Occupied(b: Board, f: Field) {
    b.white[f] || b.black[f]
  }

  /** No field carries a stone of both colours; every board built from the
      live game has this shape, and every move keeps it. */
  ghost predicate Disjoint(b: Board) {
    forall f: Field :: !(b.black[f] && b.white[f])
  }

  /** `stones[color].filter(b => b).length`. */
  function StoneCount(b: Board, c: Color): nat {
    Count(Stones(b, c))
  }

  /** The colour `CheckMillHorizontal` reads off a field: black is looked at first. */
  function ColorAt(b: Board, f: Field): Color {
    if b.black[f] then Black else White
  }

  /** Colour `c` holds all three fields of `l`. */
  predicate Holds(b: Board, c: Color, l: Line) {
    Stones(b, c)[l[0]] && Stones(b, c)[l[1]] && Stones(b, c)[l[2]]
  }

  // ---------------------------------------------------------------------
  // Mills

  /** `CheckMillHorizontal` (axis Horizontal) and `CheckMillVertical` (axis
      Vertical): the field is in the centre of its line, or at the end after
      two neighbours, or at the start before two neighbours, and the other two
      fields carry the colour of the stone on it. */
  function CheckMillAlong(b: Board, axis: Axis, f: Field): bool {
    if !Occupied(b, f) then false
    else
      var s := Stones(b, ColorAt(b, f));
      var p := Prev(axis, f);
      var n := Next(axis, f);
      if p.Some? && n.Some? then s[p.value] && s[n.value]
      else if p.Some? && Prev(axis, p.value).Some? then s[p.value] && s[Prev(axis, p.value).value]
      else if n.Some? && Next(axis, n.value).Some? then s[n.value] && s[Next(axis, n.value).value]
      else false
  }

  /** Read against the reference lines, the neighbour walk of
      `CheckMillAlong` finds a mill exactly when the field is occupied and
      its whole line carries the colour of the stone on it. */
  lemma CheckMillMeaning(b: Board, axis: Axis, f: Field)
    ensures CheckMillAlong(b, axis, f) <==> Occupied(b, f) && Holds(b, ColorAt(b, f), LineOf(axis, f))
  {
    if f == 0 { MillAt0(b, axis); } else if f == 1 { MillAt1(b, axis); } else if f == 2 { MillAt2(b, axis); }
    else if f == 3 { MillAt3(b, axis); } else if f == 4 { MillAt4(b, axis); } else if f == 5 { MillAt5(b, axis); }
    else if f == 6 { MillAt6(b, axis); } else if f == 7 { MillAt7(b, axis); } else if f == 8 { MillAt8(b, axis); }
    else if f == 9 { MillAt9(b, axis); } else if f == 10 { MillAt10(b, axis); } else if f == 11 { MillAt11(b, axis); }
    else if f == 12 { MillAt12(b, axis); } else if f == 13 { MillAt13(b, axis); } else if f == 14 { MillAt14(b, axis); }
    else if f == 15 { MillAt15(b, axis); } else if f == 16 { MillAt16(b, axis); } else if f == 17 { MillAt17(b, axis); }
    else if f == 18 { MillAt18(b, axis); } else if f == 19 { MillAt19(b, axis); } else if f == 20 { MillAt20(b, axis); }
    else if f == 21 { MillAt21(b, axis); } else if f == 22 { MillAt22(b, axis); } else { MillAt23(b, axis); }
  }

  // The walk, field by field: each is a ground computation on the tables.
  // They are separate lemmas so that each solver query unfolds the tables
  // at one field only; a single lemma covering all 24 fields would have to
  // unfold them everywhere in one query.
  lemma MillAt0(b: Board, axis: Axis)
    ensures CheckMillAlong(b, axis, 0) <==> Occupied(b, 0) && Holds(b, ColorAt(b, 0), LineOf(axis, 0))
  {}
  lemma MillAt1(b: Board, axis: Axis)
    ensures CheckMillAlong(b, axis, 1) <==> Occupied(b, 1) && Holds(b, ColorAt(b, 1), LineOf(axis, 1))
  {}
  lemma MillAt2(b: Board, axis: Axis)
    ensures CheckMillAlong(b, axis, 2) <==> Occupied(b, 2) && Holds(b, ColorAt(b, 2), LineOf(axis, 2))
  {}
  lemma MillAt3(b: Board, axis: Axis)
    ensures CheckMillAlong(b, axis, 3) <==> Occupied(b, 3) && Holds(b, ColorAt(b, 3), LineOf(axis, 3))
  {}
  lemma MillAt4(b: Board, axis: Axis)
    ensures CheckMillAlong(b, axis, 4) <==> Occupied(b, 4) && Holds(b, ColorAt(b, 4), LineOf(axis, 4))
  {}
  lemma MillAt5(b: Board, axis: Axis)
    ensures CheckMillAlong(b, axis, 5) <==> Occupied(b, 5) && Holds(b, ColorAt(b, 5), LineOf(axis, 5))
  {}
  lemma MillAt6(b: Board, axis: Axis)
    ensures CheckMillAlong(b, axis, 6) <==> Occupied(b, 6) && Holds(b, ColorAt(b, 6), LineOf(axis, 6))
  {}
  lemma MillAt7(b: Board, axis: Axis)
    ensures CheckMillAlong(b, axis, 7) <==> Occupied(b, 7) && Holds(b, ColorAt(b, 7), LineOf(axis, 7))
  {}
  lemma MillAt8(b: Board, axis: Axis)
    ensures CheckMillAlong(b, axis, 8) <==> Occupied(b, 8) && Holds(b, ColorAt(b, 8), LineOf(axis, 8))
  {}
  lemma MillAt9(b: Board, axis: Axis)
    ensures CheckMillAlong(b, axis, 9) <==> Occupied(b, 9) && Holds(b, ColorAt(b, 9), LineOf(axis, 9))
  {}
  lemma MillAt10(b: Board, axis: Axis)
    ensures CheckMillAlong(b, axis, 10) <==> Occupied(b, 10) && Holds(b, ColorAt(b, 10), LineOf(axis, 10))
  {}
  lemma MillAt11(b: Board, axis: Axis)
    ensures CheckMillAlong(b, axis, 11) <==> Occupied(b, 11) && Holds(b, ColorAt(b, 11), LineOf(axis, 11))
  {}
  lemma MillAt12(b: Board, axis: Axis)
    ensures CheckMillAlong(b, axis, 12) <==> Occupied(b, 12) && Holds(b, ColorAt(b, 12), LineOf(axis, 12))
  {}
  lemma MillAt13(b: Board, axis: Axis)
    ensures CheckMillAlong(b, axis, 13) <==> Occupied(b, 13) && Holds(b, ColorAt(b, 13), LineOf(axis, 13))
  {}
  lemma MillAt14(b: Board, axis: Axis)
    ensures CheckMillAlong(b, axis, 14) <==> Occupied(b, 14) && Holds(b, ColorAt(b, 14), LineOf(axis, 14))
  {}
  lemma MillAt15(b: Board, axis: Axis)
    ensures CheckMillAlong(b, axis, 15) <==> Occupied(b, 15) && Holds(b, ColorAt(b, 15), LineOf(axis, 15))
  {}
  lemma MillAt16(b: Board, axis: Axis)
    ensures CheckMillAlong(b, axis, 16) <==> Occupied(b, 16) && Holds(b, ColorAt(b, 16), LineOf(axis, 16))
  {}
  lemma MillAt17(b: Board, axis: Axis)
    ensures CheckMillAlong(b, axis, 17) <==> Occupied(b, 17) && Holds(b, ColorAt(b, 17), LineOf(axis, 17))
  {}
  lemma MillAt18(b: Board, axis: Axis)
    ensures CheckMillAlong(b, axis, 18) <==> Occupied(b, 18) && Holds(b, ColorAt(b, 18), LineOf(axis, 18))
  {}
  lemma MillAt19(b: Board, axis: Axis)
    ensures CheckMillAlong(b, axis, 19) <==> Occupied(b, 19) && Holds(b, ColorAt(b, 19), LineOf(axis, 19))
  {}
  lemma MillAt20(b: Board, axis: Axis)
    ensures CheckMillAlong(b, axis, 20) <==> Occupied(b, 20) && Holds(b, ColorAt(b, 20), LineOf(axis, 20))
  {}
  lemma MillAt21(b: Board, axis: Axis)
    ensures CheckMillAlong(b, axis, 21) <==> Occupied(b, 21) && Holds(b, ColorAt(b, 21), LineOf(axis, 21))
  {}
  lemma MillAt22(b: Board, axis: Axis)
    ensures CheckMillAlong(b, axis, 22) <==> Occupied(b, 22) && Holds(b, ColorAt(b, 22), LineOf(axis, 22))
  {}
  lemma MillAt23(b: Board, axis: Axis)
    ensures CheckMillAlong(b, axis, 23) <==> Occupied(b, 23) && Holds(b, ColorAt(b, 23), LineOf(axis, 23))
  {}

  /** `CheckMill`: a horizontal or a vertical mill runs through the field. */
  function CheckMill(b: Board, f: Field): bool {
    CheckMillAlong(b, Horizontal, f) || CheckMillAlong(b, Vertical, f)
  }

  /** A field is in a mill exactly when it is occupied and its row or its
      column carries the colour of the stone on it throughout. */
  lemma CheckMillLines(b: Board, f: Field)
    ensures CheckMill(b, f) <==>
              Occupied(b, f)
              && (Holds(b, ColorAt(b, f), LineOf(Horizontal, f)) || Holds(b, ColorAt(b, f), LineOf(Vertical, f)))
  {
    CheckMillMeaning(b, Horizontal, f);
    CheckMillMeaning(b, Vertical, f);
  }

  // ---------------------------------------------------------------------
  // Winner

  /** Some neighbour of `f` is free (`GetNeighbors(f).some(n => !FieldIsOccupied(n))`). */
  predicate HasFreeNeighbor(b: Board, f: Field) {
    exists n :: n in Neighbors(f) && !Occupied(b, n)
  }

  /** The player to move has a stone on `f` that can slide. */
  predicate CanSlide(b: Board, f: Field) {
    Stones(b, b.player)[f] && HasFreeNeighbor(b, f)
  }

  /** The scan of `GetWinner` over fields `i..23` for a stone of the player
      to move that could slide to a free neighbour. */
  function SlidableFrom(b: Board, i: nat): bool
    requires i <= 24
    decreases 24 - i
  {
    if i == 24 then false else CanSlide(b, i) || SlidableFrom(b, i + 1)
  }

  lemma {:induction false} SlidableFromMeaning(b: Board, i: nat)
    requires i <= 24
    ensures SlidableFrom(b, i) <==> exists f: Field :: i <= f && CanSlide(b, f)
    decreases 24 - i
  {
    if i < 24 {
      SlidableFromMeaning(b, i + 1);
      if CanSlide(b, i) {
        assert i <= i && CanSlide(b, i);
      }
      if exists f: Field :: i <= f && CanSlide(b, f) {
        var f: Field :| i <= f && CanSlide(b, f);
        if f != i {
          assert i + 1 <= f;
        }
      }
    }
  }

  /** `GetWinner`: after a mill late in the game that leaves the opponent
      three stones or fewer, the player to move has won; while moving, a
      player with more than three stones and no stone that can slide has lost. */
  function GetWinner(b: Board): Option<Color> {
    if b.phase == Removing && b.turn > 17 && StoneCount(b, Opp(b.player)) <= 3 then Some(b.player)
    else if b.phase == Moving then
      if StoneCount(b, b.player) <= 3 then None
      else if SlidableFrom(b, 0) then None
      else Some(Opp(b.player))
    else None
  }

  /** Every neighbour of every stone of the player to move is occupied. */
  ghost predicate Stuck(b: Board) {
    forall f: Field, n :: Stones(b, b.player)[f] && n in Neighbors(f) ==> Occupied(b, n)
  }

  /** Only the moving and the removing phase have a winner: the player to
      move after a mill, or the opponent of a player who cannot slide. In
      the moving phase that happens exactly when the player has more than
      three stones and all of them are stuck. */
  lemma GetWinnerMeaning(b: Board)
    ensures GetWinner(b).Some? ==> b.phase == Removing || b.phase == Moving
    ensures GetWinner(b).Some? ==>
              GetWinner(b).value == (if b.phase == Removing then b.player else Opp(b.player))
    ensures b.phase == Moving ==> (GetWinner(b).Some? <==> StoneCount(b, b.player) > 3 && Stuck(b))
  {
    SlidableFromMeaning(b, 0);
    if SlidableFrom(b, 0) {
      var f: Field :| CanSlide(b, f);
      var n :| n in Neighbors(f) && !Occupied(b, n);
      assert !Stuck(b);
    } else {
      forall f: Field, n | Stones(b, b.player)[f] && n in Neighbors(f)
        ensures Occupied(b, n)
      {
        if !Occupied(b, n) {
          assert CanSlide(b, f);
        }
      }
    }
  }

  // ---------------------------------------------------------------------
  // Moves

  /** A stone of colour `c` stands on `f` outside every mill. */
  predicate Removable(b: Board, c: Color, f: Field) {
    Stones(b, c)[f] && !CheckMill(b, f)
  }

  /** The scan of `stones[c].some((b, f) => b && !CheckMill(f))` over
      fields `i..23`. */
  function RemovableFrom(b: Board, c: Color, i: nat): bool
    requires i <= 24
    decreases 24 - i
  {
    if i == 24 then false else Removable(b, c, i) || RemovableFrom(b, c, i + 1)
  }

  lemma {:induction false} RemovableFromMeaning(b: Board, c: Color, i: nat)
    requires i <= 24
    ensures RemovableFrom(b, c, i) <==> exists f: Field :: i <= f && Removable(b, c, f)
    decreases 24 - i
  {
    if i < 24 {
      RemovableFromMeaning(b, c, i + 1);
      if Removable(b, c, i) {
        assert i <= i && Removable(b, c, i);
      }
      if exists f: Field :: i <= f && Removable(b, c, f) {
        var f: Field :| i <= f && Removable(b, c, f);
        if f != i {
          assert i + 1 <= f;
        }
      }
    }
  }

  /** `IncrementAndUpdate`: after a stone has been placed on, moved to or
      removed from `f`, either the same player gets to remove a stone (a
      mill was closed at `f` and the opponent has a removable stone or three
      stones or fewer), or the turn ends. */
  function IncrementAndUpdate(b: Board, f: Field): (r: Board)
    ensures r.black == b.black && r.white == b.white
    ensures || (r.phase == Removing && r.player == b.player && r.turn == b.turn)
            || (r.phase == (if b.turn < 17 then Placing else Moving)
                && r.player == Opp(b.player) && r.turn == b.turn + 1)
    ensures r.phase == Removing ==> b.phase != Removing && CheckMill(b, f)
    ensures b.phase != Removing && CheckMill(b, f) && StoneCount(b, Opp(b.player)) <= 3 ==> r.phase == Removing
  {
    if b.phase != Removing && CheckMill(b, f)
       && (RemovableFrom(b, Opp(b.player), 0) || StoneCount(b, Opp(b.player)) <= 3)
    then b.(phase := Removing)
    else b.(phase := if b.turn < 17 then Placing else Moving, turn := b.turn + 1, player := Opp(b.player))
  }

  /** The move that closed a mill hands the turn to a removal exactly when
      the opponent has a stone outside every mill, or at most three stones. */
  lemma UpdateEntersRemoving(b: Board, f: Field)
    ensures IncrementAndUpdate(b, f).phase == Removing <==>
              b.phase != Removing && CheckMill(b, f)
              && ((exists g: Field :: Removable(b, Opp(b.player), g)) || StoneCount(b, Opp(b.player)) <= 3)
  {
    RemovableFromMeaning(b, Opp(b.player), 0);
  }

  /** The placing branch of `PerformMove`: a placement onto a free field. */
  function PlaceStone(b: Board, m: Move): Option<Board> {
    if m.from.Some? || m.to.None? || Occupied(b, m.to.value) then None
    else Some(IncrementAndUpdate(Put(b, b.player, m.to.value, true), m.to.value))
  }

  /** The moving branch of `PerformMove`: an own stone onto a free field. */
  function MoveStone(b: Board, m: Move): Option<Board> {
    if m.from.None? || m.to.None? || Occupied(b, m.to.value) || !Stones(b, b.player)[m.from.value] then None
    else Some(IncrementAndUpdate(Put(Put(b, b.player, m.from.value, false), b.player, m.to.value, true), m.to.value))
  }

  /** A slide is accepted exactly from an own stone to a free field. */
  lemma MoveStoneAccepts(b: Board, m: Move)
    ensures MoveStone(b, m).Some? <==>
              m.from.Some? && m.to.Some? && !Occupied(b, m.to.value) && Stones(b, b.player)[m.from.value]
  {
  }

  /** The removing branch of `PerformMove`: an opponent stone in no mill. */
  function RemoveStone(b: Board, m: Move): Option<Board> {
    if m.from.None? || m.to.Some? || !Stones(b, Opp(b.player))[m.from.value] || CheckMill(b, m.from.value) then None
    else Some(IncrementAndUpdate(Put(b, Opp(b.player), m.from.value, false), m.from.value))
  }

  /** `PerformMove`: a move of the wrong phase, or after the game has been
      won, is refused; otherwise the branch of the phase checks and applies it. */
  function PerformMove(b: Board, m: Move): Option<Board> {
    if m.phase != b.phase then None
    else if GetWinner(b).Some? then None
    else match b.phase
      case Placing => PlaceStone(b, m)
      case Moving => MoveStone(b, m)
      case Removing => RemoveStone(b, m)
      case _ => None
  }

  /** The cases in which `PerformMove` returns false (and so changes nothing). */
  lemma PerformMoveRefuses(b: Board, m: Move)
    ensures m.phase != b.phase ==> PerformMove(b, m).None?
    ensures GetWinner(b).Some? ==> PerformMove(b, m).None?
    ensures b.phase == Placing && (m.from.Some? || m.to.None? || Occupied(b, m.to.value))
            ==> PerformMove(b, m).None?
    ensures b.phase == Moving
            && (m.from.None? || m.to.None? || !Stones(b, b.player)[m.from.value] || Occupied(b, m.to.value))
            ==> PerformMove(b, m).None?
    ensures b.phase == Removing
            && (m.from.None? || m.to.Some? || !Stones(b, Opp(b.player))[m.from.value] || CheckMill(b, m.from.value))
            ==> PerformMove(b, m).None?
    ensures b.phase !in {Placing, Moving, Removing} ==> PerformMove(b, m).None?
  {
  }

  /** `UndoMove`: the stones of the move are put back for the player who
      made it, and the turn, player and phase are rewound. */
  function UndoMove(b: Board, m: Move): Option<Board> {
    var last := LastPlayer(b);
    match m.phase
      case Placing =>
        if m.from.Some? || m.to.None? || !Stones(b, last)[m.to.value] then None
        else Some(Rewind(Put(b, last, m.to.value, false), b, m))
      case Moving =>
        if m.from.None? || m.to.None? || !Stones(b, last)[m.to.value] || Occupied(b, m.from.value) then None
        else Some(Rewind(Put(Put(b, last, m.from.value, true), last, m.to.value, false), b, m))
      case Removing =>
        if m.from.None? || m.to.Some? || Occupied(b, m.from.value) then None
        else Some(Rewind(Put(b, Opp(last), m.from.value, true), b, m))
      case _ => None
  }

  /** The player who made the last move: the one to move if a stone is to
      be removed now, since closing a mill does not switch players. */
  function LastPlayer(b: Board): Color {
    if b.phase == Removing then b.player else Opp(b.player)
  }

  /** The bookkeeping of `UndoMove` on the board `c` with the stones put
      back: the turn goes back unless a removal was pending in `b`, and the
      player and phase become those of the undone move. */
  function Rewind(c: Board, b: Board, m: Move): Board {
    c.(turn := if b.phase != Removing then b.turn - 1 else b.turn, player := LastPlayer(b), phase := m.phase)
  }

  /** The fields a move names. */
  predicate Touches(m: Move, f: Field) {
    m.from == Some(f) || m.to == Some(f)
  }

  /** What an accepted move does to the stones: it keeps the board
      disjoint, leaves every field it does not name alone, and changes the
      stone counts as its phase says (a placement adds one stone of the
      mover, a slide keeps both counts, a removal takes one opponent stone). */
  lemma PerformMoveEffects(b: Board, m: Move)
    requires Disjoint(b)
    requires PerformMove(b, m).Some?
    ensures var r := PerformMove(b, m).value;
      && Disjoint(r)
      && m.phase == b.phase && GetWinner(b).None?
      && (forall f: Field :: !Touches(m, f) ==> r.black[f] == b.black[f] && r.white[f] == b.white[f])
      && (m.phase == Placing ==>
            StoneCount(r, b.player) == StoneCount(b, b.player) + 1
            && StoneCount(r, Opp(b.player)) == StoneCount(b, Opp(b.player)))
      && (m.phase == Moving ==>
            StoneCount(r, b.player) == StoneCount(b, b.player)
            && StoneCount(r, Opp(b.player)) == StoneCount(b, Opp(b.player)))
      && (m.phase == Removing ==>
            StoneCount(r, b.player) == StoneCount(b, b.player)
            && StoneCount(r, Opp(b.player)) == StoneCount(b, Opp(b.player)) - 1)
  {
    match b.phase
      case Placing => PlaceEffects(b, m);
      case Moving => SlideEffects(b, m);
      case Removing => RemovalEffects(b, m);
  }

  lemma PlaceEffects(b: Board, m: Move)
    requires Disjoint(b) && PlaceStone(b, m).Some?
    ensures var r := PlaceStone(b, m).value;
      && Disjoint(r)
      && (forall f: Field :: !Touches(m, f) ==> r.black[f] == b.black[f] && r.white[f] == b.white[f])
      && StoneCount(r, b.player) == StoneCount(b, b.player) + 1
      && StoneCount(r, Opp(b.player)) == StoneCount(b, Opp(b.player))
  {
    var p, t := b.player, m.to.value;
    CountUpdate(Stones(b, p), t, true);
    var c := Put(b, p, t, true);
    assert Stones(IncrementAndUpdate(c, t), p) == Stones(c, p);
  }

  lemma SlideEffects(b: Board, m: Move)
    requires Disjoint(b) && MoveStone(b, m).Some?
    ensures var r := MoveStone(b, m).value;
      && Disjoint(r)
      && (forall f: Field :: !Touches(m, f) ==> r.black[f] == b.black[f] && r.white[f] == b.white[f])
      && StoneCount(r, b.player) == StoneCount(b, b.player)
      && StoneCount(r, Opp(b.player)) == StoneCount(b, Opp(b.player))
  {
    var p, f, t := b.player, m.from.value, m.to.value;
    var s := Stones(b, p);
    CountUpdate(s, f, false);
    CountUpdate(s[f := false], t, true);
    var c := Put(Put(b, p, f, false), p, t, true);
    assert Stones(IncrementAndUpdate(c, t), p) == Stones(c, p);
  }

  lemma RemovalEffects(b: Board, m: Move)
    requires Disjoint(b) && RemoveStone(b, m).Some?
    ensures var r := RemoveStone(b, m).value;
      && Disjoint(r)
      && (forall f: Field :: !Touches(m, f) ==> r.black[f] == b.black[f] && r.white[f] == b.white[f])
      && StoneCount(r, b.player) == StoneCount(b, b.player)
      && StoneCount(r, Opp(b.player)) == StoneCount(b, Opp(b.player)) - 1
  {
    var p, f := b.player, m.from.value;
    CountUpdate(Stones(b, Opp(p)), f, false);
    var c := Put(b, Opp(p), f, false);
    assert Stones(IncrementAndUpdate(c, f), Opp(p)) == Stones(c, Opp(p));
  }

  /** `UndoMove` takes back what `PerformMove` did: on a disjoint board, an
      accepted move followed by its undo gives back the board exactly,
      stones, player, turn and phase. */
  lemma PerformThenUndo(b: Board, m: Move)
    requires Disjoint(b)
    requires PerformMove(b, m).Some?
    ensures UndoMove(PerformMove(b, m).value, m) == Some(b)
  {
    match b.phase
      case Placing => UndoPlace(b, m);
      case Moving => UndoSlide(b, m);
      case Removing => UndoRemoval(b, m);
  }

  /** After `IncrementAndUpdate`, `UndoMove` finds the mover again and
      rewinds the turn and the phase to those of `b`. */
  lemma RewindAfterUpdate(b: Board, c: Board, f: Field, m: Move)
    requires c.player == b.player && c.turn == b.turn && c.phase == b.phase && m.phase == b.phase
    ensures var r := IncrementAndUpdate(c, f);
      LastPlayer(r) == b.player
      && forall d: Board :: d.black == b.black && d.white == b.white ==> Rewind(d, r, m) == b
  {
  }

  lemma UndoPlace(b: Board, m: Move)
    requires b.phase == Placing && PlaceStone(b, m).Some? && m.phase == b.phase
    ensures UndoMove(PlaceStone(b, m).value, m) == Some(b)
  {
    var p, t := b.player, m.to.value;
    var c := Put(b, p, t, true);
    var r := IncrementAndUpdate(c, t);
    RewindAfterUpdate(b, c, t, m);
    var u := Put(r, p, t, false);
    assert Stones(u, p) == Stones(b, p);
    assert Stones(u, Opp(p)) == Stones(b, Opp(p));
    assert u.black == b.black && u.white == b.white;
  }

  lemma UndoSlide(b: Board, m: Move)
    requires Disjoint(b)
    requires b.phase == Moving && MoveStone(b, m).Some? && m.phase == b.phase
    ensures UndoMove(MoveStone(b, m).value, m) == Some(b)
  {
    var p, f, t := b.player, m.from.value, m.to.value;
    var c := Put(Put(b, p, f, false), p, t, true);
    var r := IncrementAndUpdate(c, t);
    RewindAfterUpdate(b, c, t, m);
    var u := Put(Put(r, p, f, true), p, t, false);
    assert Stones(u, p) == Stones(b, p);
    assert Stones(u, Opp(p)) == Stones(b, Opp(p));
    assert u.black == b.black && u.white == b.white;
  }

  lemma UndoRemoval(b: Board, m: Move)
    requires Disjoint(b)
    requires b.phase == Removing && RemoveStone(b, m).Some? && m.phase == b.phase
    ensures UndoMove(RemoveStone(b, m).value, m) == Some(b)
  {
    var p, f := b.player, m.from.value;
    var c := Put(b, Opp(p), f, false);
    var r := IncrementAndUpdate(c, f);
    RewindAfterUpdate(b, c, f, m);
    assert !Occupied(r, f);
    var u := Put(r, Opp(p), f, true);
    assert Stones(u, Opp(p)) == Stones(b, Opp(p));
    assert Stones(u, p) == Stones(b, p);
    assert u.black == b.black && u.white == b.white;
  }

  // ---------------------------------------------------------------------
  // Possible moves

  /** Every placement listed for fields `i..23`, in field order. */
  function PlaceMoves(b: Board, i: nat): (r: seq<Move>)
    requires i <= 24
    ensures forall k :: 0 <= k < |r| ==>
              r[k].phase == b.phase && r[k].from.None? && r[k].to.Some? && i <= r[k].to.value
    ensures forall j, k :: 0 <= j < k < |r| ==> r[j].to.value < r[k].to.value
    decreases 24 - i
  {
    if i == 24 then []
    else (if Occupied(b, i) then [] else [Move(b.phase, None, Some(i))]) + PlaceMoves(b, i + 1)
  }

  lemma {:induction false} PlaceMember(b: Board, i: nat, t: Field)
    requires i <= 24
    ensures Move(b.phase, None, Some(t)) in PlaceMoves(b, i) <==> i <= t && !Occupied(b, t)
    decreases 24 - i
  {
    if i < 24 {
      PlaceMember(b, i + 1, t);
    }
  }

  /** The flying moves of the stone on `from` to the free fields `j..23`. */
  function FlyFrom(b: Board, from: Field, j: nat): (r: seq<Move>)
    requires j <= 24
    ensures forall k :: 0 <= k < |r| ==>
              r[k].phase == b.phase && r[k].from == Some(from) && r[k].to.Some? && j <= r[k].to.value
    ensures forall k, l :: 0 <= k < l < |r| ==> r[k].to.value < r[l].to.value
    decreases 24 - j
  {
    if j == 24 then []
    else (if Occupied(b, j) then [] else [Move(b.phase, Some(from), Some(j))]) + FlyFrom(b, from, j + 1)
  }

  lemma {:induction false} FlyMember(b: Board, from: Field, j: nat, t: Field)
    requires j <= 24
    ensures Move(b.phase, Some(from), Some(t)) in FlyFrom(b, from, j) <==> j <= t && !Occupied(b, t)
    decreases 24 - j
  {
    if j < 24 {
      FlyMember(b, from, j + 1, t);
    }
  }

  /** The slides of the stone on `from` to those of `ns` that are free. */
  function StepFrom(b: Board, from: Field, ns: seq<Field>): (r: seq<Move>)
    ensures forall k :: 0 <= k < |r| ==>
              r[k].phase == b.phase && r[k].from == Some(from) && r[k].to.Some? && r[k].to.value in ns
  {
    if |ns| == 0 then []
    else (if Occupied(b, ns[0]) then [] else [Move(b.phase, Some(from), Some(ns[0]))]) + StepFrom(b, from, ns[1..])
  }

  lemma {:induction false} StepMember(b: Board, from: Field, ns: seq<Field>, t: Field)
    ensures Move(b.phase, Some(from), Some(t)) in StepFrom(b, from, ns) <==> t in ns && !Occupied(b, t)
  {
    if |ns| > 0 {
      StepMember(b, from, ns[1..], t);
      assert ns == [ns[0]] + ns[1..];
    }
  }

  /** The moves of the player's own stone on `f`: to every free field when
      flying (three stones or fewer), to free neighbours otherwise. */
  function MovesOf(b: Board, f: Field): (r: seq<Move>)
    ensures forall k :: 0 <= k < |r| ==> r[k].phase == b.phase && r[k].from == Some(f) && r[k].to.Some?
  {
    if !Stones(b, b.player)[f] then []
    else if StoneCount(b, b.player) <= 3 then FlyFrom(b, f, 0)
    else StepFrom(b, f, Neighbors(f))
  }

  lemma MovesOfMember(b: Board, f: Field, t: Field)
    ensures Move(b.phase, Some(f), Some(t)) in MovesOf(b, f) <==>
              Stones(b, b.player)[f] && !Occupied(b, t) && (StoneCount(b, b.player) <= 3 || t in Neighbors(f))
  {
    if Stones(b, b.player)[f] {
      if StoneCount(b, b.player) <= 3 {
        FlyMember(b, f, 0, t);
      } else {
        StepMember(b, f, Neighbors(f), t);
      }
    }
  }

  /** The moves of the player's stones on fields `i..23`, by field. */
  function SlideMoves(b: Board, i: nat): (r: seq<Move>)
    requires i <= 24
    ensures forall k :: 0 <= k < |r| ==>
              r[k].phase == b.phase && r[k].from.Some? && r[k].to.Some? && i <= r[k].from.value
    ensures forall j, k :: 0 <= j < k < |r| ==> r[j].from.value <= r[k].from.value
    decreases 24 - i
  {
    if i == 24 then [] else MovesOf(b, i) + SlideMoves(b, i + 1)
  }

  lemma {:induction false} SlideMember(b: Board, i: nat, f: Field, t: Field)
    requires i <= 24
    ensures Move(b.phase, Some(f), Some(t)) in SlideMoves(b, i) <==>
              i <= f && Stones(b, b.player)[f] && !Occupied(b, t)
              && (StoneCount(b, b.player) <= 3 || t in Neighbors(f))
    decreases 24 - i
  {
    if i < 24 {
      SlideMember(b, i + 1, f, t);
      if f == i {
        MovesOfMember(b, f, t);
      } else {
        assert Move(b.phase, Some(f), Some(t)) !in MovesOf(b, i);
      }
    }
  }

  /** The removal of the opponent stone on `f`, if it is in no mill. */
  function RemovalOf(b: Board, f: Field): (r: seq<Move>)
    ensures forall k :: 0 <= k < |r| ==> r[k] == Move(b.phase, Some(f), None)
    ensures |r| <= 1
  {
    if !Stones(b, Opp(b.player))[f] || CheckMill(b, f) then [] else [Move(b.phase, Some(f), None)]
  }

  /** The removals of opponent stones on fields `i..23` that are in no mill. */
  function RemoveMoves(b: Board, i: nat): (r: seq<Move>)
    requires i <= 24
    ensures forall k :: 0 <= k < |r| ==>
              r[k].phase == b.phase && r[k].from.Some? && r[k].to.None? && i <= r[k].from.value
    ensures forall j, k :: 0 <= j < k < |r| ==> r[j].from.value < r[k].from.value
    decreases 24 - i
  {
    if i == 24 then [] else RemovalOf(b, i) + RemoveMoves(b, i + 1)
  }

  lemma {:induction false} RemoveMember(b: Board, i: nat, f: Field)
    requires i <= 24
    ensures Move(b.phase, Some(f), None) in RemoveMoves(b, i) <==>
              i <= f && Stones(b, Opp(b.player))[f] && !CheckMill(b, f)
    decreases 24 - i
  {
    if i < 24 {
      RemoveMember(b, i + 1, f);
      var x := Move(b.phase, Some(f), None);
      assert x in RemoveMoves(b, i) <==> x in RemovalOf(b, i) || x in RemoveMoves(b, i + 1);
      if f != i {
        assert x !in RemovalOf(b, i);
      }
    }
  }

  /** `GetPossibleMoves`: nothing once there is a winner; otherwise the
      placements, slides or removals of the current phase, in field order. */
  function GetPossibleMoves(b: Board): seq<Move> {
    if GetWinner(b).Some? then []
    else match b.phase
      case Placing => PlaceMoves(b, 0)
      case Moving => SlideMoves(b, 0)
      case Removing => RemoveMoves(b, 0)
      case _ => []
  }

  /** A move between two neighbouring fields. */
  predicate Adjacent(m: Move) {
    m.from.Some? && m.to.Some? && m.to.value in Neighbors(m.from.value)
  }

  /** The list of possible moves is exactly the set of moves `PerformMove`
      accepts, except that a player with more than three stones in the moving
      phase is offered only slides to a neighbour. */
  lemma PossibleMovesExact(b: Board, m: Move)
    ensures m in GetPossibleMoves(b) <==>
              PerformMove(b, m).Some?
              && (b.phase == Moving && StoneCount(b, b.player) > 3 ==> Adjacent(m))
  {
    if GetWinner(b).None? {
      match b.phase
        case Placing => PlacementsListed(b, m);
        case Moving => SlidesListed(b, m);
        case Removing => RemovalsListed(b, m);
        case _ =>
    }
  }

  lemma PlacementsListed(b: Board, m: Move)
    ensures m in PlaceMoves(b, 0) <==> m.phase == b.phase && PlaceStone(b, m).Some?
  {
    if m.from.None? && m.to.Some? {
      PlaceMember(b, 0, m.to.value);
      if m.phase == b.phase {
        assert m == Move(b.phase, None, Some(m.to.value));
      }
    }
  }

  lemma SlidesListed(b: Board, m: Move)
    ensures m in SlideMoves(b, 0) <==>
              m.phase == b.phase && MoveStone(b, m).Some? && (StoneCount(b, b.player) > 3 ==> Adjacent(m))
  {
    MoveStoneAccepts(b, m);
    if m.from.Some? && m.to.Some? {
      SlideMember(b, 0, m.from.value, m.to.value);
      if m.phase == b.phase {
        assert m == Move(b.phase, Some(m.from.value), Some(m.to.value));
      }
    }
  }

  lemma RemovalsListed(b: Board, m: Move)
    ensures m in RemoveMoves(b, 0) <==> m.phase == b.phase && RemoveStone(b, m).Some?
  {
    if m.from.Some? && m.to.None? {
      RemoveMember(b, 0, m.from.value);
      if m.phase == b.phase {
        assert m == Move(b.phase, Some(m.from.value), None);
      }
    }
  }

  /** No move is listed twice: `GetPossibleMoves` offers each legal move once. */
  lemma PossibleMovesDistinct(b: Board)
    ensures forall j, k :: 0 <= j < k < |GetPossibleMoves(b)| ==> GetPossibleMoves(b)[j] != GetPossibleMoves(b)[k]
  {
    if GetWinner(b).None? && b.phase == Moving {
      SlidesDistinct(b, 0);
    }
  }

  lemma {:induction false} StepDistinct(b: Board, from: Field, ns: seq<Field>)
    requires Distinct(ns)
    ensures Distinct(StepFrom(b, from, ns))
  {
    if |ns| > 0 {
      var rest := ns[1..];
      assert forall i :: 0 <= i < |rest| ==> rest[i] == ns[i + 1];
      StepDistinct(b, from, rest);
      var head := if Occupied(b, ns[0]) then [] else [Move(b.phase, Some(from), Some(ns[0]))];
      assert ns[0] !in rest;
      DistinctConcat(head, StepFrom(b, from, rest));
    }
  }

  lemma MovesOfDistinct(b: Board, f: Field)
    ensures Distinct(MovesOf(b, f))
  {
    if Stones(b, b.player)[f] && StoneCount(b, b.player) > 3 {
      NeighborsDistinct(f);
      StepDistinct(b, f, Neighbors(f));
    }
  }

  lemma {:induction false} SlidesDistinct(b: Board, i: nat)
    requires i <= 24
    ensures Distinct(SlideMoves(b, i))
    decreases 24 - i
  {
    if i < 24 {
      SlidesDistinct(b, i + 1);
      MovesOfDistinct(b, i);
      DistinctConcat(MovesOf(b, i), SlideMoves(b, i + 1));
    }
  }

  /** While moving with more than three stones, a player has lost exactly
      when the list of slides is empty. */
  lemma NoSlidesMeansLoss(b: Board)
    requires b.phase == Moving && StoneCount(b, b.player) > 3
    ensures GetWinner(b) == Some(Opp(b.player)) <==> SlideMoves(b, 0) == []
  {
    GetWinnerMeaning(b);
    StuckIffNoSlides(b);
  }

  lemma StuckIffNoSlides(b: Board)
    requires StoneCount(b, b.player) > 3
    ensures Stuck(b) <==> SlideMoves(b, 0) == []
  {
    if SlideMoves(b, 0) != [] {
      var m := SlideMoves(b, 0)[0];
      SlideMember(b, 0, m.from.value, m.to.value);
      assert m == Move(b.phase, Some(m.from.value), Some(m.to.value));
      assert m in SlideMoves(b, 0);
    }
    if !Stuck(b) {
      var f: Field, n :| Stones(b, b.player)[f] && n in Neighbors(f) && !Occupied(b, n);
      SlideMember(b, 0, f, n);
    }
  }

  // ---------------------------------------------------------------------
  // Position hash

  /** `stones[c].map((b, f) => Math.pow(3, f) * (b ? w : 0)).reduce(+)`
      over the fields `0..n-1`. */
  function RowValue(s: Row, w: nat, n: nat): nat
    requires n <= 24
  {
    if n == 0 then 0 else RowValue(s, w, n - 1) + Pow3(n - 1) * (if s[n - 1] then w else 0)
  }

  /** The hash over the fields `0..n-1`: black counts 1, white 2. */
  function PartialHash(b: Board, n: nat): nat
    requires n <= 24
  {
    RowValue(b.black, 1, n) + RowValue(b.white, 2, n)
  }

  /** `CurrentStateToNumber`: the position read as a 24-digit base-3 number. */
  function NodeHash(b: Board): nat {
    PartialHash(b, 24)
  }

  /** The base-3 digit of a field: 0 empty, 1 black, 2 white. */
  function Digit(b: Board, f: Field): nat {
    (if b.black[f] then 1 else 0) + (if b.white[f] then 2 else 0)
  }

  /** Each field adds its digit at its own place. */
  lemma PartialHashStep(b: Board, n: nat)
    requires n < 24
    ensures PartialHash(b, n + 1) == PartialHash(b, n) + Pow3(n) * Digit(b, n)
  {
    assert Pow3(n) * Digit(b, n)
           == Pow3(n) * (if b.black[n] then 1 else 0) + Pow3(n) * (if b.white[n] then 2 else 0);
  }

  /** On a disjoint board the digits stay below 3, so the hash of the first
      `n` fields stays below `3^n`. */
  lemma {:induction false} PartialHashBound(b: Board, n: nat)
    requires Disjoint(b) && n <= 24
    ensures PartialHash(b, n) < Pow3(n)
  {
    if n > 0 {
      PartialHashBound(b, n - 1);
      PartialHashStep(b, n - 1);
      assert Digit(b, n - 1) <= 2;
      assert Pow3(n - 1) * Digit(b, n - 1) <= Pow3(n - 1) * 2;
    }
  }

  /** The hash of a disjoint board is below `3^24`. */
  lemma HashBound(b: Board)
    requires Disjoint(b)
    ensures NodeHash(b) < Pow3(24)
  {
    PartialHashBound(b, 24);
  }

  /** Two disjoint boards with the same hash over the first `n` fields have
      the same stones there. */
  lemma {:induction false} PartialHashInjective(a: Board, b: Board, n: nat)
    requires Disjoint(a) && Disjoint(b) && n <= 24
    requires PartialHash(a, n) == PartialHash(b, n)
    ensures forall f: Field :: f < n ==> a.black[f] == b.black[f] && a.white[f] == b.white[f]
  {
    if n > 0 {
      var k := n - 1;
      PartialHashStep(a, k);
      PartialHashStep(b, k);
      PartialHashBound(a, k);
      PartialHashBound(b, k);
      TopDigit(Pow3(k), PartialHash(a, k), Digit(a, k), PartialHash(b, k), Digit(b, k));
      PartialHashInjective(a, b, k);
      assert a.black[k] == b.black[k] && a.white[k] == b.white[k];
    }
  }

  /** `CurrentStateToNumber` is a unique number for the stones: disjoint
      boards with equal hashes carry the same stones. */
  lemma HashInjective(a: Board, b: Board)
    requires Disjoint(a) && Disjoint(b)
    requires NodeHash(a) == NodeHash(b)
    ensures a.black == b.black && a.white == b.white
  {
    PartialHashInjective(a, b, 24);
  }
}
