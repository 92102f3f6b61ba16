/** The live game of typescript/GameBoard.ts: the owners of the fields, the
    stone lists `GameBoard.stones`, the game's phase, turn and player, and the
    bookkeeping of the draw rule. The operations are the state transitions
    after a stone is placed, moved or removed; rendering, the winner and draw
    screens' text and the callbacks into the AI are left out, so a screen is
    just the phase it sets. */
module Live {
  import opened Base
  import opened Topology
  import opened Node
  import opened GameField

  /** `GameBoard`'s static state together with `Game.phase`, `Game.turn` and
      `Game.currentPlayer`; `black` and `white` are `GameBoard.stones[0]` and
      `GameBoard.stones[1]`, `draw` is `hashForDraw`, `active` the active
      stone. */
  datatype Game = Game(
    owners: Owners,
    black: seq<Stone>,
    white: seq<Stone>,
    player: Color,
    turn: int,
    phase: Phase,
    lastPhase: Phase,
    lastTurnMill: int,
    draw: map<nat, nat>,
    active: Option<Stone>)

  /** `GameBoard.stones[c]`. */
  function Pile(g: Game, c: Color): seq<Stone> {
    if c == Black then g.black else g.white
  }

  /** The bookkeeping of the stones is consistent: each list holds distinct
      stones of its colour, every stone on a field is in its colour's list,
      and a stone owns at most one field. */
  ghost predicate WellFormed(g: Game) {
    && (forall c :: Distinct(Pile(g, c)) && forall t :: t in Pile(g, c) ==> t.color == c)
    && (forall f: Field :: g.owners[f].Some? ==> g.owners[f].value in Pile(g, g.owners[f].value.color))
    && (forall f: Field, h: Field :: g.owners[f].Some? && g.owners[h] == g.owners[f] ==> h == f)
  }

  /** In a well-formed game, `GetStonesOnField(c).length` is the number of
      fields of colour `c` on the node built from the board. */
  lemma PlacedCount(g: Game, c: Color, player: Color, turn: int, phase: Phase)
    requires WellFormed(g)
    ensures |OnField(g.owners, Pile(g, c))| == StoneCount(BoardOf(g.owners, player, turn, phase), c)
  {
    OnFieldCount(g.owners, Pile(g, c));
    BoardOfColors(g.owners, player, turn, phase);
    assert HeldBy(g.owners, Pile(g, c)) == Stones(BoardOf(g.owners, player, turn, phase), c);
  }

  /** In a well-formed game in the moving phase, the live board lets the
      stone on `f` go to `t` exactly when `GameNode` accepts the slide and,
      unless its player flies, lists it among the possible moves. */
  lemma CanMoveAgrees(g: Game, s: Stone, f: Field, t: Field)
    requires WellFormed(g)
    requires g.owners[f] == Some(s)
    ensures var b := BoardOf(g.owners, s.color, g.turn, Moving);
      var m := Move(Moving, Some(f), Some(t));
      CanStoneMoveTo(g.owners, Pile(g, s.color), s, t) <==>
        MoveStone(b, m).Some? && (StoneCount(b, s.color) > 3 ==> Adjacent(m))
  {
    PlacedCount(g, s.color, s.color, g.turn, Moving);
    CanStoneMoveToAgrees(g.owners, Pile(g, s.color), s, f, t, g.turn);
  }

  /** Well-formedness only looks at the owners and the stone lists. */
  lemma WellFormedStones(g: Game, r: Game)
    requires WellFormed(g)
    requires r.owners == g.owners && r.black == g.black && r.white == g.white
    ensures WellFormed(r)
  {
    assert forall c :: Pile(r, c) == Pile(g, c);
  }

  // ---------------------------------------------------------------------
  // A new game

  /** Nine new stones of colour `c`, numbered in creation order. */
  function NewStones(c: Color): seq<Stone> {
    seq(9, (i: int) requires 0 <= i < 9 => Stone(c, i))
  }

  /** `Initialize`: the fields lose their owners, the draw bookkeeping starts
      afresh, each colour gets nine new stones next to the board, and the last
      one of the player to move becomes the active stone. The phase, turn and
      player are set by the caller, `Game.Reset`, and are kept. The program
      clears only the fields of the stones still in its lists; in a
      well-formed game those are all the owned fields, so clearing every
      field is the same. */
  function Initialize(g: Game): (r: Game)
    ensures r.lastTurnMill == -1 && r.draw == map[]
    ensures forall f: Field :: r.owners[f] == None
    ensures forall c :: |Pile(r, c)| == 9
    ensures forall c, i :: 0 <= i < 9 ==> Pile(r, c)[i] == Stone(c, i)
    ensures r.active == Some(Stone(g.player, 8))
    ensures r.player == g.player && r.turn == g.turn && r.phase == g.phase && r.lastPhase == g.lastPhase
  {
    g.(owners := seq(24, _ => None), black := NewStones(Black), white := NewStones(White),
       lastTurnMill := -1, draw := map[], active := Some(NewStones(g.player)[8]))
  }

  /** A new game is well formed and its active stone is an unplaced stone
      of the player to move. */
  lemma InitializeWellFormed(g: Game)
    ensures var r := Initialize(g);
      WellFormed(r) && r.active.value in Pile(r, r.player) && !Placed(r.owners, r.active.value)
  {
    var r := Initialize(g);
    assert Pile(r, r.player)[8] == r.active.value;
  }

  // ---------------------------------------------------------------------
  // Position hash

  /** The base-3 digit of a field: 0 without an owner, 1 for a black and 2
      for a white owner. */
  function OwnerDigit(o: Owners, f: Field): nat {
    if o[f].None? then 0 else if o[f].value.color == White then 2 else 1
  }

  /** `3^i * digit(i)` summed over the fields `0..n-1`. */
  function StateToNumber(o: Owners, n: nat): nat
    requires n <= 24
  {
    if n == 0 then 0 else StateToNumber(o, n - 1) + Pow3(n - 1) * OwnerDigit(o, n - 1)
  }

  /** `CurrentStateToNumber`. */
  function CurrentStateToNumber(o: Owners): nat {
    StateToNumber(o, 24)
  }

  lemma {:induction false} StateToNumberAgrees(o: Owners, n: nat, player: Color, turn: int, phase: Phase)
    requires n <= 24
    ensures StateToNumber(o, n) == PartialHash(BoardOf(o, player, turn, phase), n)
  {
    if n > 0 {
      var b := BoardOf(o, player, turn, phase);
      StateToNumberAgrees(o, n - 1, player, turn, phase);
      PartialHashStep(b, n - 1);
      BoardOfColors(o, player, turn, phase);
      assert Digit(b, n - 1) == OwnerDigit(o, n - 1);
    }
  }

  /** The live board's hash is `GameNode.CurrentStateToNumber` of the node
      built from it, so the search can look its positions up in the live
      game's `hashForDraw`. */
  lemma HashAgrees(o: Owners, player: Color, turn: int, phase: Phase)
    ensures CurrentStateToNumber(o) == NodeHash(BoardOf(o, player, turn, phase))
  {
    StateToNumberAgrees(o, 24, player, turn, phase);
  }

  /** Two owner tables show the same colours on every field. */
  predicate SameColors(o: Owners, p: Owners) {
    forall f: Field :: OwnerDigit(o, f) == OwnerDigit(p, f)
  }

  /** The hash is below `3^24`, and two owner tables have the same hash
      exactly when they show the same colours on every field. */
  lemma HashUnique(o: Owners, p: Owners)
    ensures CurrentStateToNumber(o) < Pow3(24)
    ensures CurrentStateToNumber(o) == CurrentStateToNumber(p) <==> SameColors(o, p)
  {
    var a := BoardOf(o, Black, 0, Menu);
    var b := BoardOf(p, Black, 0, Menu);
    HashAgrees(o, Black, 0, Menu);
    HashAgrees(p, Black, 0, Menu);
    BoardOfColors(o, Black, 0, Menu);
    BoardOfColors(p, Black, 0, Menu);
    HashBound(a);
    if CurrentStateToNumber(o) == CurrentStateToNumber(p) {
      HashInjective(a, b);
      forall f: Field ensures OwnerDigit(o, f) == OwnerDigit(p, f) {
        assert a.black[f] == b.black[f] && a.white[f] == b.white[f];
      }
    }
    if SameColors(o, p) {
      assert forall f: Field :: OwnedBy(o, f, Black) == OwnedBy(p, f, Black) by {
        forall f: Field ensures OwnedBy(o, f, Black) == OwnedBy(p, f, Black) {
          assert OwnerDigit(o, f) == OwnerDigit(p, f);
        }
      }
      assert forall f: Field :: OwnedBy(o, f, White) == OwnedBy(p, f, White) by {
        forall f: Field ensures OwnedBy(o, f, White) == OwnedBy(p, f, White) {
          assert OwnerDigit(o, f) == OwnerDigit(p, f);
        }
      }
      assert a.black == b.black;
      assert a.white == b.white;
    }
  }

  // ---------------------------------------------------------------------
  // Draw rule

  /** `hashForDraw[h]` as a number, a missing entry counting 0. */
  function Sightings(draw: map<nat, nat>, h: nat): nat {
    if h in draw then draw[h] else 0
  }

  /** A boolean answer of a `GameBoard` method with the state after it. */
  datatype Answer = Answer(result: bool, game: Game)

  /** `CheckAndUpdateDraw`: fifty turns without a mill are a draw and leave
      the table alone; otherwise the current position is counted once more,
      and the game is drawn when that makes three sightings. */
  function CheckAndUpdateDraw(g: Game): (r: Answer)
    ensures g.turn - g.lastTurnMill >= 50 ==> r == Answer(true, g)
    ensures g.turn - g.lastTurnMill < 50 ==>
      var h := CurrentStateToNumber(g.owners);
      && r.game == g.(draw := r.game.draw)
      && Sightings(r.game.draw, h) == Sightings(g.draw, h) + 1
      && (forall k :: k != h ==> Sightings(r.game.draw, k) == Sightings(g.draw, k))
      && (r.result <==> Sightings(r.game.draw, h) >= 3)
  {
    if g.turn - g.lastTurnMill >= 50 then Answer(true, g)
    else
      var h := CurrentStateToNumber(g.owners);
      if !DrawSeen(g.draw, h) then Answer(false, g.(draw := g.draw[h := 1]))
      else
        var count := g.draw[h] + 1;
        Answer(count >= 3, g.(draw := g.draw[h := count]))
  }

  /** A position never seen before is a draw on its third sighting, not
      before, whatever the turns in between, as long as no fifty turns
      pass without a mill. */
  lemma ThirdRepetition(g: Game, t1: int, t2: int)
    requires Sightings(g.draw, CurrentStateToNumber(g.owners)) == 0
    requires g.turn - g.lastTurnMill < 50 && t1 - g.lastTurnMill < 50 && t2 - g.lastTurnMill < 50
    ensures var a := CheckAndUpdateDraw(g);
      var b := CheckAndUpdateDraw(a.game.(turn := t1));
      var c := CheckAndUpdateDraw(b.game.(turn := t2));
      !a.result && !b.result && c.result
  {
  }

  // ---------------------------------------------------------------------
  // Stones

  /** The first field from `n` on that the stone owns. */
  function FieldFrom(o: Owners, s: Stone, n: nat): (r: Option<Field>)
    requires n <= 24
    decreases 24 - n
    ensures r.Some? ==> n <= r.value && o[r.value] == Some(s)
    ensures r.None? ==> forall f: Field :: n <= f ==> o[f] != Some(s)
  {
    if n == 24 then None else if o[n] == Some(s) then Some(n) else FieldFrom(o, s, n + 1)
  }

  /** `stone.field`: the field the stone owns, if any. */
  function FieldOf(o: Owners, s: Stone): (r: Option<Field>)
    ensures r.Some? ==> o[r.value] == Some(s)
    ensures r.None? <==> !Placed(o, s)
  {
    FieldFrom(o, s, 0)
  }

  /** `stone.isInClosedMill`. */
  predicate StoneInMill(o: Owners, s: Stone) {
    FieldOf(o, s).Some? && InClosedMill(o, FieldOf(o, s).value)
  }

  /** For a placed stone, `isInClosedMill` is `GameNode.CheckMill` on the
      node built from the live board. */
  lemma StoneInMillAgrees(o: Owners, s: Stone, player: Color, turn: int, phase: Phase)
    requires Placed(o, s)
    ensures StoneInMill(o, s) == CheckMill(BoardOf(o, player, turn, phase), FieldOf(o, s).value)
  {
    var f := FieldOf(o, s).value;
    ClosedMillAgrees(o, player, turn, phase, Horizontal, f);
    ClosedMillAgrees(o, player, turn, phase, Vertical, f);
    CheckMillLines(BoardOf(o, player, turn, phase), f);
  }

  /** There is a field `n` and it has no owner. */
  predicate Free(o: Owners, n: Option<Field>) {
    n.Some? && o[n.value].None?
  }

  /** `stone.isMoveable`: its colour has three stones or fewer left, or it
      stands on a field with a free neighbour. */
  predicate Movable(g: Game, s: Stone) {
    |Pile(g, s.color)| <= 3 || (FieldOf(g.owners, s).Some? && FreeAround(g.owners, FieldOf(g.owners, s).value))
  }

  /** The neighbour below, left, right or above the field is free. */
  predicate FreeAround(o: Owners, f: Field) {
    Free(o, BottomOf(f)) || Free(o, LeftOf(f)) || Free(o, RightOf(f)) || Free(o, TopOf(f))
  }

  /** The four directions are the field's neighbours. */
  lemma FreeAroundMeaning(o: Owners, f: Field)
    ensures FreeAround(o, f) <==> exists n :: n in Neighbors(f) && o[n].None?
  {
    DirectionsAreNeighbors(f);
    if FreeAround(o, f) {
      var n := if Free(o, BottomOf(f)) then BottomOf(f).value
               else if Free(o, LeftOf(f)) then LeftOf(f).value
               else if Free(o, RightOf(f)) then RightOf(f).value
               else TopOf(f).value;
      assert n in Neighbors(f) && o[n].None?;
    }
  }

  /** `GetStonesOnField(c).some(s => s.isMoveable)`. */
  predicate AnyMovable(g: Game, c: Color) {
    exists s :: s in OnField(g.owners, Pile(g, c)) && Movable(g, s)
  }

  /** `GetStonesOnField(c).some(s => !s.isInClosedMill)`. */
  predicate AnyRemovable(g: Game, c: Color) {
    exists s :: s in OnField(g.owners, Pile(g, c)) && !StoneInMill(g.owners, s)
  }

  /** The neighbour in each direction is among `Neighbors`. */
  lemma DirectionsAreNeighbors(f: Field)
    ensures BottomOf(f).Some? ==> BottomOf(f).value in Neighbors(f)
    ensures LeftOf(f).Some? ==> LeftOf(f).value in Neighbors(f)
    ensures RightOf(f).Some? ==> RightOf(f).value in Neighbors(f)
    ensures TopOf(f).Some? ==> TopOf(f).value in Neighbors(f)
    ensures forall n :: n in Neighbors(f) ==>
              BottomOf(f) == Some(n) || LeftOf(f) == Some(n) || RightOf(f) == Some(n) || TopOf(f) == Some(n)
  {
  }

  /** With more than three stones left, a colour can move in the live game
      exactly when `GameNode`, on the node built from the live board with
      that colour to move, does not find it stuck. */
  lemma MovableIffNotStuck(g: Game, c: Color)
    requires WellFormed(g)
    requires |Pile(g, c)| > 3
    ensures AnyMovable(g, c) <==> !Stuck(BoardOf(g.owners, c, g.turn, Moving))
  {
    if AnyMovable(g, c) {
      MovableNotStuck(g, c);
    }
    if !Stuck(BoardOf(g.owners, c, g.turn, Moving)) {
      NotStuckMovable(g, c);
    }
  }

  lemma MovableNotStuck(g: Game, c: Color)
    requires WellFormed(g) && |Pile(g, c)| > 3 && AnyMovable(g, c)
    ensures !Stuck(BoardOf(g.owners, c, g.turn, Moving))
  {
    var o := g.owners;
    var b := BoardOf(o, c, g.turn, Moving);
    var s :| s in OnField(o, Pile(g, c)) && Movable(g, s);
    assert s in Pile(g, c) && Placed(o, s);
    assert s.color == c;
    var f := FieldOf(o, s).value;
    var n := FreeNeighbor(o, f);
    assert Stones(b, c)[f] && !Occupied(b, n);
  }

  /** A free field next to `f`, when `FreeAround` holds. */
  lemma FreeNeighbor(o: Owners, f: Field) returns (n: Field)
    requires FreeAround(o, f)
    ensures n in Neighbors(f) && o[n].None?
  {
    FreeAroundMeaning(o, f);
    n :| n in Neighbors(f) && o[n].None?;
  }

  lemma NotStuckMovable(g: Game, c: Color)
    requires WellFormed(g) && !Stuck(BoardOf(g.owners, c, g.turn, Moving))
    ensures AnyMovable(g, c)
  {
    var o := g.owners;
    var b := BoardOf(o, c, g.turn, Moving);
    var f: Field, n :| Stones(b, c)[f] && n in Neighbors(f) && !Occupied(b, n);
    assert OwnedBy(o, f, c) && o[n].None?;
    var s := o[f].value;
    assert s in Pile(g, c);
    assert FieldOf(o, s) == Some(f);
    FreeAroundMeaning(o, f);
    assert Movable(g, s);
    assert s in OnField(o, Pile(g, c));
  }

  /** `GetUnsettledStone`: the last stone of the list that is not on the
      board, if there is one. */
  function Unsettled(o: Owners, stones: seq<Stone>): (r: Option<Stone>)
    ensures r.None? <==> forall i :: 0 <= i < |stones| ==> Placed(o, stones[i])
    ensures r.Some? ==>
      exists i :: 0 <= i < |stones| && stones[i] == r.value && !Placed(o, stones[i])
                  && forall j :: i < j < |stones| ==> Placed(o, stones[j])
  {
    if |stones| == 0 then None
    else if !Placed(o, stones[|stones| - 1]) then Some(stones[|stones| - 1])
    else Unsettled(o, stones[..|stones| - 1])
  }

  // ---------------------------------------------------------------------
  // Turns

  /** `SwitchCurrentPlayer`: from turn 17 on, a next player without a
      movable stone loses and nothing else happens; otherwise the placing
      phase turns into the moving phase from turn 17 on, the player flips,
      the next player's last unplaced stone becomes active and the turn
      advances by one. The stones and the draw bookkeeping stay as they are. */
  function SwitchCurrentPlayer(g: Game): (r: Game)
    ensures r.owners == g.owners && r.black == g.black && r.white == g.white
    ensures r.draw == g.draw && r.lastTurnMill == g.lastTurnMill && r.lastPhase == g.lastPhase
    ensures g.turn >= 17 && !AnyMovable(g, Opp(g.player)) ==> r == g.(phase := WinnerScreen)
    ensures !(g.turn >= 17 && !AnyMovable(g, Opp(g.player))) ==>
      && r.player == Opp(g.player) && r.turn == g.turn + 1
      && r.phase == (if g.phase == Placing && g.turn >= 17 then Moving else g.phase)
      && r.active == Unsettled(g.owners, Pile(g, r.player))
    ensures r.phase == Removing ==> g.phase == Removing
  {
    var next := Opp(g.player);
    if g.turn >= 17 && !AnyMovable(g, next) then g.(phase := WinnerScreen)
    else
      var g1 := if g.phase == Placing && g.turn >= 17 then g.(phase := Moving, active := None) else g;
      g1.(player := next, active := Unsettled(g1.owners, Pile(g1, next)), turn := g1.turn + 1)
  }

  /** The active stone stands in a closed mill. */
  predicate MillClosed(g: Game) {
    g.active.Some? && StoneInMill(g.owners, g.active.value)
  }

  /** The end of `CheckMuehleSwitchPlayer` when no mill is to be resolved:
      a draw ends the game with the same player, otherwise the next
      player's turn begins. */
  function DrawOrSwitch(g: Game): (r: Game)
    ensures CheckAndUpdateDraw(g).result ==> r == CheckAndUpdateDraw(g).game.(phase := DrawScreen)
    ensures !CheckAndUpdateDraw(g).result ==> r == SwitchCurrentPlayer(CheckAndUpdateDraw(g).game)
    ensures r.owners == g.owners && r.black == g.black && r.white == g.white
    ensures r.lastTurnMill == g.lastTurnMill
  {
    var d := CheckAndUpdateDraw(g);
    if d.result then d.game.(phase := DrawScreen) else SwitchCurrentPlayer(d.game)
  }

  /** `CheckMuehleSwitchPlayer`: when the active stone closes a mill, the
      turn is recorded; in the moving phase an opponent with three stones or
      fewer loses, and otherwise, if the opponent has a stone outside a
      mill, the game enters the removing phase with the same player and
      turn. The answer says whether one of these happened; in every other
      case the draw rule and the next turn follow. The stones never change. */
  function CheckMuehleSwitchPlayer(g: Game): (r: Answer)
    ensures r.game.owners == g.owners && r.game.black == g.black && r.game.white == g.white
    ensures r.game.lastTurnMill == (if MillClosed(g) then g.turn else g.lastTurnMill)
    ensures r.result <==>
      MillClosed(g) && ((g.phase == Moving && |Pile(g, Opp(g.player))| <= 3) || AnyRemovable(g, Opp(g.player)))
    ensures MillClosed(g) && g.phase == Moving && |Pile(g, Opp(g.player))| <= 3 ==>
      r.game == g.(lastTurnMill := g.turn, phase := WinnerScreen)
    ensures MillClosed(g) && !(g.phase == Moving && |Pile(g, Opp(g.player))| <= 3) && AnyRemovable(g, Opp(g.player)) ==>
      r.game == g.(lastTurnMill := g.turn, lastPhase := g.phase, phase := Removing, active := None)
    ensures !r.result ==> r.game == DrawOrSwitch(if MillClosed(g) then g.(lastTurnMill := g.turn) else g)
  {
    if MillClosed(g) then
      var g1 := g.(lastTurnMill := g.turn);
      if g.phase == Moving && |Pile(g, Opp(g.player))| <= 3 then Answer(true, g1.(phase := WinnerScreen))
      else if AnyRemovable(g, Opp(g.player)) then
        Answer(true, g1.(lastPhase := g.phase, phase := Removing, active := None))
      else Answer(false, DrawOrSwitch(g1))
    else Answer(false, DrawOrSwitch(g))
  }

  /** `MoveStoneToField` (with `PlaceStoneAtField`): a move the field refuses
      changes nothing; otherwise the stone leaves its field, owns the new
      one and becomes active, and the mill, draw and turn rules follow. */
  function MoveStoneToField(g: Game, s: Stone, f: Field): (r: Option<Game>)
    ensures r.None? <==> !CanStoneMoveTo(g.owners, Pile(g, s.color), s, f)
    ensures r.Some? ==> r.value.owners == MoveTo(g.owners, s, f)
    ensures r.Some? ==> r.value.black == g.black && r.value.white == g.white
    ensures r.Some? ==>
              r.value.lastTurnMill == if StoneInMill(MoveTo(g.owners, s, f), s) then g.turn else g.lastTurnMill
  {
    if !CanStoneMoveTo(g.owners, Pile(g, s.color), s, f) then None
    else Some(CheckMuehleSwitchPlayer(g.(owners := MoveTo(g.owners, s, f), active := Some(s))).game)
  }

  /** Moving a stone of the game keeps the game well formed, and the stone
      then stands on the target field and nowhere else. */
  lemma MoveKeepsWellFormed(g: Game, s: Stone, f: Field)
    requires WellFormed(g) && s in Pile(g, s.color)
    requires MoveStoneToField(g, s, f).Some?
    ensures var r := MoveStoneToField(g, s, f).value;
      WellFormed(r) && FieldOf(r.owners, s) == Some(f)
  {
    var r := MoveStoneToField(g, s, f).value;
    var o := MoveTo(g.owners, s, f);
    MovedWellFormed(g, s, f);
    WellFormedStones(g.(owners := o), r);
    assert FieldFrom(o, s, f + 1) == None;
    FieldFromSkips(o, s, 0, f);
  }

  lemma MovedWellFormed(g: Game, s: Stone, f: Field)
    requires WellFormed(g) && s in Pile(g, s.color)
    ensures WellFormed(g.(owners := MoveTo(g.owners, s, f)))
  {
    var g2 := g.(owners := MoveTo(g.owners, s, f));
    assert forall c :: Pile(g2, c) == Pile(g, c);
    assert forall h: Field :: h != f ==> g2.owners[h] != Some(s);
  }

  /** The search for a stone's field passes over the fields it does not own. */
  lemma {:induction false} FieldFromSkips(o: Owners, s: Stone, n: nat, f: Field)
    requires n <= f && o[f] == Some(s)
    requires forall h: Field :: n <= h < f ==> o[h] != Some(s)
    ensures FieldFrom(o, s, n) == Some(f)
    decreases f - n
  {
    if n < f {
      FieldFromSkips(o, s, n + 1, f);
    }
  }

  // ---------------------------------------------------------------------
  // Removing a stone

  /** `indexOf`: the first position of the stone, or -1. */
  function IndexOf(p: seq<Stone>, s: Stone): (i: int)
    ensures -1 <= i < |p|
    ensures i == -1 <==> s !in p
    ensures i >= 0 ==> p[i] == s && s !in p[..i]
  {
    if |p| == 0 then -1
    else if p[0] == s then 0
    else
      var k := IndexOf(p[1..], s);
      assert p[1..][..k + 1] == p[1..k + 2] by {}
      if k == -1 then -1 else k + 1
  }

  /** `splice(i, 1)`: a start of -1 counts from the end of the list. */
  function SpliceOne(p: seq<Stone>, i: int): seq<Stone>
    requires -1 <= i < |p|
  {
    if i == -1 then (if |p| == 0 then p else p[..|p| - 1]) else p[..i] + p[i + 1..]
  }

  /** `RemoveStoneFromField`: a stone that is not on the board or stands in
      a closed mill is refused, and so is any stone outside the removing
      phase; otherwise the stone leaves its list and its field, the phase
      before the removal comes back and the turn passes on. */
  function RemoveStoneFromField(g: Game, s: Stone): (r: Option<Game>)
    ensures r.None? <==> !Placed(g.owners, s) || StoneInMill(g.owners, s) || g.phase != Removing
  {
    if !Placed(g.owners, s) || StoneInMill(g.owners, s) || g.phase != Removing then None
    else
      var f := FieldOf(g.owners, s).value;
      var p := Pile(g, s.color);
      var rest := SpliceOne(p, IndexOf(p, s));
      var g1 := if s.color == Black then g.(black := rest) else g.(white := rest);
      Some(SwitchCurrentPlayer(g1.(owners := g.owners[f := None], phase := g.lastPhase)))
  }

  /** Removing a stone from a well-formed game takes exactly that stone off
      its field and out of its list, keeps everything else on the board,
      keeps the game well formed, and does not re-enter the removing phase
      unless that was the phase saved before the mill. Then the turn passes
      to the opponent with the saved phase (the moving phase once the
      placing turns are over), unless the opponent cannot move, which ends
      the game with the same player and turn. */
  lemma RemoveEffects(g: Game, s: Stone)
    requires WellFormed(g)
    requires RemoveStoneFromField(g, s).Some?
    ensures var r := RemoveStoneFromField(g, s).value;
      var f := FieldOf(g.owners, s).value;
      && WellFormed(r)
      && r.owners == g.owners[f := None]
      && !Placed(r.owners, s)
      && multiset(Pile(r, s.color)) == multiset(Pile(g, s.color)) - multiset{s}
      && s !in Pile(r, s.color)
      && Pile(r, Opp(s.color)) == Pile(g, Opp(s.color))
      && r.draw == g.draw && r.lastTurnMill == g.lastTurnMill
      && (g.lastPhase != Removing ==> r.phase != Removing)
      && (r.player == g.player ==> r.phase == WinnerScreen && r.turn == g.turn && g.turn >= 17)
      && (r.player != g.player ==>
            r.turn == g.turn + 1 && r.phase == (if g.lastPhase == Placing && g.turn >= 17 then Moving else g.lastPhase))
  {
    var r := RemoveStoneFromField(g, s).value;
    var o := g.owners;
    var f := FieldOf(o, s).value;
    var p := Pile(g, s.color);
    assert s in p;
    var rest := SpliceOne(p, IndexOf(p, s));
    SpliceRemoves(p, s);
    var g1 := if s.color == Black then g.(black := rest) else g.(white := rest);
    var g2 := g1.(owners := o[f := None], phase := g.lastPhase);
    assert Pile(g2, s.color) == rest && Pile(g2, Opp(s.color)) == Pile(g, Opp(s.color));
    RemovedWellFormed(g, s, g2);
    WellFormedStones(g2, r);
  }

  /** Splicing out the first occurrence of a stone of a list without
      duplicates leaves every other stone, and no duplicates. */
  lemma SpliceRemoves(p: seq<Stone>, s: Stone)
    requires Distinct(p) && s in p
    ensures var rest := SpliceOne(p, IndexOf(p, s));
      && multiset(rest) == multiset(p) - multiset{s}
      && s !in rest && Distinct(rest)
      && forall t :: t in rest <==> t in p && t != s
  {
    var i := IndexOf(p, s);
    assert SpliceOne(p, i) == p[..i] + p[i + 1..];
    SpliceIndices(p, i);
    DropCounts(p, i);
    DropMembers(p, i);
  }

  /** Cutting out position `i` takes one copy of `p[i]` out of the multiset. */
  lemma DropCounts(p: seq<Stone>, i: int)
    requires 0 <= i < |p|
    ensures multiset(p[..i] + p[i + 1..]) == multiset(p) - multiset{p[i]}
  {
    assert p == p[..i] + [p[i]] + p[i + 1..];
  }

  /** Cutting out position `i` of a list without duplicates keeps exactly
      the other stones. */
  lemma DropMembers(p: seq<Stone>, i: int)
    requires Distinct(p) && 0 <= i < |p|
    ensures forall t :: t in p[..i] + p[i + 1..] <==> t in p && t != p[i]
  {
    var rest := p[..i] + p[i + 1..];
    SpliceIndices(p, i);
    forall j | 0 <= j < |rest| ensures rest[j] != p[i] {
      var k := if j < i then j else j + 1;
      assert rest[j] == p[k] && k != i;
    }
    forall t | t in p && t != p[i] ensures t in rest {
      var k :| 0 <= k < |p| && p[k] == t;
      assert k != i;
      assert rest[if k < i then k else k - 1] == t;
    }
  }

  lemma SpliceIndices(p: seq<Stone>, i: int)
    requires Distinct(p) && 0 <= i < |p|
    ensures var rest := p[..i] + p[i + 1..];
      && |rest| == |p| - 1
      && (forall j :: 0 <= j < |rest| ==> rest[j] == p[if j < i then j else j + 1])
      && Distinct(rest)
  {
    var rest := p[..i] + p[i + 1..];
    forall j | 0 <= j < |rest| ensures rest[j] == p[if j < i then j else j + 1] {
      if j < i {
        assert rest[j] == p[..i][j];
      } else {
        assert rest[j] == p[i + 1..][j - i];
      }
    }
  }

  /** The state just before the turn passes on is well formed. */
  lemma RemovedWellFormed(g: Game, s: Stone, g2: Game)
    requires WellFormed(g) && Placed(g.owners, s)
    requires g2.owners == g.owners[FieldOf(g.owners, s).value := None]
    requires Pile(g2, Opp(s.color)) == Pile(g, Opp(s.color))
    requires Distinct(Pile(g2, s.color))
    requires forall t :: t in Pile(g2, s.color) <==> t in Pile(g, s.color) && t != s
    ensures WellFormed(g2)
  {
    var o := g.owners;
    var f := FieldOf(o, s).value;
    forall c ensures Distinct(Pile(g2, c)) && forall t :: t in Pile(g2, c) ==> t.color == c {
      if c != s.color {
        assert c == Opp(s.color);
      }
    }
    forall h: Field | g2.owners[h].Some?
      ensures g2.owners[h].value in Pile(g2, g2.owners[h].value.color)
    {
      var t := g2.owners[h].value;
      assert h != f && o[h] == Some(t) && t != s;
      assert t in Pile(g, t.color);
    }
  }
}
