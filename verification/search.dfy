/** `EnemyAIMinimax.AlphaBeta` and `shuffleArray` of
    typescript/EnemyAIMinimax.ts: a depth-bounded alpha-beta search over
    `GameNode`. The mutable node, the stored move and the call counter are
    threaded through the recursion; the wall clock, `Math.random` and the
    `hashForRepeat` lookup are oracles, each read at a known point of the
    search. */
module Search {
  import opened Base
  import opened Node
  import Rating

  /** `startDepth`. */
  const StartDepth: int := 4

  /** A rating, or one of the infinities the search starts its window with. */
  datatype Ext = NegInf | Fin(v: real) | PosInf

  /** `a < b` on JavaScript numbers without NaN. */
  predicate Less(a: Ext, b: Ext) {
    match a
    case NegInf => !b.NegInf?
    case Fin(x) => b.PosInf? || (b.Fin? && x < b.v)
    case PosInf => false
  }

  /** A value of `Math.random()`. */
  type Unit = r: real | 0.0 <= r < 1.0 witness 0.0

  /** What the search reads from outside the board:
      - `timeUp(k)`: at the `k`-th call, the AI respects its time limit and
        `Date.now() - startTime > Game.aiDecisionTime`;
      - `random(k)`: the `k`-th value of `Math.random()` the shuffle draws;
      - `repeated(k, h)`: `hashForRepeat[h]` as the call numbered `k` reads it. */
  datatype Oracles = Oracles(timeUp: nat -> bool, random: nat -> Unit, repeated: (nat, nat) -> bool)

  /** The colour the AI plays for, `GameBoard.hashForDraw` (read only during
      the search), the oracles, and the heuristic `node.GetRating(color)`.
      The search's contracts hold for every heuristic; `ForColor` builds the
      context of the AI's own search. */
  datatype Ctx = Ctx(color: Color, draw: map<nat, nat>, oracles: Oracles, rate: Board -> real)

  /** The context `EnemyAIMinimax.MakeMoveIntern` searches in, rating every
      node with `GameNode.GetRating` for the AI's colour. */
  function ForColor(color: Color, draw: map<nat, nat>, oracles: Oracles): (ctx: Ctx)
    ensures ctx.color == color
    ensures forall b :: ctx.rate(b) == Rating.GetRating(b, color)
  {
    Ctx(color, draw, oracles, (b: Board) => Rating.GetRating(b, color))
  }

  /** In the AI's own search, a call that stops at once values the node
      with the AI's rating, lowered by 500000 exactly when the opponent has
      won two plies below the root, or three with the opponent to move; as
      the heuristic is zero-sum, that is the opponent's rating negated. */
  lemma ForColorLeaf(color: Color, draw: map<nat, nat>, oracles: Oracles, run: Run, depth: int, alpha: Ext, beta: Ext)
    requires depth <= StartDepth && !Inner(ForColor(color, draw, oracles), run, depth)
    ensures var r := AlphaBeta(ForColor(color, draw, oracles), run, depth, alpha, beta).value;
      var own := Rating.GetRating(run.node, color);
      && r.Fin? && (r.v == own || r.v == own - 500000.0)
      && own == -Rating.GetRating(run.node, Opp(color))
      && (r.v < own <==>
            GetWinner(run.node) == Some(Opp(color))
            && (depth == StartDepth - 2 || (depth == StartDepth - 3 && run.node.player != color)))
  {
    Rating.RatingZeroSum(run.node, color);
  }

  /** The mutable part of the search: the node moves are tried on,
      `storedMove`, and how many calls of `AlphaBeta` have begun. */
  datatype Run = Run(node: Board, stored: Option<Move>, tick: nat)

  datatype Outcome = Outcome(value: Ext, run: Run)

  /** `node.PerformMove(m)`: a refused move leaves the node as it is. */
  function Apply(b: Board, m: Move): Board {
    match PerformMove(b, m)
    case Some(c) => c
    case None => b
  }

  /** `node.UndoMove(m)`, likewise. */
  function Revert(b: Board, m: Move): Board {
    match UndoMove(b, m)
    case Some(c) => c
    case None => b
  }

  // ---------------------------------------------------------------------
  // Shuffling

  /** `Math.floor(Math.random() * (i + 1))`. */
  function Pick(u: Unit, i: nat): (j: nat)
    ensures j <= i
  {
    var x := u * (i + 1) as real;
    assert 0.0 <= x < (i + 1) as real;
    x.Floor
  }

  function Swap<T>(s: seq<T>, i: nat, j: nat): (r: seq<T>)
    requires i < |s| && j < |s|
    ensures multiset(r) == multiset(s)
  {
    s[i := s[j]][j := s[i]]
  }

  /** The loop of `shuffleArray` from `i` down to 1; `k` values of
      `Math.random()` have been drawn before. */
  function ShuffleDown<T>(s: seq<T>, i: nat, random: nat -> Unit, k: nat): (r: seq<T>)
    requires i < |s|
    ensures multiset(r) == multiset(s)
    decreases i
  {
    if i == 0 then s
    else ShuffleDown(Swap(s, i, Pick(random(k), i)), i - 1, random, k + 1)
  }

  /** `shuffleArray`: Durstenfeld's shuffle with the indices drawn from
      `random`; the result is a permutation of the input. */
  function Shuffle<T>(s: seq<T>, random: nat -> Unit): (r: seq<T>)
    ensures multiset(r) == multiset(s)
  {
    if |s| == 0 then s else ShuffleDown(s, |s| - 1, random, 0)
  }

  // ---------------------------------------------------------------------
  // The search

  /** The value of a leaf: the rating for the AI, lowered by 500000 when
      the opponent has won two plies below the root, or three plies below
      it with the opponent to move. */
  function LeafValue(ctx: Ctx, node: Board, depth: int): (r: Ext)
    ensures r.Fin? && (r.v == ctx.rate(node) || r.v == ctx.rate(node) - 500000.0)
    ensures r.v < ctx.rate(node) <==>
              GetWinner(node) == Some(Opp(ctx.color))
              && (depth == StartDepth - 2 || (depth == StartDepth - 3 && node.player != ctx.color))
  {
    var punished := GetWinner(node) == Some(Opp(ctx.color))
                    && (depth == StartDepth - 2 || (depth == StartDepth - 3 && node.player != ctx.color));
    Fin(ctx.rate(node) - if punished then 500000.0 else 0.0)
  }

  /** A call that neither stops at once nor is at the root: no winner yet,
      depth left and time left. */
  predicate Inner(ctx: Ctx, run: Run, depth: int) {
    GetWinner(run.node).None? && 0 < depth && !ctx.oracles.timeUp(run.tick)
  }

  datatype Probe = Won(move: Move, node: Board) | NoWin(node: Board)

  /** The shortcut loop at the root: the first move of the list that lets
      the AI win at once, with the node left after it; or the node after all
      moves have been tried and taken back. */
  function Shortcut(color: Color, node: Board, moves: seq<Move>, i: nat): (r: Probe)
    requires i <= |moves|
    ensures r.Won? ==> r.move in moves[i..] && GetWinner(r.node) == Some(color)
    decreases |moves| - i
  {
    if i == |moves| then NoWin(node)
    else
      var tried := Apply(node, moves[i]);
      if GetWinner(tried) == Some(color) then Won(moves[i], tried)
      else Shortcut(color, Revert(tried, moves[i]), moves, i + 1)
  }

  /** `AlphaBeta(node, depth, alpha, beta)`, called with at most
      `startDepth`. Below the root the stored move stays as it is; at the
      root it is only ever set to one of the node's possible moves. Below
      the root a maximising call never returns less than `alpha`, and a
      minimising call never more than `beta`. A base case is worth what
      `LeafValue` says. The call gives back the node it was handed, as its
      callers rely on when they undo their own move; only at the root, after
      the winning shortcut, is the node left after the stored move. */
  function AlphaBeta(ctx: Ctx, run: Run, depth: int, alpha: Ext, beta: Ext): (r: Outcome)
    requires depth <= StartDepth
    ensures depth < StartDepth ==> r.run.stored == run.stored
    ensures r.run.stored == run.stored
            || (r.run.stored.Some? && r.run.stored.value in GetPossibleMoves(run.node))
    ensures Inner(ctx, run, depth) && depth < StartDepth ==>
              if run.node.player == ctx.color then !Less(r.value, alpha) else !Less(beta, r.value)
    ensures !Inner(ctx, run, depth) ==>
              && r.value.Fin? && (r.value.v == ctx.rate(run.node) || r.value.v == ctx.rate(run.node) - 500000.0)
              && (r.value.v < ctx.rate(run.node) <==>
                    GetWinner(run.node) == Some(Opp(ctx.color))
                    && (depth == StartDepth - 2 || (depth == StartDepth - 3 && run.node.player != ctx.color)))
    ensures Disjoint(run.node) ==>
              r.run.node == run.node
              || (depth == StartDepth && r.run.stored.Some? && PerformMove(run.node, r.run.stored.value) == Some(r.run.node)
                  && GetWinner(r.run.node) == Some(ctx.color))
    decreases depth, 3
  {
    var next := run.(tick := run.tick + 1);
    ListedAccepted(run.node);
    if !Inner(ctx, run, depth) then Outcome(LeafValue(ctx, run.node, depth), next)
    else if depth == StartDepth then AtRoot(ctx, next, alpha, beta)
    else Descend(ctx, next, depth, GetPossibleMoves(run.node), alpha, beta)
  }

  /** The root after the base case: the one-move win shortcut, and otherwise
      the search over the shuffled list of moves. */
  function AtRoot(ctx: Ctx, run: Run, alpha: Ext, beta: Ext): (r: Outcome)
    ensures r.run.stored == run.stored
            || (r.run.stored.Some? && r.run.stored.value in GetPossibleMoves(run.node))
    ensures Disjoint(run.node) ==>
              r.run.node == run.node
              || (r.run.stored.Some? && PerformMove(run.node, r.run.stored.value) == Some(r.run.node)
                  && GetWinner(r.run.node) == Some(ctx.color))
    decreases StartDepth, 2
  {
    var moves := GetPossibleMoves(run.node);
    ListedAccepted(run.node);
    RootShortcut(ctx.color, run.node);
    match Shortcut(ctx.color, run.node, moves, 0)
    case Won(m, n) => Outcome(Fin(ctx.rate(n)), run.(node := n, stored := Some(m)))
    case NoWin(n) =>
      var shuffled := Shuffle(moves, ctx.oracles.random);
      assert forall m :: m in shuffled ==> m in multiset(moves);
      Descend(ctx, run.(node := n), StartDepth, shuffled, alpha, beta)
  }

  /** The maximising loop when the AI is to move, the minimising one
      otherwise; each gives back a node on which every listed move is accepted. */
  function Descend(ctx: Ctx, run: Run, depth: int, moves: seq<Move>, alpha: Ext, beta: Ext): (r: Outcome)
    requires 0 < depth <= StartDepth
    ensures if run.node.player == ctx.color then !Less(r.value, alpha) else !Less(beta, r.value)
    ensures r.run.stored == run.stored
            || (depth == StartDepth && r.run.stored.Some? && r.run.stored.value in moves)
    ensures Accepting(run.node, moves) ==> r.run.node == run.node
    decreases depth, 1, |moves| + 1
  {
    if run.node.player == ctx.color then MaxLoop(ctx, run, depth, moves, 0, alpha, beta)
    else MinLoop(ctx, run, depth, moves, 0, alpha, beta)
  }

  /** The loop of the maximising player from move `i` on, with `best` the
      current `maxValue`: a position already on the live board's draw table
      or flagged as repeated is not searched. The result is never below
      `best`; only at the root does an improving move become the stored one. */
  function MaxLoop(ctx: Ctx, run: Run, depth: int, moves: seq<Move>, i: nat, best: Ext, beta: Ext): (r: Outcome)
    requires 0 < depth <= StartDepth && i <= |moves|
    ensures !Less(r.value, best)
    ensures r.run.stored == run.stored
            || (depth == StartDepth && r.run.stored.Some? && r.run.stored.value in moves)
    ensures Accepting(run.node, moves) ==> r.run.node == run.node
    decreases depth, 1, |moves| - i
  {
    if i == |moves| then Outcome(best, run)
    else
      var m := moves[i];
      assert m in moves;
      var o := MaxTrial(ctx, run, depth, m, best, beta);
      var back := o.run.(node := Revert(o.run.node, m));
      if Less(best, o.value) then
        if !Less(o.value, beta) then Outcome(o.value, back)
        else MaxLoop(ctx, if depth == StartDepth then back.(stored := Some(m)) else back,
                     depth, moves, i + 1, o.value, beta)
      else MaxLoop(ctx, back, depth, moves, i + 1, best, beta)
  }

  /** One round of the maximising loop: the position after `m` is searched
      unless it is already on the live board's draw table or flagged as
      repeated, in which case it keeps the value `best`. Either way, undoing
      an accepted move gives back the node. */
  function MaxTrial(ctx: Ctx, run: Run, depth: int, m: Move, best: Ext, beta: Ext): (o: Outcome)
    requires 0 < depth <= StartDepth
    ensures o.run.stored == run.stored
    ensures Disjoint(run.node) && PerformMove(run.node, m).Some? ==> Revert(o.run.node, m) == run.node
    decreases depth, 0
  {
    TakeBack(run.node, m);
    var child := Apply(run.node, m);
    var h := NodeHash(child);
    if !DrawSeen(ctx.draw, h) && !ctx.oracles.repeated(run.tick, h)
    then AlphaBeta(ctx, run.(node := child), depth - 1, best, beta)
    else Outcome(best, run.(node := child))
  }

  /** The loop of the minimising player from move `i` on, with `best` the
      current `minValue`: the result is never above `best`, and the stored
      move is never touched. */
  function MinLoop(ctx: Ctx, run: Run, depth: int, moves: seq<Move>, i: nat, alpha: Ext, best: Ext): (r: Outcome)
    requires 0 < depth <= StartDepth && i <= |moves|
    ensures !Less(best, r.value)
    ensures r.run.stored == run.stored
    ensures Accepting(run.node, moves) ==> r.run.node == run.node
    decreases depth, 1, |moves| - i
  {
    if i == |moves| then Outcome(best, run)
    else
      var m := moves[i];
      assert m in moves;
      TakeBack(run.node, m);
      var o := AlphaBeta(ctx, run.(node := Apply(run.node, m)), depth - 1, alpha, best);
      var back := o.run.(node := Revert(o.run.node, m));
      if Less(o.value, best) then
        if !Less(alpha, o.value) then Outcome(o.value, back)
        else MinLoop(ctx, back, depth, moves, i + 1, alpha, o.value)
      else MinLoop(ctx, back, depth, moves, i + 1, alpha, best)
  }

  // ---------------------------------------------------------------------
  // The node is given back

  /** Every listed move is one `PerformMove` accepts. */
  lemma ListedAccepted(b: Board)
    ensures forall m :: m in GetPossibleMoves(b) ==> PerformMove(b, m).Some?
  {
    forall m | m in GetPossibleMoves(b)
      ensures PerformMove(b, m).Some?
    {
      PossibleMovesExact(b, m);
    }
  }

  /** Trying a listed move and taking it back restores a disjoint node, and
      the trial node stays disjoint. */
  lemma TryAndTakeBack(b: Board, m: Move)
    requires Disjoint(b) && PerformMove(b, m).Some?
    ensures Apply(b, m) == PerformMove(b, m).value
    ensures Disjoint(Apply(b, m))
    ensures Revert(Apply(b, m), m) == b
  {
    PerformMoveEffects(b, m);
    PerformThenUndo(b, m);
  }

  /** A disjoint node on which every move of the list is accepted. */
  ghost predicate Accepting(b: Board, moves: seq<Move>) {
    Disjoint(b) && forall m :: m in moves ==> PerformMove(b, m).Some?
  }

  /** `TryAndTakeBack` for any node and move, as the search functions use it. */
  lemma TakeBack(b: Board, m: Move)
    ensures Disjoint(b) && PerformMove(b, m).Some? ==>
              Apply(b, m) == PerformMove(b, m).value && Disjoint(Apply(b, m)) && Revert(Apply(b, m), m) == b
  {
    if Disjoint(b) && PerformMove(b, m).Some? {
      TryAndTakeBack(b, m);
    }
  }

  /** On a disjoint node whose moves are all accepted, the shortcut leaves
      the node after the winning move when it finds one, and otherwise gives
      the node back. */
  lemma {:induction false} ShortcutRestores(color: Color, node: Board, moves: seq<Move>, i: nat)
    requires i <= |moves| && Disjoint(node)
    requires forall m :: m in moves ==> PerformMove(node, m).Some?
    ensures Shortcut(color, node, moves, i).NoWin? ==> Shortcut(color, node, moves, i).node == node
    ensures Shortcut(color, node, moves, i).Won? ==>
              Shortcut(color, node, moves, i).node == PerformMove(node, Shortcut(color, node, moves, i).move).value
    decreases |moves| - i
  {
    if i < |moves| {
      assert moves[i] in moves;
      var tried := Apply(node, moves[i]);
      TryAndTakeBack(node, moves[i]);
      if GetWinner(tried) == Some(color) {
        assert Shortcut(color, node, moves, i) == Won(moves[i], tried);
      } else {
        assert Shortcut(color, node, moves, i) == Shortcut(color, node, moves, i + 1);
        ShortcutRestores(color, node, moves, i + 1);
      }
    }
  }

  /** The shortcut over the node's own moves: on a disjoint node it gives
      the node back when no move wins at once, and otherwise leaves the node
      `PerformMove` makes of the winning move. */
  lemma RootShortcut(color: Color, node: Board)
    ensures var p := Shortcut(color, node, GetPossibleMoves(node), 0);
      Disjoint(node) ==>
        && (p.NoWin? ==> p.node == node)
        && (p.Won? ==> PerformMove(node, p.move) == Some(p.node))
  {
    if Disjoint(node) {
      var moves := GetPossibleMoves(node);
      ListedAccepted(node);
      ShortcutRestores(color, node, moves, 0);
      var p := Shortcut(color, node, moves, 0);
      if p.Won? {
        assert moves[0..] == moves;
      }
    }
  }

  /** The shortcut is taken exactly when one of the moves from `i` on wins
      at once for `color`. */
  lemma {:induction false} ShortcutTaken(color: Color, node: Board, moves: seq<Move>, i: nat)
    requires i <= |moves| && Disjoint(node)
    requires forall m :: m in moves ==> PerformMove(node, m).Some?
    ensures Shortcut(color, node, moves, i).Won? <==>
              exists k :: i <= k < |moves| && GetWinner(PerformMove(node, moves[k]).value) == Some(color)
    decreases |moves| - i
  {
    if i < |moves| {
      assert moves[i] in moves;
      TryAndTakeBack(node, moves[i]);
      ShortcutTaken(color, node, moves, i + 1);
      if GetWinner(PerformMove(node, moves[i]).value) == Some(color) {
        assert i <= i < |moves|;
      } else if exists k :: i <= k < |moves| && GetWinner(PerformMove(node, moves[k]).value) == Some(color) {
        var k :| i <= k < |moves| && GetWinner(PerformMove(node, moves[k]).value) == Some(color);
        assert k != i;
      }
    }
  }

  /** The move the root stores is one `ExecuteMove` can play: `PerformMove`
      accepts it on the node the search started from. */
  lemma StoredMoveAccepted(ctx: Ctx, run: Run, alpha: Ext, beta: Ext)
    ensures var r := AlphaBeta(ctx, run, StartDepth, alpha, beta);
      r.run.stored != run.stored ==> r.run.stored.Some? && PerformMove(run.node, r.run.stored.value).Some?
  {
    ListedAccepted(run.node);
  }
}
