/** The position heuristic of `GameNode` (typescript/EnemyAIMinimax.ts:359-681):
    counting scans over the 24 fields, several of which put a stone of the
    player on every free field for a moment, look at the mills it would
    close, and take it away again, and the weighted sum `GetRating` built
    from them. Each scan is a sum over the fields of a per-field score
    (`Score`); the methods run the TypeScript loops with the temporary stone
    and return the board they leave behind. */
module Rating {
  import opened Base
  import opened Topology
  import opened Node

  // ---------------------------------------------------------------------
  // Lines as seen from a field

  /** Both other fields of `f`'s line along `axis` hold a stone of `c`: a
      stone of `c` on `f` would close that mill. */
  predicate Ready(b: Board, c: Color, axis: Axis, f: Field) {
    var (x, y) := Mates(axis, f);
    Stones(b, c)[x] && Stones(b, c)[y]
  }

  /** One of two fields holds a stone of `c` and the other is free. */
  predicate HalfOpen(b: Board, c: Color, x: Field, y: Field) {
    (Stones(b, c)[x] && !Occupied(b, y)) || (!Occupied(b, x) && Stones(b, c)[y])
  }

  /** The line through `j` along `axis` needs one more stone of `c` and one
      free field to become a two-piece configuration of `c` with `j`. */
  predicate OpenEnds(b: Board, c: Color, axis: Axis, j: Field) {
    var (u, v) := Mates(axis, j);
    HalfOpen(b, c, u, v)
  }

  /** A stone of `c` on the free field `f` closes a mill along `axis` exactly
      when the two other fields of that line hold stones of `c`. */
  lemma ReadyAfterPut(b: Board, c: Color, axis: Axis, f: Field)
    requires !Occupied(b, f)
    ensures CheckMillAlong(Put(b, c, f, true), axis, f) <==> Ready(b, c, axis, f)
  {
    var p := Put(b, c, f, true);
    var l := LineOf(axis, f);
    CheckMillMeaning(p, axis, f);
    LineContains(axis, f);
    assert ColorAt(p, f) == c;
    HoldsWith(p, c, l, f);
    OthersIn(l, f);
  }

  /** A line holding a stone of `c` on `f` is held by `c` exactly when its
      two other fields are. */
  lemma HoldsWith(b: Board, c: Color, l: Line, f: Field)
    requires f in l && l[0] < l[1] < l[2] && Stones(b, c)[f]
    ensures Holds(b, c, l) <==> var (x, y) := Others(l, f); Stones(b, c)[x] && Stones(b, c)[y]
  {
  }

  // ---------------------------------------------------------------------
  // Three-piece configurations as written

  /** `placedStones` of `NumberOfThreePieceConfs`: the two other fields of a
      mill along `axis` through `f`, found through the neighbour tables. The
      two empty slots that `new Array<number>(2)` starts with only ever look
      up `undefined` and never count, so they are left out. */
  function PlacedStones(axis: Axis, f: Field): seq<Field> {
    if Prev(axis, f).Some? then
      var p := Prev(axis, f).value;
      [p] + (if Prev(axis, p).Some? then [Prev(axis, p).value]
             else if Next(axis, f).Some? then [Next(axis, f).value] else [])
    else if Next(axis, f).Some? then
      var n := Next(axis, f).value;
      [n] + (if Next(axis, n).Some? then [Next(axis, n).value] else [])
    else []
  }

  /** The test on one of the `placedStones` `j` along the crossing axis `ax`:
      depending on where `j` sits on its line, the two other fields of that
      line are one stone of the player and one free field. */
  predicate CanExtend(b: Board, c: Color, ax: Axis, j: Field) {
    if Prev(ax, j).Some? then
      var t := Prev(ax, j).value;
      if Prev(ax, t).Some? then HalfOpen(b, c, Prev(ax, t).value, t)
      else if Next(ax, j).Some? then HalfOpen(b, c, t, Next(ax, j).value)
      else false
    else if Next(ax, j).Some? && Next(ax, Next(ax, j).value).Some? then
      HalfOpen(b, c, Next(ax, Next(ax, j).value).value, Next(ax, j).value)
    else false
  }

  /** `placedStones` is the two mates of `f`, in one order or the other. */
  lemma PlacedStonesAreMates(axis: Axis, f: Field)
    ensures var (x, y) := Mates(axis, f);
      PlacedStones(axis, f) == [x, y] || PlacedStones(axis, f) == [y, x]
  {
    var l := LineOf(axis, f);
    LineSteps(axis, f);
    LineContains(axis, f);
  }

  /** The table-driven test on `j` is the test on the two other fields of
      `j`'s line. */
  lemma CanExtendMeaning(b: Board, c: Color, ax: Axis, j: Field)
    ensures CanExtend(b, c, ax, j) <==> OpenEnds(b, c, ax, j)
  {
    var l := LineOf(ax, j);
    LineSteps(ax, j);
    LineContains(ax, j);
    if j == l[0] {
      assert Prev(ax, j).None? && Next(ax, j) == Some(l[1]) && Next(ax, l[1]) == Some(l[2]);
      assert CanExtend(b, c, ax, j) == HalfOpen(b, c, l[2], l[1]);
    } else if j == l[1] {
      assert Prev(ax, j) == Some(l[0]) && Prev(ax, l[0]).None? && Next(ax, j) == Some(l[2]);
      assert CanExtend(b, c, ax, j) == HalfOpen(b, c, l[0], l[2]);
    } else {
      assert j == l[2];
      assert Prev(ax, j) == Some(l[1]) && Prev(ax, l[1]) == Some(l[0]);
      assert CanExtend(b, c, ax, j) == HalfOpen(b, c, l[0], l[1]);
    }
  }

  // ---------------------------------------------------------------------
  // Per-field scores

  /** The counting scans of the heuristic. */
  datatype Scan = TwoPiece | ThreePiece | OpenMill | OpenDoubleMill | ClosedMill | DoubleMill | Blocked

  /** What the loop of `NumberOfThreePieceConfs` adds for one axis, with
      the temporary stone already on `f` in `p`. */
  function ThreeAlong(p: Board, c: Color, axis: Axis, f: Field): nat {
    var js := PlacedStones(axis, f);
    if CheckMillAlong(p, axis, f) && AnyExtends(p, c, Cross(axis), js) then 1 else 0
  }

  /** What the loop of `NumberOfOpenMills` adds for one axis, with the
      temporary stone already on `f` in `p`: the mill along `axis` would
      close, no opponent stone stands next to `f` across it, and a stone of
      the player does (the one that would slide in). */
  function OpenAlong(p: Board, c: Color, axis: Axis, f: Field): nat {
    var ax := Cross(axis);
    if CheckMillAlong(p, axis, f)
       && (Prev(ax, f).None? || !Stones(p, Opp(c))[Prev(ax, f).value])
       && (Next(ax, f).None? || !Stones(p, Opp(c))[Next(ax, f).value])
    then
      if Prev(ax, f).Some? && Stones(p, c)[Prev(ax, f).value] then 1
      else if Next(ax, f).Some? && Stones(p, c)[Next(ax, f).value] then 1
      else 0
    else 0
  }

  /** `f` is the first field of a mill line along `axis` that `c` holds. */
  predicate StartsLine(b: Board, c: Color, axis: Axis, f: Field) {
    LineOf(axis, f)[0] == f && Holds(b, c, LineOf(axis, f))
  }

  /** Every neighbour of `f` is occupied. */
  predicate Surrounded(b: Board, f: Field) {
    forall n :: n in Neighbors(f) ==> Occupied(b, n)
  }

  /** What one scan counts at field `f` for player `c`. Four scans put a
      stone of `c` on a free `f` for a moment; `ClosedMill` counts each
      closed line of `c` once, at its first field. */
  function Score(b: Board, c: Color, s: Scan, f: Field): (r: nat)
    ensures r <= 2
  {
    match s
      case TwoPiece =>
        if Occupied(b, f) then 0
        else var p := Put(b, c, f, true);
          (if CheckMillAlong(p, Horizontal, f) then 1 else 0) + (if CheckMillAlong(p, Vertical, f) then 1 else 0)
      case ThreePiece =>
        if Occupied(b, f) then 0
        else var p := Put(b, c, f, true);
          ThreeAlong(p, c, Horizontal, f) + ThreeAlong(p, c, Vertical, f)
      case OpenMill =>
        if Occupied(b, f) then 0
        else var p := Put(b, c, f, true);
          OpenAlong(p, c, Horizontal, f) + OpenAlong(p, c, Vertical, f)
      case OpenDoubleMill =>
        if !Occupied(b, f) && CheckMill(Put(b, c, f, true), f)
           && exists n :: n in Neighbors(f) && Stones(b, c)[n] && CheckMill(b, n)
        then 1 else 0
      case ClosedMill =>
        (if StartsLine(b, c, Horizontal, f) then 1 else 0) + (if StartsLine(b, c, Vertical, f) then 1 else 0)
      case DoubleMill =>
        if Stones(b, c)[f] && CheckMillAlong(b, Horizontal, f) && CheckMillAlong(b, Vertical, f) then 1 else 0
      case Blocked =>
        if Surrounded(b, f) then 1 else 0
  }

  /** The scan over the fields `0..n-1`. */
  function ScanSum(b: Board, c: Color, s: Scan, n: nat): (r: nat)
    requires n <= 24
    ensures r <= 2 * n
  {
    if n == 0 then 0 else ScanSum(b, c, s, n - 1) + Score(b, c, s, n - 1)
  }

  // ---------------------------------------------------------------------
  // What the scores mean

  /** A two-piece configuration: each line through the free field `f` whose
      two other fields hold stones of `c` counts once. */
  lemma TwoPieceMeaning(b: Board, c: Color, f: Field)
    ensures Score(b, c, TwoPiece, f) ==
              if Occupied(b, f) then 0
              else (if Ready(b, c, Horizontal, f) then 1 else 0) + (if Ready(b, c, Vertical, f) then 1 else 0)
  {
    if !Occupied(b, f) {
      ReadyAfterPut(b, c, Horizontal, f);
      ReadyAfterPut(b, c, Vertical, f);
    }
  }

  /** A stone of `c` on `f` changes nothing on the crossing lines through
      the mates of `f`. */
  lemma OpenEndsAfterPut(b: Board, c: Color, axis: Axis, f: Field, j: Field)
    requires !Occupied(b, f)
    requires j == Mates(axis, f).0 || j == Mates(axis, f).1
    ensures OpenEnds(Put(b, c, f, true), c, Cross(axis), j) <==> OpenEnds(b, c, Cross(axis), j)
  {
    MatesOf(axis, f);
    MatesOf(Cross(axis), j);
    MatesOffCross(axis, f);
    SameLineAll(Cross(axis), j);
  }

  /** A three-piece configuration: along each axis, the free field `f`
      completes a line of `c`, and the crossing line through one of its two
      mates has one more stone of `c` and a free field. */
  lemma ThreePieceMeaning(b: Board, c: Color, f: Field)
    requires !Occupied(b, f)
    ensures Score(b, c, ThreePiece, f) ==
              (if Ready(b, c, Horizontal, f) && (OpenEnds(b, c, Vertical, Mates(Horizontal, f).0)
                                                  || OpenEnds(b, c, Vertical, Mates(Horizontal, f).1))
               then 1 else 0)
              + (if Ready(b, c, Vertical, f) && (OpenEnds(b, c, Horizontal, Mates(Vertical, f).0)
                                                  || OpenEnds(b, c, Horizontal, Mates(Vertical, f).1))
                 then 1 else 0)
  {
    ThreeAxis(b, c, Horizontal, f);
    ThreeAxis(b, c, Vertical, f);
  }

  lemma ThreeAxis(b: Board, c: Color, axis: Axis, f: Field)
    requires !Occupied(b, f)
    ensures ThreeAlong(Put(b, c, f, true), c, axis, f) ==
              if Ready(b, c, axis, f) && (OpenEnds(b, c, Cross(axis), Mates(axis, f).0)
                                          || OpenEnds(b, c, Cross(axis), Mates(axis, f).1))
              then 1 else 0
  {
    var p := Put(b, c, f, true);
    var (x, y) := Mates(axis, f);
    ReadyAfterPut(b, c, axis, f);
    PlacedStonesAreMates(axis, f);
    PairExtends(p, c, Cross(axis), PlacedStones(axis, f), x, y);
    CanExtendMeaning(p, c, Cross(axis), x);
    CanExtendMeaning(p, c, Cross(axis), y);
    OpenEndsAfterPut(b, c, axis, f, x);
    OpenEndsAfterPut(b, c, axis, f, y);
  }

  /** Some field of `js` passes the test of `NumberOfThreePieceConfs`. */
  predicate AnyExtends(p: Board, c: Color, ax: Axis, js: seq<Field>) {
    exists k :: 0 <= k < |js| && CanExtend(p, c, ax, js[k])
  }

  lemma PairExtends(p: Board, c: Color, ax: Axis, js: seq<Field>, x: Field, y: Field)
    requires js == [x, y] || js == [y, x]
    ensures AnyExtends(p, c, ax, js) <==> CanExtend(p, c, ax, x) || CanExtend(p, c, ax, y)
  {
    if CanExtend(p, c, ax, x) {
      if js == [x, y] { assert CanExtend(p, c, ax, js[0]); } else { assert CanExtend(p, c, ax, js[1]); }
    }
    if CanExtend(p, c, ax, y) {
      if js == [x, y] { assert CanExtend(p, c, ax, js[1]); } else { assert CanExtend(p, c, ax, js[0]); }
    }
  }

  /** Field `n` is next to `f` across the line along `axis`. */
  predicate Beside(axis: Axis, f: Field, n: Field) {
    Prev(Cross(axis), f) == Some(n) || Next(Cross(axis), f) == Some(n)
  }

  /** No field is its own neighbour along an axis. */
  lemma NotOwnNeighbor(axis: Axis, f: Field)
    ensures Prev(axis, f) != Some(f) && Next(axis, f) != Some(f)
  {
    var l := LineOf(axis, f);
    LineSteps(axis, f);
    LineContains(axis, f);
    if f == l[0] {
    } else if f == l[1] {
    } else {
      assert f == l[2];
    }
  }

  /** An open mill along `axis`: the free field `f` completes a line of `c`,
      a stone of `c` stands next to `f` across that line, and no opponent
      stone does. */
  lemma OpenMillMeaning(b: Board, c: Color, axis: Axis, f: Field)
    requires !Occupied(b, f)
    ensures OpenAlong(Put(b, c, f, true), c, axis, f) == 1 <==>
              && Ready(b, c, axis, f)
              && (exists n: Field :: Beside(axis, f, n) && Stones(b, c)[n])
              && (forall n: Field :: Beside(axis, f, n) ==> !Stones(b, Opp(c))[n])
  {
    ReadyAfterPut(b, c, axis, f);
    NotOwnNeighbor(Cross(axis), f);
  }

  /** An open double mill: a stone of `c` on the free field `f` would close
      a mill, and a neighbour of `f` holds a stone of `c` that is in a mill
      now (so moving it to `f` and back switches between two mills). */
  lemma OpenDoubleMillMeaning(b: Board, c: Color, f: Field)
    ensures Score(b, c, OpenDoubleMill, f) == 1 <==>
              && !Occupied(b, f)
              && (Ready(b, c, Horizontal, f) || Ready(b, c, Vertical, f))
              && (exists n :: n in Neighbors(f) && Stones(b, c)[n] && CheckMill(b, n))
  {
    if !Occupied(b, f) {
      ReadyAfterPut(b, c, Horizontal, f);
      ReadyAfterPut(b, c, Vertical, f);
    }
  }

  /** A double mill: a stone of `c` that completes both its row and its
      column. */
  lemma DoubleMillMeaning(b: Board, c: Color, f: Field)
    requires Disjoint(b)
    ensures Score(b, c, DoubleMill, f) == 1 <==>
              Stones(b, c)[f] && Holds(b, c, LineOf(Horizontal, f)) && Holds(b, c, LineOf(Vertical, f))
  {
    CheckMillMeaning(b, Horizontal, f);
    CheckMillMeaning(b, Vertical, f);
    MatesOf(Horizontal, f);
    MatesOf(Vertical, f);
    if Stones(b, c)[f] {
      assert ColorAt(b, f) == c;
    }
  }

  /** Every line has exactly one first field: the first field of the line
      through `g` starts it exactly when `c` holds it. */
  lemma ClosedMillOnce(b: Board, c: Color, axis: Axis, g: Field)
    ensures StartsLine(b, c, axis, LineOf(axis, g)[0]) <==> Holds(b, c, LineOf(axis, g))
    ensures forall f: Field :: StartsLine(b, c, axis, f) && f in LineOf(axis, g) ==> f == LineOf(axis, g)[0]
  {
    SameLine(axis, g);
    SameLineAll(axis, g);
  }

  /** On dense rows (every entry a boolean), the blocked-stone scan looks at
      every field, not only at the stones of the player it is asked about,
      so both players get the same count. */
  lemma {:induction false} BlockedIgnoresPlayer(b: Board, c: Color, n: nat)
    requires n <= 24
    ensures ScanSum(b, c, Blocked, n) == ScanSum(b, Opp(c), Blocked, n)
  {
    if n > 0 {
      BlockedIgnoresPlayer(b, c, n - 1);
    }
  }

  // ---------------------------------------------------------------------
  // The TypeScript loops

  /** Taking the temporary stone away again restores the board. */
  lemma PutBack(b: Board, c: Color, f: Field)
    requires !Stones(b, c)[f]
    ensures Put(Put(b, c, f, true), c, f, false) == b
  {
    assert Stones(b, c)[f := true][f := false] == Stones(b, c);
  }

  /** `NumberOfTwoPieceConfs`. */
  method NumberOfTwoPieceConfs(b: Board, c: Color) returns (count: nat, after: Board)
    ensures after == b
    ensures count == ScanSum(b, c, TwoPiece, 24)
  {
    var node := b;
    count := 0;
    for f := 0 to 24
      invariant node == b
      invariant count == ScanSum(b, c, TwoPiece, f)
    {
      if Occupied(node, f) {
        continue;
      }
      node := Put(node, c, f, true);
      if CheckMillAlong(node, Horizontal, f) {
        count := count + 1;
      }
      if CheckMillAlong(node, Vertical, f) {
        count := count + 1;
      }
      PutBack(b, c, f);
      node := Put(node, c, f, false);
    }
    after := node;
  }

  /** `NumberOfThreePieceConfs`: every configuration is found from both of
      its free ends, so the count is halved, which can leave a half. */
  method NumberOfThreePieceConfs(b: Board, c: Color) returns (half: real, after: Board)
    ensures after == b
    ensures half == ScanSum(b, c, ThreePiece, 24) as real / 2.0
  {
    var node := b;
    var count: nat := 0;
    for f := 0 to 24
      invariant node == b
      invariant count == ScanSum(b, c, ThreePiece, f)
    {
      if Occupied(node, f) {
        continue;
      }
      node := Put(node, c, f, true);
      var h := ExtendsFrom(node, c, Horizontal, f);
      var v := ExtendsFrom(node, c, Vertical, f);
      count := count + h + v;
      PutBack(b, c, f);
      node := Put(node, c, f, false);
    }
    half := count as real / 2.0;
    after := node;
  }

  /** The inner loop of `NumberOfThreePieceConfs` for one axis: if the mill
      along `axis` would close, count once at the first of the
      `placedStones` that passes the test, then stop. */
  method ExtendsFrom(p: Board, c: Color, axis: Axis, f: Field) returns (count: nat)
    ensures count == ThreeAlong(p, c, axis, f)
  {
    count := 0;
    if CheckMillAlong(p, axis, f) {
      var js := PlacedStones(axis, f);
      var k := 0;
      while k < |js|
        invariant 0 <= k <= |js|
        invariant forall i :: 0 <= i < k ==> !CanExtend(p, c, Cross(axis), js[i])
      {
        if CanExtend(p, c, Cross(axis), js[k]) {
          count := 1;
          break;
        }
        k := k + 1;
      }
    }
  }

  /** `NumberOfOpenMills`. */
  method NumberOfOpenMills(b: Board, c: Color) returns (count: nat, after: Board)
    ensures after == b
    ensures count == ScanSum(b, c, OpenMill, 24)
  {
    var node := b;
    count := 0;
    for f := 0 to 24
      invariant node == b
      invariant count == ScanSum(b, c, OpenMill, f)
    {
      if Occupied(node, f) {
        continue;
      }
      node := Put(node, c, f, true);
      count := count + OpenAlong(node, c, Horizontal, f) + OpenAlong(node, c, Vertical, f);
      PutBack(b, c, f);
      node := Put(node, c, f, false);
    }
    after := node;
  }

  /** `NumberOfOpenDoubleMills`: the stone is taken away before the
      neighbours are looked at. */
  method NumberOfOpenDoubleMills(b: Board, c: Color) returns (count: nat, after: Board)
    ensures after == b
    ensures count == ScanSum(b, c, OpenDoubleMill, 24)
  {
    var node := b;
    count := 0;
    for f := 0 to 24
      invariant node == b
      invariant count == ScanSum(b, c, OpenDoubleMill, f)
    {
      if Occupied(node, f) {
        continue;
      }
      node := Put(node, c, f, true);
      var mill := CheckMill(node, f);
      PutBack(b, c, f);
      node := Put(node, c, f, false);
      if mill && exists n :: n in Neighbors(f) && Stones(node, c)[n] && CheckMill(node, n) {
        count := count + 1;
      }
    }
    after := node;
  }

  /** The marks `alreadyHorizMill` / `alreadyVertiMill` set for a mill along
      `axis` through `f`: `f` and the fields one and two steps before and
      after it. */
  function MarkLine(done: seq<bool>, axis: Axis, f: Field): seq<bool>
    requires |done| == 24
  {
    var d1 := done[f := true];
    var d2 := if Prev(axis, f).Some? then d1[Prev(axis, f).value := true] else d1;
    var d3 := if Prev(axis, f).Some? && Prev(axis, Prev(axis, f).value).Some?
              then d2[Prev(axis, Prev(axis, f).value).value := true] else d2;
    var d4 := if Next(axis, f).Some? then d3[Next(axis, f).value := true] else d3;
    if Next(axis, f).Some? && Next(axis, Next(axis, f).value).Some?
    then d4[Next(axis, Next(axis, f).value).value := true] else d4
  }

  /** The marks cover exactly the line through `f`. */
  lemma MarkLineMeaning(done: seq<bool>, axis: Axis, f: Field)
    requires |done| == 24
    ensures |MarkLine(done, axis, f)| == 24
    ensures forall g: Field :: MarkLine(done, axis, f)[g] == (done[g] || g in LineOf(axis, f))
  {
    var l := LineOf(axis, f);
    LineSteps(axis, f);
    LineContains(axis, f);
    assert forall g :: g in l ==> g == l[0] || g == l[1] || g == l[2];
  }

  /** The marks of one axis after the fields `0..f-1`: the fields of the
      closed lines of `c` already counted. */
  ghost predicate Marked(b: Board, c: Color, axis: Axis, done: seq<bool>, f: nat) {
    |done| == 24 && forall g: Field :: done[g] == (Holds(b, c, LineOf(axis, g)) && LineOf(axis, g)[0] < f)
  }

  /** One step of `NumberOfMills` along one axis: a stone of `c` in a closed,
      unmarked line is met exactly at the first field of that line. */
  lemma MarkStep(b: Board, c: Color, axis: Axis, done: seq<bool>, f: Field)
    requires Disjoint(b)
    requires Marked(b, c, axis, done, f)
    ensures (Stones(b, c)[f] && CheckMillAlong(b, axis, f) && !done[f]) <==> StartsLine(b, c, axis, f)
    ensures StartsLine(b, c, axis, f) ==> Marked(b, c, axis, MarkLine(done, axis, f), f + 1)
    ensures !StartsLine(b, c, axis, f) ==> Marked(b, c, axis, done, f + 1)
  {
    CheckMillMeaning(b, axis, f);
    LineContains(axis, f);
    if Stones(b, c)[f] {
      assert ColorAt(b, f) == c;
    }
    if StartsLine(b, c, axis, f) {
      MarkAdvance(b, c, axis, done, f);
    } else {
      SkipAdvance(b, c, axis, done, f);
    }
  }

  /** The marks of a line whose first field is `f` extend the marks to `f + 1`. */
  lemma MarkAdvance(b: Board, c: Color, axis: Axis, done: seq<bool>, f: Field)
    requires Marked(b, c, axis, done, f)
    requires StartsLine(b, c, axis, f)
    ensures Marked(b, c, axis, MarkLine(done, axis, f), f + 1)
  {
    var l := LineOf(axis, f);
    MarkLineMeaning(done, axis, f);
    SameLineAll(axis, f);
    forall g: Field
      ensures MarkLine(done, axis, f)[g] == (Holds(b, c, LineOf(axis, g)) && LineOf(axis, g)[0] < f + 1)
    {
      if LineOf(axis, g)[0] == f {
        SameLine(axis, g);
        LineContains(axis, g);
      }
    }
  }

  /** No line of `c` starts at `f`: the marks stay valid for `f + 1`. */
  lemma SkipAdvance(b: Board, c: Color, axis: Axis, done: seq<bool>, f: Field)
    requires Marked(b, c, axis, done, f)
    requires !StartsLine(b, c, axis, f)
    ensures Marked(b, c, axis, done, f + 1)
  {
    forall g: Field | LineOf(axis, g)[0] == f
      ensures !Holds(b, c, LineOf(axis, g))
    {
      SameLine(axis, g);
      LineContains(axis, g);
    }
  }

  /** The mill count grows at `f` by the lines of `c` that start there. */
  lemma MillScanStep(b: Board, c: Color, f: Field)
    ensures ScanSum(b, c, ClosedMill, f + 1) == ScanSum(b, c, ClosedMill, f)
              + (if StartsLine(b, c, Horizontal, f) then 1 else 0) + (if StartsLine(b, c, Vertical, f) then 1 else 0)
  {
  }

  /** `NumberOfMills`: every closed line of `c` counted once, even where two
      mills share a stone, using the marks of the fields already counted. */
  method NumberOfMills(b: Board, c: Color) returns (count: nat)
    requires Disjoint(b)
    ensures count == ScanSum(b, c, ClosedMill, 24)
  {
    var doneH := seq(24, _ => false);
    var doneV := seq(24, _ => false);
    count := 0;
    for f := 0 to 24
      invariant Marked(b, c, Horizontal, doneH, f)
      invariant Marked(b, c, Vertical, doneV, f)
      invariant count == ScanSum(b, c, ClosedMill, f)
    {
      MarkStep(b, c, Horizontal, doneH, f);
      MarkStep(b, c, Vertical, doneV, f);
      MillScanStep(b, c, f);
      if !Stones(b, c)[f] {
        continue;
      }
      if CheckMillAlong(b, Horizontal, f) && !doneH[f] {
        doneH := MarkLine(doneH, Horizontal, f);
        count := count + 1;
      }
      if CheckMillAlong(b, Vertical, f) && !doneV[f] {
        doneV := MarkLine(doneV, Vertical, f);
        count := count + 1;
      }
    }
  }

  // ---------------------------------------------------------------------
  // The rating

  /** The difference of a scan between the player to move and the opponent. */
  function Diff(b: Board, s: Scan): int {
    ScanSum(b, b.player, s, 24) as int - ScanSum(b, Opp(b.player), s, 24)
  }

  /** The rating for the player to move, before the sign of `GetRating`. */
  function MoverRating(b: Board): real {
    var p, o := b.player, Opp(b.player);
    var c1 := if b.phase == Removing then 1 else 0;
    var c2 := Diff(b, ClosedMill);
    var c3 := ScanSum(b, o, Blocked, 24) as int - ScanSum(b, p, Blocked, 24);
    var c4 := StoneCount(b, p) as int - StoneCount(b, o);
    var c5 := Diff(b, TwoPiece);
    var c6 := Diff(b, ThreePiece) as real / 2.0;
    var c7 := Diff(b, OpenDoubleMill);
    var c8 := Diff(b, OpenMill);
    var w := GetWinner(b);
    var c9 := if w.None? then 0 else if w.value == p then 1 else -1;
    var base :=
      if b.phase == Placing || (b.phase == Removing && b.turn < 18) then
        (100 * c1 + 26 * c2 + 30 * c3 + 9 * c4 + 10 * c5) as real + 7.0 * c6
      else if b.phase == Moving || (b.phase == Removing && b.turn >= 18) then
        (500 * c1 + 43 * c2 + 30 * c3 + 11 * c4 + 1000 * c7 + 500 * c8 + 500000 * c9) as real
      else 0.0;
    if b.turn >= 18 && (StoneCount(b, Black) <= 3 || StoneCount(b, White) <= 3)
    then base + (100 * c5) as real + 500.0 * c6
    else base
  }

  /** `GetRating(color)`: the rating of the player to move, negated for
      the other colour. */
  function GetRating(b: Board, color: Color): real {
    if color == b.player then MoverRating(b) else -MoverRating(b)
  }

  /** The heuristic is zero-sum: what one colour gains the other loses. */
  lemma RatingZeroSum(b: Board, c: Color)
    ensures GetRating(b, c) == -GetRating(b, Opp(c))
    ensures GetRating(b, c) + GetRating(b, Opp(c)) == 0.0
  {
  }

  /** On dense rows the blocked-stone criterion never contributes to the
      rating, because both players get the same count; the rating is the
      same as with the criterion left out. */
  lemma BlockedCriterionVanishes(b: Board)
    ensures ScanSum(b, Opp(b.player), Blocked, 24) as int - ScanSum(b, b.player, Blocked, 24) == 0
  {
    BlockedIgnoresPlayer(b, b.player, 24);
  }
}
