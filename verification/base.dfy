/** Shared vocabulary of the mill game: the stone colours and game phases of
    the enums in typescript/0mill.ts, board positions, an option type, and
    the counting helpers the scans over the 24 fields are built from. */
module Base {

  datatype Option<T> = None | Some(value: T)

  /** `StoneColor`: Black is 0 and White is 1, so `1 - color` is the opponent. */
  datatype Color = Black | White

  function Opp(c: Color): Color {
    if c == Black then White else Black
  }

  /** `GamePhase`, in declaration order (Menu is 0, ..., DrawScreen is 5). */
  datatype Phase = Menu | Placing | Moving | Removing | WinnerScreen | DrawScreen

  /** `hashForDraw[h]` is truthy: the position with hash `h` has occurred
      in the live game. A missing entry is `undefined`, which is falsy. */
  predicate DrawSeen(draw: map<nat, nat>, h: nat) {
    h in draw && draw[h] != 0
  }

  /** A position on the board; the board has exactly 24 of them. */
  type Field = i: int | 0 <= i < 24

  /** Number of `true` entries of a boolean array (`arr.filter(b => b).length`). */
  function Count(s: seq<bool>): nat
    decreases |s|
  {
    if |s| == 0 then 0 else Count(s[..|s| - 1]) + (if s[|s| - 1] then 1 else 0)
  }

  lemma {:induction false} CountBound(s: seq<bool>)
    ensures Count(s) <= |s|
    ensures Count(s) == 0 <==> forall i :: 0 <= i < |s| ==> !s[i]
    decreases |s|
  {
    if |s| > 0 {
      var t := s[..|s| - 1];
      CountBound(t);
      assert forall i :: 0 <= i < |t| ==> t[i] == s[i];
    }
  }

  /** Setting one entry changes the count by exactly the change of that entry. */
  lemma {:induction false} CountUpdate(s: seq<bool>, k: int, v: bool)
    requires 0 <= k < |s|
    ensures Count(s[k := v]) == Count(s) - (if s[k] then 1 else 0) + (if v then 1 else 0)
    decreases |s|
  {
    var n := |s| - 1;
    if k < n {
      assert s[k := v][..n] == s[..n][k := v];
      CountUpdate(s[..n], k, v);
    } else {
      assert s[k := v][..n] == s[..n];
    }
  }

  /** No element occurs twice in the list. */
  ghost predicate Distinct<T>(s: seq<T>) {
    forall i, j :: 0 <= i < j < |s| ==> s[i] != s[j]
  }

  /** Two lists without repetitions and without a common element make a
      list without repetitions. */
  lemma DistinctConcat<T>(a: seq<T>, r: seq<T>)
    requires Distinct(a) && Distinct(r)
    requires forall x :: x in a ==> x !in r
    ensures Distinct(a + r)
  {
    forall j, k | 0 <= j < k < |a + r|
      ensures (a + r)[j] != (a + r)[k]
    {
      if k < |a| {
        assert (a + r)[j] == a[j] && (a + r)[k] == a[k];
      } else if j >= |a| {
        assert (a + r)[j] == r[j - |a|] && (a + r)[k] == r[k - |a|];
      } else {
        assert (a + r)[j] == a[j] && a[j] in a;
        assert (a + r)[k] == r[k - |a|] && r[k - |a|] in r;
      }
    }
  }

  /** Sum of `g(0) + ... + g(n-1)`, the shape of every counting loop
      `for (let fieldNum = 0; fieldNum < 24; fieldNum++)` over the board. */
  function SumUpTo(n: nat, g: Field -> int): int
    requires n <= 24
    decreases n
  {
    if n == 0 then 0 else SumUpTo(n - 1, g) + g(n - 1)
  }

  lemma {:induction false} SumUpToCongruent(n: nat, g: Field -> int, h: Field -> int)
    requires n <= 24
    requires forall f: Field :: f < n ==> g(f) == h(f)
    ensures SumUpTo(n, g) == SumUpTo(n, h)
    decreases n
  {
    if n > 0 {
      SumUpToCongruent(n - 1, g, h);
    }
  }

  lemma {:induction false} SumUpToNonNegative(n: nat, g: Field -> int)
    requires n <= 24
    requires forall f: Field :: f < n ==> g(f) >= 0
    ensures SumUpTo(n, g) >= 0
    decreases n
  {
    if n > 0 {
      SumUpToNonNegative(n - 1, g);
    }
  }

  /** Every field satisfies `p` when each of the 24 fields does: the case
      split that turns a statement about the fixed board into 24 ground facts. */
  lemma EveryField(p: Field -> bool)
    requires p(0) && p(1) && p(2) && p(3) && p(4) && p(5) && p(6) && p(7)
    requires p(8) && p(9) && p(10) && p(11) && p(12) && p(13) && p(14) && p(15)
    requires p(16) && p(17) && p(18) && p(19) && p(20) && p(21) && p(22) && p(23)
    ensures forall f: Field :: p(f)
  {
    forall f: Field
      ensures p(f)
    {
      if f < 8 {
        assert f == 0 || f == 1 || f == 2 || f == 3 || f == 4 || f == 5 || f == 6 || f == 7;
      } else if f < 16 {
        assert f == 8 || f == 9 || f == 10 || f == 11 || f == 12 || f == 13 || f == 14 || f == 15;
      } else {
        assert f == 16 || f == 17 || f == 18 || f == 19 || f == 20 || f == 21 || f == 22 || f == 23;
      }
    }
  }

  /** `Math.pow(3, n)`. */
  function Pow3(n: nat): (r: nat)
    ensures r >= 1
  {
    if n == 0 then 1 else 3 * Pow3(n - 1)
  }

  /** Two base-3 numbers whose lower digits stay below `p` agree when their
      sums agree: the top digit and the rest are both determined. */
  lemma TopDigit(p: int, x: int, d: int, y: int, e: int)
    requires p > 0 && 0 <= x < p && 0 <= y < p
    requires x + p * d == y + p * e
    ensures d == e && x == y
  {
    if d < e {
      Distribute(p, e, d);
      AtLeastOnce(p, e - d);
    } else if e < d {
      Distribute(p, d, e);
      AtLeastOnce(p, d - e);
    }
  }

  lemma Distribute(p: int, d: int, e: int)
    ensures p * d - p * e == p * (d - e)
  {}

  lemma {:induction false} AtLeastOnce(p: int, k: int)
    requires p > 0 && k >= 1
    ensures p * k >= p
    decreases k
  {
    if k > 1 {
      AtLeastOnce(p, k - 1);
      assert p * k == p * (k - 1) + p;
    }
  }
}
