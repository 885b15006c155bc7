/**
 * The round initializer of `src/lib/setup.ts`: the 136-tile deck, the
 * Fisher-Yates shuffle, the four walls of 17 two-tile stacks, the dice, the
 * dead wall, the unwinding of the remaining stacks into the live wall and the
 * deal of four 13-tile hands.
 *
 * The seeded generator is an oracle: `rs` is the stream of values it returns,
 * each in [0, 1), consumed first by the shuffle (135 values) and then by the
 * two dice.
 */
module Setup {
  import opened Tiles
  import opened HandInput

  // ---------------------------------------------------------------------
  // The deck
  // ---------------------------------------------------------------------

  /** The four copies of one kind; the first `reds` of them are red (only ever asked for fives). */
  function Copies(suit: Suit, n: int, reds: int): (r: seq<Tile>)
    ensures |r| == 4
  {
    [Tile(suit, n, 0 < reds), Tile(suit, n, 1 < reds), Tile(suit, n, 2 < reds), Tile(suit, n, 3 < reds)]
  }

  /** The copies of numbers 1..k of one number suit; the fives get `reds` red copies. */
  function SuitRun(suit: Suit, reds: int, k: nat): (r: seq<Tile>)
    ensures |r| == 4 * k
  {
    if k == 0 then [] else SuitRun(suit, reds, k - 1) + Copies(suit, k, if k == 5 then reds else 0)
  }

  /** The copies of honours 1..k. */
  function HonorRun(k: nat): (r: seq<Tile>)
    ensures |r| == 4 * k
  {
    if k == 0 then [] else HonorRun(k - 1) + Copies(Z, k, 0)
  }

  /** The unshuffled deck: `m`, `p`, `s` numbers 1..9 suit by suit, then honours 1..7. */
  function Deck(red: RedRule): (r: seq<Tile>)
    ensures |r| == 136
  {
    SuitRun(M, red.m, 9) + SuitRun(P, red.p, 9) + SuitRun(S, red.s, 9) + HonorRun(7)
  }

  /** A tile kind the game has: a number 1..9 of a number suit or an honour 1..7. */
  predicate IsKind(suit: Suit, n: int)
  {
    if suit == Z then 1 <= n <= 7 else 1 <= n <= 9
  }

  /** `min(red, 4)`, and never negative. */
  function RedFives(reds: int): int
  {
    if reds <= 0 then 0 else if reds >= 4 then 4 else reds
  }

  lemma {:induction false} CopiesCounts(suit: Suit, n: int, reds: int, s: Suit, m: int)
    ensures KindCount(Copies(suit, n, reds), s, m) == if s == suit && m == n then 4 else 0
    ensures RedCount(Copies(suit, n, reds), s) == if s == suit then RedFives(reds) else 0
  {
    var c := Copies(suit, n, reds);
    assert c[..3][..2] == c[..2] && c[..2][..1] == c[..1] && c[..1][..0] == [];
    assert KindCount(c[..1], s, m) == if s == suit && m == n then 1 else 0;
    assert KindCount(c[..2], s, m) == if s == suit && m == n then 2 else 0;
    assert KindCount(c[..3], s, m) == if s == suit && m == n then 3 else 0;
    assert RedCount(c[..1], s) == if s == suit then RedFives(if reds > 1 then 1 else reds) else 0;
    assert RedCount(c[..2], s) == if s == suit then RedFives(if reds > 2 then 2 else reds) else 0;
    assert RedCount(c[..3], s) == if s == suit then RedFives(if reds > 3 then 3 else reds) else 0;
  }

  lemma {:induction false} SuitRunKinds(suit: Suit, reds: int, k: nat, s: Suit, m: int)
    requires suit != Z && k <= 9
    ensures KindCount(SuitRun(suit, reds, k), s, m) == if s == suit && 1 <= m <= k then 4 else 0
  {
    if k > 0 {
      SuitRunKinds(suit, reds, k - 1, s, m);
      var r := if k == 5 then reds else 0;
      CopiesCounts(suit, k, r, s, m);
      KindCountAppend(SuitRun(suit, reds, k - 1), Copies(suit, k, r), s, m);
    }
  }

  lemma {:induction false} SuitRunReds(suit: Suit, reds: int, k: nat, s: Suit)
    requires suit != Z && k <= 9
    ensures RedCount(SuitRun(suit, reds, k), s) == if s == suit && k >= 5 then RedFives(reds) else 0
  {
    if k > 0 {
      SuitRunReds(suit, reds, k - 1, s);
      var r := if k == 5 then reds else 0;
      CopiesCounts(suit, k, r, s, 0);
      RedCountAppend(SuitRun(suit, reds, k - 1), Copies(suit, k, r), s);
    }
  }

  lemma {:induction false} HonorRunCounts(k: nat, s: Suit, m: int)
    ensures KindCount(HonorRun(k), s, m) == if s == Z && 1 <= m <= k then 4 else 0
    ensures RedCount(HonorRun(k), s) == 0
  {
    if k > 0 {
      HonorRunCounts(k - 1, s, m);
      CopiesCounts(Z, k, 0, s, m);
      KindCountAppend(HonorRun(k - 1), Copies(Z, k, 0), s, m);
      RedCountAppend(HonorRun(k - 1), Copies(Z, k, 0), s);
    }
  }

  /**
   * Four copies of every kind and none of anything else; exactly
   * `min(red[suit], 4)` red tiles per number suit and no red honours.
   */
  lemma {:induction false} DeckCounts(red: RedRule, s: Suit, m: int)
    ensures KindCount(Deck(red), s, m) == if IsKind(s, m) then 4 else 0
    ensures RedCount(Deck(red), s) == RedFives(RedAllowance(red, s))
  {
    var a, b, c, d := SuitRun(M, red.m, 9), SuitRun(P, red.p, 9), SuitRun(S, red.s, 9), HonorRun(7);
    SuitRunKinds(M, red.m, 9, s, m);
    SuitRunKinds(P, red.p, 9, s, m);
    SuitRunKinds(S, red.s, 9, s, m);
    SuitRunReds(M, red.m, 9, s);
    SuitRunReds(P, red.p, 9, s);
    SuitRunReds(S, red.s, 9, s);
    HonorRunCounts(7, s, m);
    KindCountAppend(a, b, s, m);
    KindCountAppend(a + b, c, s, m);
    KindCountAppend(a + b + c, d, s, m);
    RedCountAppend(a, b, s);
    RedCountAppend(a + b, c, s);
    RedCountAppend(a + b + c, d, s);
  }

  /** Only suited fives are ever red in the deck. */
  lemma {:induction false} DeckWellFormed(red: RedRule)
    ensures AllWellFormed(Deck(red))
  {
    forall suit: Suit, reds: int, k: nat | suit != Z
      ensures AllWellFormed(SuitRun(suit, reds, k))
    {
      SuitRunWellFormed(suit, reds, k);
    }
    HonorRunWellFormed(7);
  }

  lemma {:induction false} SuitRunWellFormed(suit: Suit, reds: int, k: nat)
    requires suit != Z
    ensures AllWellFormed(SuitRun(suit, reds, k))
  {
    if k > 0 {
      SuitRunWellFormed(suit, reds, k - 1);
    }
  }

  lemma {:induction false} HonorRunWellFormed(k: nat)
    ensures AllWellFormed(HonorRun(k))
  {
    if k > 0 {
      HonorRunWellFormed(k - 1);
    }
  }

  // ---------------------------------------------------------------------
  // The shuffle
  // ---------------------------------------------------------------------

  /** Every oracle value lies in [0, 1), as the seeded generator promises. */
  predicate UnitValues(rs: seq<real>)
  {
    forall k :: 0 <= k < |rs| ==> 0.0 <= rs[k] < 1.0
  }

  /** `Math.floor(r * m)` for an oracle value `r`: an index below `m`. */
  function ScaledFloor(r: real, m: nat): (j: int)
    requires 0.0 <= r < 1.0 && m > 0
    ensures 0 <= j < m
  {
    assert r * (m as real) < m as real by {
      assert (1.0 - r) * (m as real) > 0.0;
    }
    (r * (m as real)).Floor
  }

  /**
   * The swap partners the shuffle of `len` elements draws: the `k`-th value
   * picks `Math.floor(r * (i + 1))` for `i = len - 1 - k`.
   */
  function SwapIndices(rs: seq<real>, len: nat): (js: seq<int>)
    requires UnitValues(rs) && len <= |rs| + 1
    ensures |js| == Steps(len)
    ensures ValidDraws(js, len)
  {
    seq(Steps(len), k requires 0 <= k < Steps(len) => ScaledFloor(rs[k], len - k))
  }

  /** The number of swaps the loop makes on `len` elements. */
  function Steps(len: nat): nat
  {
    if len == 0 then 0 else len - 1
  }

  /** Draw `k` of a shuffle of `len` elements is a position at or below `len - 1 - k`. */
  predicate ValidDraws(js: seq<int>, len: nat)
  {
    |js| == Steps(len) && forall k :: 0 <= k < |js| ==> 0 <= js[k] <= len - 1 - k
  }

  function Swap<T>(s: seq<T>, i: nat, j: nat): (r: seq<T>)
    requires i < |s| && j < |s|
    ensures |r| == |s|
  {
    s[i := s[j]][j := s[i]]
  }

  lemma {:induction false} SwapPermutes<T>(s: seq<T>, i: nat, j: nat)
    requires i < |s| && j < |s|
    ensures multiset(Swap(s, i, j)) == multiset(s)
  {
  }

  /**
   * The swaps of the descending Fisher-Yates loop from position `i` down to 1;
   * position `i` is swapped with draw number `|s| - 1 - i`.
   */
  function FisherYates<T>(s: seq<T>, i: nat, js: seq<int>): seq<T>
    requires ValidDraws(js, |s|) && (i < |s| || i == 0)
    decreases i
  {
    if i == 0 then s
    else FisherYates(Swap(s, i, js[|s| - 1 - i]), i - 1, js)
  }

  /** The shuffle only rearranges: same length, same multiset. */
  lemma {:induction false} FisherYatesPermutes<T>(s: seq<T>, i: nat, js: seq<int>)
    requires ValidDraws(js, |s|) && (i < |s| || i == 0)
    ensures |FisherYates(s, i, js)| == |s|
    ensures multiset(FisherYates(s, i, js)) == multiset(s)
    decreases i
  {
    if i > 0 {
      SwapPermutes(s, i, js[|s| - 1 - i]);
      FisherYatesPermutes(Swap(s, i, js[|s| - 1 - i]), i - 1, js);
    }
  }

  /** `[...array]`: a fresh array with the same elements. */
  method CopyOf<T>(a: array<T>) returns (b: array<T>)
    ensures fresh(b) && b[..] == a[..]
  {
    b := new T[a.Length](k reads a requires 0 <= k < a.Length => a[k]);
    assert b[..] == a[..];
  }

  /** `[ret[i], ret[j]] = [ret[j], ret[i]]`. */
  method SwapInPlace<T>(ret: array<T>, i: nat, j: nat)
    requires i < ret.Length && j < ret.Length
    modifies ret
    ensures ret[..] == Swap(old(ret[..]), i, j)
  {
    ret[i], ret[j] := ret[j], ret[i];
  }

  /**
   * `shuffle`: copies the argument and swaps in place from the last position
   * down, position `i` with the drawn `j`; the argument is not modified.
   */
  method Shuffle<T>(a: array<T>, js: seq<int>) returns (ret: array<T>)
    requires ValidDraws(js, a.Length)
    ensures fresh(ret) && ret.Length == a.Length
    ensures ret[..] == FisherYates(a[..], Steps(a.Length), js)
    ensures multiset(ret[..]) == multiset(a[..])
  {
    ret := CopyOf(a);
    ghost var goal := FisherYates(a[..], Steps(a.Length), js);
    var i := ret.Length - 1;
    while i > 0
      invariant -1 <= i < ret.Length && (i == -1 ==> a.Length == 0)
      invariant FisherYates(ret[..], if i < 0 then 0 else i, js) == goal
      decreases i
    {
      var j := js[a.Length - 1 - i];
      SwapInPlace(ret, i, j);
      i := i - 1;
    }
    FisherYatesPermutes(a[..], Steps(a.Length), js);
  }

  // ---------------------------------------------------------------------
  // Walls of two-tile stacks
  // ---------------------------------------------------------------------

  /** The tiles of a list of stacks, stack by stack. */
  function Flat(ss: seq<seq<Tile>>): seq<Tile>
  {
    if ss == [] then [] else Flat(ss[..|ss| - 1]) + ss[|ss| - 1]
  }

  lemma {:induction false} FlatAppend(a: seq<seq<Tile>>, b: seq<seq<Tile>>)
    ensures Flat(a + b) == Flat(a) + Flat(b)
    decreases |b|
  {
    if b == [] {
      assert a + b == a;
    } else {
      assert (a + b)[..|a + b| - 1] == a + b[..|b| - 1];
      FlatAppend(a, b[..|b| - 1]);
    }
  }

  /** Every stack holds exactly two tiles. */
  predicate Pairs(ss: seq<seq<Tile>>)
  {
    forall i :: 0 <= i < |ss| ==> |ss[i]| == 2
  }

  lemma {:induction false} FlatLength(ss: seq<seq<Tile>>)
    requires Pairs(ss)
    ensures |Flat(ss)| == 2 * |ss|
  {
    if ss != [] {
      FlatLength(ss[..|ss| - 1]);
    }
  }

  /** `splice(p, 1)` on a list of stacks. */
  function RemoveAt(ss: seq<seq<Tile>>, p: nat): (r: seq<seq<Tile>>)
    requires p < |ss|
    ensures |r| == |ss| - 1
  {
    ss[..p] + ss[p + 1..]
  }

  lemma {:induction false} FlatPrefix(ss: seq<seq<Tile>>, k: nat)
    requires k < |ss|
    ensures Flat(ss[..k + 1]) == Flat(ss[..k]) + ss[k]
  {
    assert ss[..k + 1][..k] == ss[..k];
  }

  lemma {:induction false} FlatSplitAt(ss: seq<seq<Tile>>, p: nat)
    requires p < |ss|
    ensures Flat(ss) == Flat(ss[..p]) + ss[p] + Flat(ss[p + 1..])
  {
    assert ss[..p + 1] + ss[p + 1..] == ss;
    FlatAppend(ss[..p + 1], ss[p + 1..]);
    FlatPrefix(ss, p);
  }

  /** Removing one stack takes exactly its tiles out of the list. */
  lemma {:induction false} FlatRemoveAt(ss: seq<seq<Tile>>, p: nat)
    requires p < |ss|
    ensures multiset(Flat(RemoveAt(ss, p))) + multiset(ss[p]) == multiset(Flat(ss))
  {
    FlatSplitAt(ss, p);
    FlatAppend(ss[..p], ss[p + 1..]);
  }

  /** Four walls, each a list of two-tile stacks. */
  predicate WallsShape(walls: seq<seq<seq<Tile>>>)
  {
    |walls| == 4 && forall i :: 0 <= i < 4 ==> Pairs(walls[i])
  }

  /** All tiles still standing in the four walls, wall by wall. */
  function WallTiles(walls: seq<seq<seq<Tile>>>): seq<Tile>
    requires |walls| == 4
  {
    Flat(walls[0]) + Flat(walls[1]) + Flat(walls[2]) + Flat(walls[3])
  }

  /** Number of stacks still standing. */
  function StackCount(walls: seq<seq<seq<Tile>>>): nat
    requires |walls| == 4
  {
    |walls[0]| + |walls[1]| + |walls[2]| + |walls[3]|
  }

  /** The tiles of the four walls as a bag. */
  function WallBag(walls: seq<seq<seq<Tile>>>): multiset<Tile>
    requires |walls| == 4
  {
    multiset(Flat(walls[0])) + multiset(Flat(walls[1])) + multiset(Flat(walls[2])) + multiset(Flat(walls[3]))
  }

  lemma {:induction false} WallBagTiles(walls: seq<seq<seq<Tile>>>)
    requires |walls| == 4
    ensures multiset(WallTiles(walls)) == WallBag(walls)
  {
  }

  lemma {:induction false} WallTilesLength(walls: seq<seq<seq<Tile>>>)
    requires WallsShape(walls)
    ensures |WallTiles(walls)| == 2 * StackCount(walls)
  {
    FlatLength(walls[0]);
    FlatLength(walls[1]);
    FlatLength(walls[2]);
    FlatLength(walls[3]);
  }

  /** Replacing one of four bags `b + c` by `b` takes `c` out of their sum. */
  lemma {:induction false} BagSumUpdate(a0: multiset<Tile>, a1: multiset<Tile>, a2: multiset<Tile>, a3: multiset<Tile>,
                     w: int, b: multiset<Tile>, c: multiset<Tile>)
    requires 0 <= w < 4 && b + c == [a0, a1, a2, a3][w]
    ensures (if w == 0 then b else a0) + (if w == 1 then b else a1) + (if w == 2 then b else a2)
            + (if w == 3 then b else a3) + c == a0 + a1 + a2 + a3
  {
  }

  /** Taking stack `p` out of wall `w` takes exactly its tiles out of the walls. */
  lemma {:induction false} WallBagRemoveAt(walls: seq<seq<seq<Tile>>>, w: nat, p: nat)
    requires |walls| == 4 && w < 4 && p < |walls[w]|
    ensures WallBag(walls[w := RemoveAt(walls[w], p)]) + multiset(walls[w][p]) == WallBag(walls)
  {
    FlatRemoveAt(walls[w], p);
    var v := walls[w := RemoveAt(walls[w], p)];
    BagSumUpdate(multiset(Flat(walls[0])), multiset(Flat(walls[1])), multiset(Flat(walls[2])),
                 multiset(Flat(walls[3])), w, multiset(Flat(v[w])), multiset(walls[w][p]));
    assert forall i :: 0 <= i < 4 ==> v[i] == if i == w then v[w] else walls[i];
  }

  /** The four walls are full: 17 two-tile stacks each. */
  predicate FullWalls(walls: seq<seq<seq<Tile>>>)
  {
    WallsShape(walls) && forall i :: 0 <= i < 4 ==> |walls[i]| == 17
  }

  /** Taking `k` tiles from the front of the suffix at `a`. */
  lemma {:induction false} SuffixSlices(w0: seq<Tile>, a: nat, k: nat)
    requires a + k <= |w0|
    ensures w0[a..][..k] == w0[a..a + k] && w0[a..][k..] == w0[a + k..]
  {
  }

  lemma {:induction false} PrefixGrows(w0: seq<Tile>, a: nat, k: nat)
    requires a + k <= |w0|
    ensures w0[..a] + w0[a..a + k] == w0[..a + k]
  {
  }

  /** One wall: a 34-tile section cut into 17 stacks of 2 from the front. */
  method CutStacks(section0: seq<Tile>) returns (stacks: seq<seq<Tile>>)
    requires |section0| == 34
    ensures |stacks| == 17 && Pairs(stacks)
    ensures forall j :: 0 <= j < 17 ==> stacks[j] == section0[2 * j .. 2 * j + 2]
    ensures Flat(stacks) == section0
  {
    var section := section0;
    stacks := [];
    for j := 0 to 17
      invariant |stacks| == j && section == section0[2 * j..]
      invariant forall b :: 0 <= b < j ==> stacks[b] == section0[2 * b .. 2 * b + 2]
      invariant Flat(stacks) == section0[..2 * j]
    {
      SuffixSlices(section0, 2 * j, 2);
      PrefixGrows(section0, 2 * j, 2);
      var stack := section[..2];
      section := section[2..];
      FlatSnoc(stacks, stack);
      stacks := stacks + [stack];
    }
  }

  /**
   * The split of the shuffled wall: four sections of 34 tiles in order, each
   * cut into stacks by `CutStacks`.
   */
  method SplitWalls(wall0: seq<Tile>) returns (walls: seq<seq<seq<Tile>>>)
    requires |wall0| == 136
    ensures FullWalls(walls)
    ensures forall i :: 0 <= i < 4 ==> Flat(walls[i]) == wall0[34 * i .. 34 * i + 34]
    ensures WallTiles(walls) == wall0
  {
    var wall := wall0;
    walls := [];
    for i := 0 to 4
      invariant |walls| == i && wall == wall0[34 * i..]
      invariant forall a :: 0 <= a < i ==> |walls[a]| == 17 && Pairs(walls[a])
      invariant forall a :: 0 <= a < i ==> Flat(walls[a]) == wall0[34 * a .. 34 * a + 34]
    {
      var stacks := CutStacks(wall[..34]);
      wall := wall[34..];
      walls := walls + [stacks];
    }
    assert wall0 == wall0[0..34] + wall0[34..68] + wall0[68..102] + wall0[102..136];
  }

  // ---------------------------------------------------------------------
  // Dice and the dead wall
  // ---------------------------------------------------------------------

  /** `Math.floor(rng() * 6) + 1`. */
  function Die(r: real): (d: int)
    requires 0.0 <= r < 1.0
    ensures 1 <= d <= 6
  {
    ScaledFloor(r, 6) + 1
  }

  /** `((nDice % 4) + 3) % 4`: the wall of the seat `nDice` counts reach, the dealer counting as one. */
  function StartingWallIndex(nDice: int): (w: int)
    requires 2 <= nDice <= 12
    ensures 0 <= w < 4 && w == (nDice - 1) % 4
  {
    ((nDice % 4) + 3) % 4
  }

  /** How many of the seven dead-wall stacks come from the starting wall. */
  function FromStart(brk: int, taken: int): int
  {
    if taken < 17 - brk then taken else 17 - brk
  }

  /** Dead-wall stack `k`: the stacks after the break, running on into the next wall. */
  function DeadStack(walls0: seq<seq<seq<Tile>>>, start: int, brk: int, k: int): seq<Tile>
    requires FullWalls(walls0) && 0 <= start < 4 && 5 <= brk <= 15 && 0 <= k < 7
  {
    if k < 17 - brk then walls0[start][brk + k] else walls0[(start + 1) % 4][k - (17 - brk)]
  }

  /** The first `taken` dead-wall stacks. */
  function DeadStacks(walls0: seq<seq<seq<Tile>>>, start: int, brk: int, taken: nat): seq<seq<Tile>>
    requires FullWalls(walls0) && 0 <= start < 4 && 5 <= brk <= 15 && taken <= 7
  {
    if taken == 0 then [] else DeadStacks(walls0, start, brk, taken - 1) + [DeadStack(walls0, start, brk, taken - 1)]
  }

  lemma {:induction false} DeadStacksIndex(walls0: seq<seq<seq<Tile>>>, start: int, brk: int, taken: nat)
    requires FullWalls(walls0) && 0 <= start < 4 && 5 <= brk <= 15 && taken <= 7
    ensures |DeadStacks(walls0, start, brk, taken)| == taken
    ensures forall k :: 0 <= k < taken ==> DeadStacks(walls0, start, brk, taken)[k] == DeadStack(walls0, start, brk, k)
    ensures Pairs(DeadStacks(walls0, start, brk, taken))
  {
    if taken > 0 {
      DeadStacksIndex(walls0, start, brk, taken - 1);
    }
  }

  /**
   * Wall `q` once the first `taken` dead-wall stacks are lifted out: the
   * starting wall loses the stacks from the break on, the next wall the
   * stacks at its front, the other two walls nothing.
   */
  function LeftWall(walls0: seq<seq<seq<Tile>>>, start: int, brk: int, taken: nat, q: int): seq<seq<Tile>>
    requires FullWalls(walls0) && 0 <= start < 4 && 5 <= brk <= 15 && taken <= 7 && 0 <= q < 4
  {
    var s := FromStart(brk, taken);
    if q == start then walls0[start][..brk] + walls0[start][brk + s..]
    else if q == (start + 1) % 4 then walls0[q][taken - s..]
    else walls0[q]
  }

  ghost predicate WallsLeft(walls0: seq<seq<seq<Tile>>>, start: int, brk: int, taken: nat, ws: seq<seq<seq<Tile>>>)
    requires FullWalls(walls0) && 0 <= start < 4 && 5 <= brk <= 15 && taken <= 7
  {
    |ws| == 4 && forall q :: 0 <= q < 4 ==> ws[q] == LeftWall(walls0, start, brk, taken, q)
  }

  /** Where the `taken`-th dead-wall stack is lifted from: a wall and a stack index. */
  function DeadWallIndex(start: int, brk: int, taken: int): int
  {
    if taken >= 17 - brk then (start + 1) % 4 else start
  }

  function DeadPairIndex(brk: int, taken: int): int
  {
    if taken >= 17 - brk then 0 else brk
  }

  /** The walls and the dead wall after `taken` turns of the dead-wall loop, turn by turn. */
  function Lifted(walls0: seq<seq<seq<Tile>>>, start: int, brk: int, taken: nat): (r: (seq<seq<seq<Tile>>>, seq<seq<Tile>>))
    requires FullWalls(walls0) && 0 <= start < 4 && 5 <= brk <= 15 && taken <= 7
    ensures |r.0| == 4
  {
    if taken == 0 then (walls0, [])
    else
      var prev := Lifted(walls0, start, brk, taken - 1);
      var ws, w, p := prev.0, DeadWallIndex(start, brk, taken - 1), DeadPairIndex(brk, taken - 1);
      if p < |ws[w]| then (ws[w := RemoveAt(ws[w], p)], prev.1 + [ws[w][p]]) else prev
  }

  lemma {:induction false} RemoveAfterBreak(x: seq<seq<Tile>>, b: nat, k: nat)
    requires b + k < |x|
    ensures (x[..b] + x[b + k..])[b] == x[b + k]
    ensures RemoveAt(x[..b] + x[b + k..], b) == x[..b] + x[b + k + 1..]
  {
    var y := x[..b] + x[b + k..];
    assert y[..b] == x[..b];
    assert y[b + 1..] == x[b + k + 1..];
  }

  lemma {:induction false} RemoveFront(x: seq<seq<Tile>>, k: nat)
    requires k < |x|
    ensures x[k..][0] == x[k]
    ensures RemoveAt(x[k..], 0) == x[k + 1..]
  {
  }

  /** Before the loop nothing has been lifted out. */
  lemma {:induction false} WallsLeftStart(walls0: seq<seq<seq<Tile>>>, start: int, brk: int)
    requires FullWalls(walls0) && 0 <= start < 4 && 5 <= brk <= 15
    ensures WallsLeft(walls0, start, brk, 0, walls0)
  {
    assert walls0[start][..brk] + walls0[start][brk..] == walls0[start];
    assert walls0[(start + 1) % 4][0..] == walls0[(start + 1) % 4];
  }

  /**
   * One turn on a single wall: the current position is in range and holds
   * the next dead-wall stack, the wall it is lifted from loses exactly that
   * stack, and every other wall stays as it was.
   */
  lemma {:induction false} LeftWallStep(walls0: seq<seq<seq<Tile>>>, start: int, brk: int, i: nat, q: int)
    requires FullWalls(walls0) && 0 <= start < 4 && 5 <= brk <= 15 && i < 7 && 0 <= q < 4
    ensures var w, p := DeadWallIndex(start, brk, i), DeadPairIndex(brk, i);
            && 0 <= p < |LeftWall(walls0, start, brk, i, w)|
            && LeftWall(walls0, start, brk, i, w)[p] == DeadStack(walls0, start, brk, i)
            && LeftWall(walls0, start, brk, i + 1, q)
               == if q == w then RemoveAt(LeftWall(walls0, start, brk, i, w), p) else LeftWall(walls0, start, brk, i, q)
  {
    var n := (start + 1) % 4;
    if i < 17 - brk {
      RemoveAfterBreak(walls0[start], brk, i);
    } else {
      RemoveFront(walls0[n], i - (17 - brk));
    }
  }

  /**
   * One turn of the dead-wall loop on the walls that are left: the current
   * position is in range, holds the next dead-wall stack, and removing it
   * leaves the walls of the next turn.
   */
  lemma {:induction false} WallsLeftStep(walls0: seq<seq<seq<Tile>>>, start: int, brk: int, i: nat, ws: seq<seq<seq<Tile>>>)
    requires FullWalls(walls0) && 0 <= start < 4 && 5 <= brk <= 15 && i < 7
    requires WallsLeft(walls0, start, brk, i, ws)
    ensures var w, p := DeadWallIndex(start, brk, i), DeadPairIndex(brk, i);
            && 0 <= p < |ws[w]|
            && ws[w][p] == DeadStack(walls0, start, brk, i)
            && WallsLeft(walls0, start, brk, i + 1, ws[w := RemoveAt(ws[w], p)])
  {
    var w, p := DeadWallIndex(start, brk, i), DeadPairIndex(brk, i);
    LeftWallStep(walls0, start, brk, i, w);
    var v := ws[w := RemoveAt(ws[w], p)];
    forall q | 0 <= q < 4
      ensures v[q] == LeftWall(walls0, start, brk, i + 1, q)
    {
      LeftWallStep(walls0, start, brk, i, q);
    }
  }

  /** Every turn of the loop lifts the stack `DeadStack` names, and the walls left are as `WallsLeft` says. */
  lemma {:induction false} LiftedLeft(walls0: seq<seq<seq<Tile>>>, start: int, brk: int, taken: nat)
    requires FullWalls(walls0) && 0 <= start < 4 && 5 <= brk <= 15 && taken <= 7
    ensures WallsLeft(walls0, start, brk, taken, Lifted(walls0, start, brk, taken).0)
    ensures Lifted(walls0, start, brk, taken).1 == DeadStacks(walls0, start, brk, taken)
  {
    if taken == 0 {
      WallsLeftStart(walls0, start, brk);
    } else {
      LiftedLeft(walls0, start, brk, taken - 1);
      WallsLeftStep(walls0, start, brk, taken - 1, Lifted(walls0, start, brk, taken - 1).0);
    }
  }

  /** Where the loop goes next, and which wall the last lifted stack came from. */
  lemma {:induction false} DeadWallMove(walls0: seq<seq<seq<Tile>>>, start: int, brk: int, i: nat, ws: seq<seq<seq<Tile>>>)
    requires FullWalls(walls0) && 0 <= start < 4 && 5 <= brk <= 15 && i < 7
    requires WallsLeft(walls0, start, brk, i + 1, ws)
    ensures var w, p := DeadWallIndex(start, brk, i), DeadPairIndex(brk, i);
            && DeadWallIndex(start, brk, i + 1) == (if p >= |ws[w]| then (w + 1) % 4 else w)
            && DeadPairIndex(brk, i + 1) == (if p >= |ws[w]| then 0 else p)
            && (if i + 1 > 17 - brk then (start + 1) % 4 else start) == w
  {
    var w := DeadWallIndex(start, brk, i);
    assert ws[w] == LeftWall(walls0, start, brk, i + 1, w);
  }

  /** The length of each wall left, and that it still holds stacks of two. */
  lemma {:induction false} LeftWallShape(walls0: seq<seq<seq<Tile>>>, start: int, brk: int, taken: nat, q: int)
    requires FullWalls(walls0) && 0 <= start < 4 && 5 <= brk <= 15 && taken <= 7 && 0 <= q < 4
    ensures Pairs(LeftWall(walls0, start, brk, taken, q))
    ensures |LeftWall(walls0, start, brk, taken, q)|
            == if q == start then 17 - FromStart(brk, taken)
               else if q == (start + 1) % 4 then 17 - taken + FromStart(brk, taken)
               else 17
  {
    assert Pairs(walls0[q]);
  }

  /** After seven stacks: the counts the rest of the set-up relies on. */
  lemma {:induction false} WallsLeftShape(walls0: seq<seq<seq<Tile>>>, start: int, brk: int, ws: seq<seq<seq<Tile>>>)
    requires FullWalls(walls0) && 0 <= start < 4 && 5 <= brk <= 15
    requires WallsLeft(walls0, start, brk, 7, ws)
    ensures |ws[if 7 > 17 - brk then (start + 1) % 4 else start]| == if brk <= 10 then 10 else 27 - brk
    ensures WallsShape(ws) && StackCount(ws) == 61 && brk <= |ws[start]|
  {
    forall q | 0 <= q < 4
      ensures Pairs(ws[q])
      ensures |ws[q]| == if q == start then 17 - FromStart(brk, 7)
                         else if q == (start + 1) % 4 then 10 + FromStart(brk, 7)
                         else 17
    {
      LeftWallShape(walls0, start, brk, 7, q);
    }
  }

  lemma {:induction false} FlatSnoc(ss: seq<seq<Tile>>, x: seq<Tile>)
    ensures Flat(ss + [x]) == Flat(ss) + x
  {
    assert (ss + [x])[..|ss|] == ss;
  }

  /** Moving one stack from the walls to the end of the dead wall keeps the tiles of both together. */
  lemma {:induction false} BagStep(ws: seq<seq<seq<Tile>>>, dead: seq<seq<Tile>>, w: int, p: int, total: multiset<Tile>)
    requires |ws| == 4 && 0 <= w < 4 && 0 <= p < |ws[w]|
    requires WallBag(ws) + multiset(Flat(dead)) == total
    ensures WallBag(ws[w := RemoveAt(ws[w], p)]) + multiset(Flat(dead + [ws[w][p]])) == total
  {
    WallBagRemoveAt(ws, w, p);
    FlatSnoc(dead, ws[w][p]);
  }

  /** Lifting out dead-wall stacks moves their tiles from the walls to the dead wall. */
  lemma {:induction false} LiftedBag(walls0: seq<seq<seq<Tile>>>, start: int, brk: int, taken: nat)
    requires FullWalls(walls0) && 0 <= start < 4 && 5 <= brk <= 15 && taken <= 7
    ensures WallBag(Lifted(walls0, start, brk, taken).0) + multiset(Flat(Lifted(walls0, start, brk, taken).1))
            == WallBag(walls0)
  {
    if taken > 0 {
      LiftedBag(walls0, start, brk, taken - 1);
      var prev := Lifted(walls0, start, brk, taken - 1);
      var w, p := DeadWallIndex(start, brk, taken - 1), DeadPairIndex(brk, taken - 1);
      if p < |prev.0[w]| {
        BagStep(prev.0, prev.1, w, p, WallBag(walls0));
      }
    } else {
      assert Flat([]) == [];
    }
  }

  /** One turn of the dead-wall loop, as the loop sees it. */
  lemma {:induction false} LiftedStep(walls0: seq<seq<seq<Tile>>>, start: int, brk: int, i: nat)
    requires FullWalls(walls0) && 0 <= start < 4 && 5 <= brk <= 15 && i < 7
    ensures var ws, dw := Lifted(walls0, start, brk, i).0, Lifted(walls0, start, brk, i).1;
            var w, p := DeadWallIndex(start, brk, i), DeadPairIndex(brk, i);
            && 0 <= p < |ws[w]|
            && Lifted(walls0, start, brk, i + 1) == (ws[w := RemoveAt(ws[w], p)], dw + [ws[w][p]])
            && DeadWallIndex(start, brk, i + 1) == (if p >= |ws[w]| - 1 then (w + 1) % 4 else w)
            && DeadPairIndex(brk, i + 1) == (if p >= |ws[w]| - 1 then 0 else p)
            && (if i + 1 > 17 - brk then (start + 1) % 4 else start) == w
  {
    LiftedLeft(walls0, start, brk, i);
    var ws := Lifted(walls0, start, brk, i).0;
    WallsLeftStep(walls0, start, brk, i, ws);
    var w, p := DeadWallIndex(start, brk, i), DeadPairIndex(brk, i);
    DeadWallMove(walls0, start, brk, i, ws[w := RemoveAt(ws[w], p)]);
  }

  /** What seven turns leave: the facts `CollectDeadWall` promises. */
  lemma {:induction false} LiftedSeven(walls0: seq<seq<seq<Tile>>>, start: int, brk: int)
    requires FullWalls(walls0) && 0 <= start < 4 && 5 <= brk <= 15
    ensures var ws, dw := Lifted(walls0, start, brk, 7).0, Lifted(walls0, start, brk, 7).1;
            && WallsLeft(walls0, start, brk, 7, ws)
            && |dw| == 7 && (forall k :: 0 <= k < 7 ==> dw[k] == DeadStack(walls0, start, brk, k))
            && |ws[if 7 > 17 - brk then (start + 1) % 4 else start]| == (if brk <= 10 then 10 else 27 - brk)
            && WallsShape(ws) && StackCount(ws) == 61 && brk <= |ws[start]| && Pairs(dw)
            && WallBag(ws) + multiset(Flat(dw)) == WallBag(walls0)
  {
    LiftedLeft(walls0, start, brk, 7);
    LiftedBag(walls0, start, brk, 7);
    WallsLeftShape(walls0, start, brk, Lifted(walls0, start, brk, 7).0);
    DeadStacksIndex(walls0, start, brk, 7);
  }

  /**
   * The dead-wall loop: seven stacks lifted out at the break (`splice` at
   * `currentPairIndex`), moving to the start of the next wall once the index
   * runs past the end of the current one. Every removal is in range, so the
   * two `throw`s of the loop are never reached. `liveWallCut` is the number of
   * stacks left in the wall the last stack came from.
   */
  method CollectDeadWall(walls0: seq<seq<seq<Tile>>>, start: int, brk: int)
    returns (walls: seq<seq<seq<Tile>>>, deadWall: seq<seq<Tile>>, liveWallCut: int)
    requires FullWalls(walls0) && 0 <= start < 4 && 5 <= brk <= 15
    ensures WallsLeft(walls0, start, brk, 7, walls)
    ensures |deadWall| == 7 && forall k :: 0 <= k < 7 ==> deadWall[k] == DeadStack(walls0, start, brk, k)
    ensures liveWallCut == if brk <= 10 then 10 else 27 - brk
    ensures WallsShape(walls) && StackCount(walls) == 61 && brk <= |walls[start]| && Pairs(deadWall)
    ensures WallBag(walls) + multiset(Flat(deadWall)) == WallBag(walls0)
  {
    walls := walls0;
    deadWall := [];
    var currentWallIndex := start;
    var currentPairIndex := brk;
    var lastWallIndexUsed := currentWallIndex;
    for i := 0 to 7
      invariant walls == Lifted(walls0, start, brk, i).0
      invariant deadWall == Lifted(walls0, start, brk, i).1
      invariant currentWallIndex == DeadWallIndex(start, brk, i)
      invariant currentPairIndex == DeadPairIndex(brk, i)
      invariant lastWallIndexUsed == (if i > 17 - brk then (start + 1) % 4 else start)
    {
      LiftedStep(walls0, start, brk, i);
      var pair := walls[currentWallIndex][currentPairIndex];
      walls := walls[currentWallIndex := RemoveAt(walls[currentWallIndex], currentPairIndex)];
      deadWall := deadWall + [pair];
      lastWallIndexUsed := currentWallIndex;
      if currentPairIndex >= |walls[currentWallIndex]| {
        currentWallIndex := (currentWallIndex + 1) % 4;
        currentPairIndex := 0;
      }
    }
    LiftedSeven(walls0, start, brk);
    liveWallCut := |walls[lastWallIndexUsed]|;
  }

  // ---------------------------------------------------------------------
  // Reserves taken from the dead wall
  // ---------------------------------------------------------------------

  /** The kan replacement tiles, the dora and the ura-dora of the dead wall. */
  datatype Reserves = Reserves(kan: seq<Tile>, dora: seq<Tile>, uradora: seq<Tile>)

  /**
   * Kan tiles come from the first two stacks, the second stack first and each
   * stack's upper tile first; dora are the upper tiles and ura-dora the lower
   * tiles of stacks 2 to 6.
   */
  function SplitDeadWall(dw: seq<seq<Tile>>): (r: Reserves)
    requires |dw| == 7 && Pairs(dw)
    ensures |r.kan| == 4 && |r.dora| == 5 && |r.uradora| == 5
  {
    Reserves([dw[1][1], dw[1][0], dw[0][1], dw[0][0]],
             [dw[2][0], dw[3][0], dw[4][0], dw[5][0], dw[6][0]],
             [dw[2][1], dw[3][1], dw[4][1], dw[5][1], dw[6][1]])
  }

  /** The tiles of seven stacks as a bag, stack by stack. */
  lemma {:induction false} FlatSevenBag(dw: seq<seq<Tile>>)
    requires |dw| == 7
    ensures multiset(Flat(dw)) == multiset(dw[0]) + multiset(dw[1]) + multiset(dw[2]) + multiset(dw[3])
                                  + multiset(dw[4]) + multiset(dw[5]) + multiset(dw[6])
  {
    assert dw[..0] == [];
    FlatPrefix(dw, 0);
    FlatPrefix(dw, 1);
    FlatPrefix(dw, 2);
    FlatPrefix(dw, 3);
    FlatPrefix(dw, 4);
    FlatPrefix(dw, 5);
    FlatPrefix(dw, 6);
    assert dw[..7] == dw;
  }

  /** The regrouping behind `SplitDeadWallPermutes`, on bags. */
  lemma {:induction false} RegroupReserves(u0: multiset<Tile>, u1: multiset<Tile>, u2: multiset<Tile>, u3: multiset<Tile>,
                        u4: multiset<Tile>, u5: multiset<Tile>, u6: multiset<Tile>,
                        l0: multiset<Tile>, l1: multiset<Tile>, l2: multiset<Tile>, l3: multiset<Tile>,
                        l4: multiset<Tile>, l5: multiset<Tile>, l6: multiset<Tile>)
    ensures (l1 + u1 + l0 + u0) + (u2 + u3 + u4 + u5 + u6) + (l2 + l3 + l4 + l5 + l6)
            == (u0 + l0) + (u1 + l1) + (u2 + l2) + (u3 + l3) + (u4 + l4) + (u5 + l5) + (u6 + l6)
  {
  }

  /** A stack's tiles as a bag: its upper tile and its lower tile. */
  lemma {:induction false} StackBag(st: seq<Tile>)
    requires |st| == 2
    ensures multiset(st) == multiset{st[0]} + multiset{st[1]}
  {
    assert st == [st[0]] + [st[1]];
  }

  lemma {:induction false} BagOfFour(a: Tile, b: Tile, c: Tile, d: Tile)
    ensures multiset([a, b, c, d]) == multiset{a} + multiset{b} + multiset{c} + multiset{d}
  {
    assert [a, b, c, d] == [a, b, c] + [d];
    assert [a, b, c] == [a, b] + [c];
    assert [a, b] == [a] + [b];
  }

  lemma {:induction false} BagOfFive(a: Tile, b: Tile, c: Tile, d: Tile, e: Tile)
    ensures multiset([a, b, c, d, e]) == multiset{a} + multiset{b} + multiset{c} + multiset{d} + multiset{e}
  {
    assert [a, b, c, d, e] == [a, b, c, d] + [e];
    assert [a, b, c, d] == [a, b, c] + [d];
    assert [a, b, c] == [a, b] + [c];
    assert [a, b] == [a] + [b];
  }

  lemma {:induction false} ReserveBags(dw: seq<seq<Tile>>)
    requires |dw| == 7 && Pairs(dw)
    ensures var r := SplitDeadWall(dw);
            && multiset(r.kan) == multiset{dw[1][1]} + multiset{dw[1][0]} + multiset{dw[0][1]} + multiset{dw[0][0]}
            && multiset(r.dora) == multiset{dw[2][0]} + multiset{dw[3][0]} + multiset{dw[4][0]} + multiset{dw[5][0]} + multiset{dw[6][0]}
            && multiset(r.uradora) == multiset{dw[2][1]} + multiset{dw[3][1]} + multiset{dw[4][1]} + multiset{dw[5][1]} + multiset{dw[6][1]}
  {
    BagOfFour(dw[1][1], dw[1][0], dw[0][1], dw[0][0]);
    BagOfFive(dw[2][0], dw[3][0], dw[4][0], dw[5][0], dw[6][0]);
    BagOfFive(dw[2][1], dw[3][1], dw[4][1], dw[5][1], dw[6][1]);
  }

  /** The reserves hold exactly the fourteen tiles of the dead wall. */
  lemma {:induction false} SplitDeadWallPermutes(dw: seq<seq<Tile>>)
    requires |dw| == 7 && Pairs(dw)
    ensures var r := SplitDeadWall(dw);
            multiset(r.kan + r.dora + r.uradora) == multiset(Flat(dw))
  {
    FlatSevenBag(dw);
    ReserveBags(dw);
    StackBag(dw[0]);
    StackBag(dw[1]);
    StackBag(dw[2]);
    StackBag(dw[3]);
    StackBag(dw[4]);
    StackBag(dw[5]);
    StackBag(dw[6]);
    RegroupReserves(multiset{dw[0][0]}, multiset{dw[1][0]}, multiset{dw[2][0]}, multiset{dw[3][0]},
                    multiset{dw[4][0]}, multiset{dw[5][0]}, multiset{dw[6][0]},
                    multiset{dw[0][1]}, multiset{dw[1][1]}, multiset{dw[2][1]}, multiset{dw[3][1]},
                    multiset{dw[4][1]}, multiset{dw[5][1]}, multiset{dw[6][1]});
  }

  // ---------------------------------------------------------------------
  // Unwinding the walls into the live wall
  // ---------------------------------------------------------------------

  predicate AllEmpty(walls: seq<seq<seq<Tile>>>)
    requires |walls| == 4
  {
    forall i :: 0 <= i < 4 ==> |walls[i]| == 0
  }

  /** `(w - 1 + 4) % 4`: the wall before `w`. */
  function PrevWall(w: int): int
  {
    (w - 1 + 4) % 4
  }

  /** How many steps back from wall `w` the nearest non-empty wall is. */
  function StepsBack(walls: seq<seq<seq<Tile>>>, w: int): nat
    requires |walls| == 4 && 0 <= w < 4
  {
    if |walls[w]| > 0 then 0
    else if |walls[PrevWall(w)]| > 0 then 1
    else if |walls[PrevWall(PrevWall(w))]| > 0 then 2
    else 3
  }

  /**
   * Stepping back from an empty wall comes one step closer to a non-empty
   * one; this is why the inner `while` loops of the unwinding end.
   */
  lemma {:induction false} StepsBackDecreases(walls: seq<seq<seq<Tile>>>, w: int)
    requires |walls| == 4 && 0 <= w < 4 && |walls[w]| == 0 && !AllEmpty(walls)
    ensures StepsBack(walls, PrevWall(w)) < StepsBack(walls, w)
  {
    assert PrevWall(PrevWall(PrevWall(PrevWall(w)))) == w;
  }

  /**
   * The inner `while` of the unwinding: step back from wall `w` until a wall
   * with stacks is found, stopping early only if every wall is empty.
   */
  method SeekNonEmpty(walls: seq<seq<seq<Tile>>>, w: int) returns (cw: int)
    requires |walls| == 4 && 0 <= w < 4 && !AllEmpty(walls)
    ensures 0 <= cw < 4 && |walls[cw]| > 0
    ensures |walls[w]| > 0 ==> cw == w
  {
    cw := w;
    while |walls[cw]| == 0
      invariant 0 <= cw < 4 && (|walls[w]| > 0 ==> cw == w)
      decreases StepsBack(walls, cw)
    {
      StepsBackDecreases(walls, cw);
      cw := PrevWall(cw);
      if AllEmpty(walls) {
        break;
      }
    }
  }

  /** Taking one stack out keeps every stack a pair and leaves one stack fewer. */
  lemma {:induction false} RemoveAtShape(walls: seq<seq<seq<Tile>>>, w: int, p: int)
    requires WallsShape(walls) && 0 <= w < 4 && 0 <= p < |walls[w]|
    ensures WallsShape(walls[w := RemoveAt(walls[w], p)])
    ensures StackCount(walls[w := RemoveAt(walls[w], p)]) == StackCount(walls) - 1
  {
    var v := walls[w := RemoveAt(walls[w], p)];
    assert forall i :: 0 <= i < 4 ==> v[i] == if i == w then RemoveAt(walls[w], p) else walls[i];
  }

  /**
   * One stack taken in the unwinding: its two tiles go to the front of the
   * live wall, lower tile first, and the stack leaves its wall; no tile is
   * lost or gained.
   */
  method TakeStack(walls0: seq<seq<seq<Tile>>>, wall0: seq<Tile>, w: int, p: int)
    returns (walls: seq<seq<seq<Tile>>>, wall: seq<Tile>)
    requires WallsShape(walls0) && 0 <= w < 4 && 0 <= p < |walls0[w]|
    ensures walls == walls0[w := RemoveAt(walls0[w], p)]
    ensures wall == [walls0[w][p][1], walls0[w][p][0]] + wall0
    ensures WallsShape(walls) && StackCount(walls) == StackCount(walls0) - 1
    ensures multiset(wall) + WallBag(walls) == multiset(wall0) + WallBag(walls0)
  {
    var pair := walls0[w][p];
    wall := wall0;
    walls := walls0;
    if |pair| == 2 {
      wall := [pair[1], pair[0]] + wall;
    }
    if |pair| == 2 {
      walls := walls[w := RemoveAt(walls[w], p)];
    }
    WallBagRemoveAt(walls0, w, p);
    StackBag(pair);
    StackBag([pair[1], pair[0]]);
    RemoveAtShape(walls0, w, p);
  }

  /**
   * The unwinding loop: from the stack before the break, stacks are taken
   * backwards round the walls, each stack put at the front of the live wall
   * with its lower tile first, until every wall is empty. Each turn removes
   * one stack, so the loop ends; the live wall holds exactly the tiles that
   * stood in the walls.
   */
  method Unwind(walls0: seq<seq<seq<Tile>>>, start: int, brk: int) returns (wall: seq<Tile>)
    requires WallsShape(walls0) && 0 <= start < 4 && 0 <= brk <= |walls0[start]|
    ensures multiset(wall) == WallBag(walls0)
    ensures |wall| == 2 * StackCount(walls0)
  {
    var walls := walls0;
    wall := [];
    var currentWallIndex := start;
    var currentPairIndex := brk - 1;
    if currentPairIndex < 0 {
      currentWallIndex := PrevWall(currentWallIndex);
      currentPairIndex := |walls[currentWallIndex]| - 1;
    }
    while true
      invariant WallsShape(walls)
      invariant 0 <= currentWallIndex < 4 && -1 <= currentPairIndex
      invariant currentPairIndex >= 0 ==> currentPairIndex < |walls[currentWallIndex]|
      invariant multiset(wall) + WallBag(walls) == WallBag(walls0)
      invariant |wall| + 2 * StackCount(walls) == 2 * StackCount(walls0)
      decreases StackCount(walls)
    {
      if AllEmpty(walls) {
        break;
      }
      currentWallIndex := SeekNonEmpty(walls, currentWallIndex);
      if currentPairIndex < 0 {
        currentWallIndex := SeekNonEmpty(walls, PrevWall(currentWallIndex));
        currentPairIndex := |walls[currentWallIndex]| - 1;
      }
      walls, wall := TakeStack(walls, wall, currentWallIndex, currentPairIndex);
      currentPairIndex := currentPairIndex - 1;
    }
  }

  // ---------------------------------------------------------------------
  // The deal
  // ---------------------------------------------------------------------

  /** The tiles the first `r` rounds of four give to hand `i`: four tiles per round, hands in turn. */
  function Rounds(wall0: seq<Tile>, i: int, r: nat): (h: seq<Tile>)
    requires 0 <= i < 4 && r <= 3 && |wall0| >= 48
    ensures |h| == 4 * r
  {
    if r == 0 then [] else Rounds(wall0, i, r - 1) + wall0[16 * (r - 1) + 4 * i .. 16 * (r - 1) + 4 * i + 4]
  }

  /** Hand `i` after the deal: three blocks of four, then the tile at `48 + i`. */
  function DealtHand(wall0: seq<Tile>, i: int): (h: seq<Tile>)
    requires 0 <= i < 4 && |wall0| >= 52
    ensures |h| == 13
  {
    Rounds(wall0, i, 3) + [wall0[48 + i]]
  }

  /** The four hands as one bag. */
  function HandsBag(hands: seq<seq<Tile>>): multiset<Tile>
    requires |hands| == 4
  {
    multiset(hands[0]) + multiset(hands[1]) + multiset(hands[2]) + multiset(hands[3])
  }

  /** Splitting a stretch of the wall splits its bag. */
  lemma {:induction false} SliceBag(w0: seq<Tile>, a: nat, b: nat, c: nat)
    requires a <= b <= c <= |w0|
    ensures multiset(w0[a..c]) == multiset(w0[a..b]) + multiset(w0[b..c])
  {
    assert w0[a..c] == w0[a..b] + w0[b..c];
  }

  /** The tiles the first `r` rounds give to all four hands. */
  function RoundsBag(wall0: seq<Tile>, r: nat): multiset<Tile>
    requires r <= 3 && |wall0| >= 48
  {
    multiset(Rounds(wall0, 0, r)) + multiset(Rounds(wall0, 1, r)) + multiset(Rounds(wall0, 2, r))
    + multiset(Rounds(wall0, 3, r))
  }

  /** One round of four blocks takes the next sixteen tiles. */
  lemma {:induction false} RoundBlocks(wall0: seq<Tile>, r: nat)
    requires r < 3 && |wall0| >= 48
    ensures multiset(wall0[16 * r .. 16 * r + 16])
            == multiset(wall0[16 * r .. 16 * r + 4]) + multiset(wall0[16 * r + 4 .. 16 * r + 8])
               + multiset(wall0[16 * r + 8 .. 16 * r + 12]) + multiset(wall0[16 * r + 12 .. 16 * r + 16])
  {
    SliceBag(wall0, 16 * r, 16 * r + 4, 16 * r + 16);
    SliceBag(wall0, 16 * r + 4, 16 * r + 8, 16 * r + 16);
    SliceBag(wall0, 16 * r + 8, 16 * r + 12, 16 * r + 16);
  }

  /** The first `r` rounds deal exactly the first `16 * r` tiles. */
  lemma {:induction false} RoundsBagPrefix(wall0: seq<Tile>, r: nat)
    requires r <= 3 && |wall0| >= 48
    ensures RoundsBag(wall0, r) == multiset(wall0[..16 * r])
  {
    if r > 0 {
      RoundsBagPrefix(wall0, r - 1);
      RoundBlocks(wall0, r - 1);
      SliceBag(wall0, 0, 16 * (r - 1), 16 * r);
      assert wall0[0..16 * r] == wall0[..16 * r] && wall0[0..16 * (r - 1)] == wall0[..16 * (r - 1)];
    }
  }

  lemma {:induction false} DealtHandBag(wall0: seq<Tile>, i: int)
    requires 0 <= i < 4 && |wall0| >= 52
    ensures multiset(DealtHand(wall0, i)) == multiset(Rounds(wall0, i, 3)) + multiset{wall0[48 + i]}
  {
  }

  /** The regrouping behind `DealPermutes`, on bags. */
  lemma {:induction false} RegroupDeal(r0: multiset<Tile>, r1: multiset<Tile>, r2: multiset<Tile>, r3: multiset<Tile>,
                                       s0: multiset<Tile>, s1: multiset<Tile>, s2: multiset<Tile>, s3: multiset<Tile>,
                                       h0: multiset<Tile>, h1: multiset<Tile>, h2: multiset<Tile>, h3: multiset<Tile>,
                                       head: multiset<Tile>, singles: multiset<Tile>, rest: multiset<Tile>, all: multiset<Tile>)
    requires h0 == r0 + s0 && h1 == r1 + s1 && h2 == r2 + s2 && h3 == r3 + s3
    requires r0 + r1 + r2 + r3 == head && singles == s0 + s1 + s2 + s3 && all == head + singles + rest
    ensures h0 + h1 + h2 + h3 + rest == all
  {
  }

  /** The wall as the three rounds, the four single tiles and the rest. */
  lemma {:induction false} DealtParts(wall0: seq<Tile>)
    requires |wall0| >= 52
    ensures multiset(wall0) == multiset(wall0[..48]) + multiset(wall0[48..52]) + multiset(wall0[52..])
    ensures multiset(wall0[48..52]) == multiset{wall0[48]} + multiset{wall0[49]} + multiset{wall0[50]} + multiset{wall0[51]}
  {
    assert wall0 == wall0[..48] + wall0[48..52] + wall0[52..];
    SinglesBag(wall0[48..52]);
  }

  lemma {:induction false} SinglesBag(w: seq<Tile>)
    requires |w| == 4
    ensures multiset(w) == multiset{w[0]} + multiset{w[1]} + multiset{w[2]} + multiset{w[3]}
  {
    assert w == [w[0], w[1], w[2], w[3]];
    BagOfFour(w[0], w[1], w[2], w[3]);
  }

  /** The deal hands out exactly the first 52 tiles: hands and the rest of the wall are the wall. */
  lemma {:induction false} DealPermutes(wall0: seq<Tile>)
    requires |wall0| >= 52
    ensures HandsBag([DealtHand(wall0, 0), DealtHand(wall0, 1), DealtHand(wall0, 2), DealtHand(wall0, 3)])
            + multiset(wall0[52..]) == multiset(wall0)
  {
    RoundsBagPrefix(wall0, 3);
    DealtParts(wall0);
    DealtHandBag(wall0, 0);
    DealtHandBag(wall0, 1);
    DealtHandBag(wall0, 2);
    DealtHandBag(wall0, 3);
    RegroupDeal(multiset(Rounds(wall0, 0, 3)), multiset(Rounds(wall0, 1, 3)), multiset(Rounds(wall0, 2, 3)),
                multiset(Rounds(wall0, 3, 3)),
                multiset{wall0[48]}, multiset{wall0[49]}, multiset{wall0[50]}, multiset{wall0[51]},
                multiset(DealtHand(wall0, 0)), multiset(DealtHand(wall0, 1)), multiset(DealtHand(wall0, 2)),
                multiset(DealtHand(wall0, 3)),
                multiset(wall0[..48]), multiset(wall0[48..52]), multiset(wall0[52..]), multiset(wall0));
  }

  /** Hands after `r` full rounds and `i` hands of the next: the first `i` hands have taken one round more. */
  predicate DealtSoFar(wall0: seq<Tile>, hands: seq<seq<Tile>>, r: nat, i: int)
    requires |wall0| >= 52 && r < 3 && 0 <= i <= 4
  {
    |hands| == 4 && forall j :: 0 <= j < 4 ==> hands[j] == Rounds(wall0, j, if j < i then r + 1 else r)
  }

  lemma {:induction false} DealtSoFarStep(wall0: seq<Tile>, hands: seq<seq<Tile>>, r: nat, i: int)
    requires |wall0| >= 52 && r < 3 && 0 <= i < 4 && DealtSoFar(wall0, hands, r, i)
    ensures DealtSoFar(wall0, hands[i := hands[i] + wall0[16 * r + 4 * i .. 16 * r + 4 * i + 4]], r, i + 1)
  {
    var v := hands[i := hands[i] + wall0[16 * r + 4 * i .. 16 * r + 4 * i + 4]];
    forall j | 0 <= j < 4
      ensures v[j] == Rounds(wall0, j, if j < i + 1 then r + 1 else r)
    {
    }
  }

  /** One round of four: each hand in turn takes the next four tiles from the front of the wall. */
  method DealRound(wall0: seq<Tile>, hands0: seq<seq<Tile>>, wall1: seq<Tile>, r: nat)
    returns (hands: seq<seq<Tile>>, wall: seq<Tile>)
    requires |wall0| >= 52 && r < 3 && wall1 == wall0[16 * r..] && DealtSoFar(wall0, hands0, r, 0)
    ensures wall == wall0[16 * (r + 1)..] && DealtSoFar(wall0, hands, r, 4)
  {
    hands, wall := hands0, wall1;
    for i := 0 to 4
      invariant wall == wall0[16 * r + 4 * i..] && DealtSoFar(wall0, hands, r, i)
    {
      DealtSoFarStep(wall0, hands, r, i);
      SuffixSlices(wall0, 16 * r + 4 * i, 4);
      hands := hands[i := hands[i] + wall[..4]];
      wall := wall[4..];
    }
  }

  /** Hands after the three rounds and the single tiles of the first `i` hands. */
  predicate DealtSingles(wall0: seq<Tile>, hands: seq<seq<Tile>>, i: int)
    requires |wall0| >= 52 && 0 <= i <= 4
  {
    |hands| == 4 && forall j :: 0 <= j < 4 ==> hands[j] == if j < i then DealtHand(wall0, j) else Rounds(wall0, j, 3)
  }

  lemma {:induction false} DealtRounds(wall0: seq<Tile>, hands: seq<seq<Tile>>, r: nat)
    requires |wall0| >= 52 && r < 3 && DealtSoFar(wall0, hands, r, 4)
    ensures r < 2 ==> DealtSoFar(wall0, hands, r + 1, 0)
    ensures r == 2 ==> DealtSingles(wall0, hands, 0)
  {
  }

  lemma {:induction false} DealtSinglesStep(wall0: seq<Tile>, hands: seq<seq<Tile>>, i: int)
    requires |wall0| >= 52 && 0 <= i < 4 && DealtSingles(wall0, hands, i)
    ensures DealtSingles(wall0, hands[i := hands[i] + [wall0[48 + i]]], i + 1)
  {
    var v := hands[i := hands[i] + [wall0[48 + i]]];
    forall j | 0 <= j < 4
      ensures v[j] == if j < i + 1 then DealtHand(wall0, j) else Rounds(wall0, j, 3)
    {
    }
  }

  /** The last step of the deal: one more tile to each hand in turn. */
  method DealSingles(wall0: seq<Tile>, hands0: seq<seq<Tile>>, wall1: seq<Tile>)
    returns (hands: seq<seq<Tile>>, wall: seq<Tile>)
    requires |wall0| >= 52 && wall1 == wall0[48..] && DealtSingles(wall0, hands0, 0)
    ensures wall == wall0[52..] && DealtSingles(wall0, hands, 4)
  {
    hands, wall := hands0, wall1;
    for i := 0 to 4
      invariant wall == wall0[48 + i..] && DealtSingles(wall0, hands, i)
    {
      if |wall| > 0 {
        var tile := wall[0];
        DealtSinglesStep(wall0, hands, i);
        SuffixSlices(wall0, 48 + i, 1);
        assert wall[..1] == [tile];
        hands := hands[i := hands[i] + [tile]];
        wall := wall[1..];
      }
    }
  }

  /**
   * The deal: three rounds of four tiles to each hand in turn, then one more
   * tile each, all from the front of the wall. The `if (tile)` guard of the
   * last step always passes on a wall of 52 tiles or more.
   */
  method Deal(wall0: seq<Tile>) returns (hands: seq<seq<Tile>>, wall: seq<Tile>)
    requires |wall0| >= 52
    ensures |hands| == 4 && forall i :: 0 <= i < 4 ==> hands[i] == DealtHand(wall0, i)
    ensures wall == wall0[52..]
    ensures HandsBag(hands) + multiset(wall) == multiset(wall0)
  {
    var empty: seq<Tile> := [];
    hands := [empty, empty, empty, empty];
    wall := wall0;
    assert DealtSoFar(wall0, hands, 0, 0);
    for r := 0 to 3
      invariant wall == wall0[16 * r..]
      invariant r < 3 ==> DealtSoFar(wall0, hands, r, 0)
      invariant r == 3 ==> DealtSingles(wall0, hands, 0)
      invariant |hands| == 4
    {
      hands, wall := DealRound(wall0, hands, wall, r);
      DealtRounds(wall0, hands, r);
    }
    hands, wall := DealSingles(wall0, hands, wall);
    DealPermutes(wall0);
    assert hands == [DealtHand(wall0, 0), DealtHand(wall0, 1), DealtHand(wall0, 2), DealtHand(wall0, 3)];
  }

  // ---------------------------------------------------------------------
  // The whole round set-up
  // ---------------------------------------------------------------------

  /** The set-up of one round (`InitializedRound` without the seed string). */
  datatype InitializedRound = InitializedRound(
    dice1: int, dice2: int, liveWallCut: int, wall: seq<Tile>,
    wanpaiKan: seq<Tile>, wanpaiDora: seq<Tile>, wanpaiUradora: seq<Tile>, doraIndicator: seq<Tile>,
    eastHand: seq<Tile>, southHand: seq<Tile>, westHand: seq<Tile>, northHand: seq<Tile>)

  /** Every tile the round set-up hands out: live wall, the three reserves, the four hands. */
  function RoundTiles(r: InitializedRound): seq<Tile>
  {
    r.wall + r.wanpaiKan + r.wanpaiDora + r.wanpaiUradora + r.eastHand + r.southHand + r.westHand + r.northHand
  }

  lemma {:induction false} RoundTilesBag(r: InitializedRound, hands: seq<seq<Tile>>)
    requires |hands| == 4 && hands[0] == r.eastHand && hands[1] == r.southHand
    requires hands[2] == r.westHand && hands[3] == r.northHand
    ensures multiset(RoundTiles(r)) == multiset(r.wall) + multiset(r.wanpaiKan + r.wanpaiDora + r.wanpaiUradora)
                                       + HandsBag(hands)
  {
  }

  /** How the bags of the set-up steps add up to the deck. */
  lemma {:induction false} RoundBagChain(walls: multiset<Tile>, rest: multiset<Tile>, reserves: multiset<Tile>,
                                         live: multiset<Tile>, hands: multiset<Tile>, left: multiset<Tile>,
                                         all: multiset<Tile>)
    requires rest + reserves == walls && live == rest
    requires hands + left == live && all == left + reserves + hands
    ensures all == walls
  {
  }

  /** The oracle values a round set-up draws: 135 for the shuffle, then one per die. */
  const RoundDraws := 137

  /** The deck shuffled with the first 135 oracle values and cut into four walls. */
  method ShuffledWalls(red: RedRule, rs: seq<real>) returns (walls: seq<seq<seq<Tile>>>)
    requires UnitValues(rs) && |rs| >= RoundDraws
    ensures FullWalls(walls)
    ensures WallTiles(walls) == FisherYates(Deck(red), Steps(136), SwapIndices(rs, 136))
    ensures WallBag(walls) == multiset(Deck(red))
  {
    var deck := Deck(red);
    var a := new Tile[|deck|](k requires 0 <= k < |deck| => deck[k]);
    assert a[..] == deck;
    var shuffled := Shuffle(a, SwapIndices(rs, 136));
    walls := SplitWalls(shuffled[..]);
    WallBagTiles(walls);
  }

  /**
   * The dead wall for a roll of `nDice`: seven stacks lifted out from the
   * break `17 - nDice` of the starting wall, split into the reserves.
   */
  method LiftDeadWall(walls0: seq<seq<seq<Tile>>>, start: int, nDice: int)
    returns (walls: seq<seq<seq<Tile>>>, reserves: Reserves, liveWallCut: int)
    requires FullWalls(walls0) && 0 <= start < 4 && 2 <= nDice <= 12
    ensures WallsShape(walls) && StackCount(walls) == 61 && 17 - nDice <= |walls[start]|
    ensures liveWallCut == if nDice >= 7 then 10 else 10 + nDice
    ensures |reserves.kan| == 4 && |reserves.dora| == 5 && |reserves.uradora| == 5
    ensures WallBag(walls) + multiset(reserves.kan + reserves.dora + reserves.uradora) == WallBag(walls0)
  {
    var deadWall;
    walls, deadWall, liveWallCut := CollectDeadWall(walls0, start, 17 - nDice);
    reserves := SplitDeadWall(deadWall);
    SplitDeadWallPermutes(deadWall);
  }

  /**
   * `initializeRound`: shuffle the deck, split it into four walls, roll two
   * dice, lift the dead wall out from the break, unwind the rest into the
   * live wall and deal. The live wall keeps 70 tiles, each hand has 13, and
   * live wall, reserves and hands together are exactly the deck, so the
   * 136-tile total the source logs always holds.
   */
  method InitializeRound(red: RedRule, rs: seq<real>) returns (round: InitializedRound)
    requires UnitValues(rs) && |rs| >= RoundDraws
    ensures 1 <= round.dice1 <= 6 && 1 <= round.dice2 <= 6
    ensures round.dice1 == Die(rs[135]) && round.dice2 == Die(rs[136])
    ensures round.liveWallCut == if round.dice1 + round.dice2 >= 7 then 10 else 10 + round.dice1 + round.dice2
    ensures RoundShape(round)
    ensures multiset(RoundTiles(round)) == multiset(Deck(red)) && |RoundTiles(round)| == 136
  {
    var walls := ShuffledWalls(red, rs);
    round := RoundFromWalls(walls, Die(rs[135]), Die(rs[136]));
  }

  /** The sizes the set-up promises: 70 live tiles, 4 + 5 + 5 reserves, four hands of 13. */
  predicate RoundShape(round: InitializedRound)
  {
    && |round.wall| == 70 && |round.wanpaiKan| == 4 && |round.wanpaiDora| == 5 && |round.wanpaiUradora| == 5
    && round.doraIndicator == [round.wanpaiDora[0]]
    && |round.eastHand| == 13 && |round.southHand| == 13 && |round.westHand| == 13 && |round.northHand| == 13
  }

  /** Everything after the shuffle, for a given pair of dice. */
  method RoundFromWalls(walls: seq<seq<seq<Tile>>>, dice1: int, dice2: int) returns (round: InitializedRound)
    requires FullWalls(walls) && 1 <= dice1 <= 6 && 1 <= dice2 <= 6
    ensures round.dice1 == dice1 && round.dice2 == dice2
    ensures round.liveWallCut == if dice1 + dice2 >= 7 then 10 else 10 + dice1 + dice2
    ensures RoundShape(round)
    ensures multiset(RoundTiles(round)) == WallBag(walls) && |RoundTiles(round)| == 136
  {
    var nDice := dice1 + dice2;
    var start := StartingWallIndex(nDice);
    var brk := 17 - nDice;

    var walls1, reserves, liveWallCut := LiftDeadWall(walls, start, nDice);
    var doraIndicator := [reserves.dora[0]];

    var wall := Unwind(walls1, start, brk);
    var hands, rest := Deal(wall);

    round := InitializedRound(dice1, dice2, liveWallCut, rest, reserves.kan, reserves.dora, reserves.uradora,
                              doraIndicator, hands[0], hands[1], hands[2], hands[3]);
    RoundTilesBag(round, hands);
    RoundBagChain(WallBag(walls), WallBag(walls1), multiset(reserves.kan + reserves.dora + reserves.uradora),
                  multiset(wall), HandsBag(hands), multiset(rest), multiset(RoundTiles(round)));
  }

  // ---------------------------------------------------------------------
  // Seats
  // ---------------------------------------------------------------------

  /** `indexOf`: the first position of `w`, or -1. */
  function IndexOf(ws: seq<Wind>, w: Wind): (i: int)
    ensures w in ws ==> 0 <= i < |ws| && ws[i] == w && forall j :: 0 <= j < i ==> ws[j] != w
    ensures w !in ws ==> i == -1
  {
    if ws == [] then -1
    else if ws[0] == w then 0
    else var k := IndexOf(ws[1..], w); if k < 0 then -1 else k + 1
  }

  /** The label of seat position `k` places after the observed player's: own, right, across, left. */
  function LabelAt(k: int): Seat
  {
    match k % 4
    case 0 => Watashi
    case 1 => Shimocha
    case 2 => Toimen
    case _ => Kamicha
  }

  datatype Assignment = Assignment(watashi: seq<Tile>, shimocha: seq<Tile>, toimen: seq<Tile>, kamicha: seq<Tile>,
                                   currentTurn: Seat)

  function HandOf(a: Assignment, s: Seat): seq<Tile>
  {
    match s
    case Watashi => a.watashi
    case Shimocha => a.shimocha
    case Toimen => a.toimen
    case Kamicha => a.kamicha
  }

  /**
   * The hands, listed from east, handed out from position `i` on, and the
   * label `seatMapping` puts at position 0 (east) as the turn.
   */
  function AssignFrom(i: int, hands: seq<seq<Tile>>): (a: Assignment)
    requires 0 <= i < 4 && |hands| == 4
    ensures a.watashi == hands[i] && a.shimocha == hands[(i + 1) % 4]
    ensures a.toimen == hands[(i + 2) % 4] && a.kamicha == hands[(i + 3) % 4]
    ensures a.currentTurn == LabelAt(4 - i)
  {
    var currentTurn := if i == 0 then Watashi else if (i + 1) % 4 == 0 then Shimocha
                       else if (i + 2) % 4 == 0 then Toimen else Kamicha;
    Assignment(hands[i], hands[(i + 1) % 4], hands[(i + 2) % 4], hands[(i + 3) % 4], currentTurn)
  }

  /**
   * `assignHandsAndCurrentTurn`: the hands, listed from east, are handed out
   * from the observed player's own wind on, and the turn goes to whichever
   * label sits at east.
   */
  function AssignHandsAndCurrentTurn(seatWinds: seq<Wind>, watashiSeat: Wind, hands: seq<seq<Tile>>): (a: Assignment)
    requires |seatWinds| == 4 && watashiSeat in seatWinds && |hands| == 4
    ensures var i := IndexOf(seatWinds, watashiSeat);
            && seatWinds[i] == watashiSeat
            && a.watashi == hands[i] && a.shimocha == hands[(i + 1) % 4]
            && a.toimen == hands[(i + 2) % 4] && a.kamicha == hands[(i + 3) % 4]
            && a.currentTurn == LabelAt(4 - i)
  {
    AssignFrom(IndexOf(seatWinds, watashiSeat), hands)
  }

  /** A rotation only reorders. */
  lemma {:induction false} RotationPermutes(x: seq<seq<Tile>>, i: nat)
    requires i <= |x|
    ensures multiset(x[i..] + x[..i]) == multiset(x)
  {
    assert x == x[..i] + x[i..];
  }

  /** The four hands handed out, in label order, are the east-first list rotated to the observed player. */
  lemma {:induction false} AssignmentRotates(i: int, hands: seq<seq<Tile>>)
    requires 0 <= i < 4 && |hands| == 4
    ensures var a := AssignFrom(i, hands);
            [a.watashi, a.shimocha, a.toimen, a.kamicha] == hands[i..] + hands[..i]
  {
    var r := hands[i..] + hands[..i];
    forall k | 0 <= k < 4
      ensures r[k] == hands[(i + k) % 4]
    {
      if k < 4 - i {
        assert r[k] == hands[i..][k];
      } else {
        assert r[k] == hands[..i][k - (4 - i)];
      }
    }
  }

  /** Whoever gets the turn holds the east hand, and no hand is lost or repeated. */
  lemma {:induction false} AssignmentKeepsHands(i: int, hands: seq<seq<Tile>>)
    requires 0 <= i < 4 && |hands| == 4
    ensures var a := AssignFrom(i, hands);
            && HandOf(a, a.currentTurn) == hands[0]
            && multiset([a.watashi, a.shimocha, a.toimen, a.kamicha]) == multiset(hands)
  {
    var a := AssignFrom(i, hands);
    AssignmentRotates(i, hands);
    RotationPermutes(hands, i);
    assert HandOf(a, a.currentTurn) == hands[0] by {
      if i == 0 {} else if i == 1 {} else if i == 2 {} else {}
    }
  }
}
