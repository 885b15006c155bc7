/**
 * The tile model used by every core file: a tile is a suit letter (`m`, `p`,
 * `s` for the three number suits, `z` for honours), a number `n`, and a red
 * flag that only the suited fives may carry. An absent `red` property in the
 * source is the same as `red: false` here.
 */
module Tiles {

  datatype Suit = M | P | S | Z

  datatype Tile = Tile(suit: Suit, n: int, red: bool)

  /** The three number suits (`m`, `p`, `s`). */
  predicate IsSuited(t: Tile) { t.suit != Z }

  /** A suited five: the only tile whose red flag is ever compared. */
  predicate IsSuitedFive(t: Tile) { t.suit != Z && t.n == 5 }

  /** Every tile the deck builder and the hand parser produce: red only on a suited five. */
  predicate WellFormed(t: Tile) { t.red ==> IsSuitedFive(t) }

  predicate AllWellFormed(s: seq<Tile>) { forall i :: 0 <= i < |s| ==> WellFormed(s[i]) }

  /** Same `type` and same `n`, red flag ignored (the Pon/Kan/Chi matching rule). */
  predicate SameKind(a: Tile, b: Tile) { a.suit == b.suit && a.n == b.n }

  /**
   * The matching rule of `removePickedTiles`: type and number must agree, and
   * the red flag is compared only when both tiles are suited fives.
   */
  predicate PickMatches(h: Tile, p: Tile)
  {
    SameKind(h, p) && (IsSuitedFive(h) && IsSuitedFive(p) ==> h.red == p.red)
  }

  /** On well-formed tiles the pick rule is plain equality. */
  lemma PickMatchesIsEquality(h: Tile, p: Tile)
    requires WellFormed(h) && WellFormed(p)
    ensures PickMatches(h, p) <==> h == p
  {
  }

  /** Number of tiles in `s` of the given type and number, red or not. */
  function KindCount(s: seq<Tile>, suit: Suit, n: int): (c: nat)
    ensures c <= |s|
  {
    if s == [] then 0
    else KindCount(s[..|s| - 1], suit, n) + (if s[|s| - 1].suit == suit && s[|s| - 1].n == n then 1 else 0)
  }

  lemma {:induction false} KindCountAppend(a: seq<Tile>, b: seq<Tile>, suit: Suit, n: int)
    ensures KindCount(a + b, suit, n) == KindCount(a, suit, n) + KindCount(b, suit, n)
    decreases |b|
  {
    if b == [] {
      assert a + b == a;
    } else {
      assert (a + b)[..|a + b| - 1] == a + b[..|b| - 1];
      KindCountAppend(a, b[..|b| - 1], suit, n);
    }
  }

  /** Number of red tiles of the given suit in `s`. */
  function RedCount(s: seq<Tile>, suit: Suit): (c: nat)
    ensures c <= |s|
  {
    if s == [] then 0
    else RedCount(s[..|s| - 1], suit) + (if s[|s| - 1].suit == suit && s[|s| - 1].red then 1 else 0)
  }

  lemma {:induction false} RedCountAppend(a: seq<Tile>, b: seq<Tile>, suit: Suit)
    ensures RedCount(a + b, suit) == RedCount(a, suit) + RedCount(b, suit)
    decreases |b|
  {
    if b == [] {
      assert a + b == a;
    } else {
      assert (a + b)[..|a + b| - 1] == a + b[..|b| - 1];
      RedCountAppend(a, b[..|b| - 1], suit);
    }
  }

  /** A tile comparator in the style of `compareTiles`: negative, zero or positive. */
  type Comparator = (Tile, Tile) -> int

  /** The laws a comparator handed to `Array.prototype.sort` is expected to obey. */
  ghost predicate IsTotalPreorder<T(!new)>(cmp: (T, T) -> int)
  {
    (forall a, b :: cmp(a, b) < 0 <==> cmp(b, a) > 0) &&
    (forall a, b, c :: cmp(a, b) <= 0 && cmp(b, c) <= 0 ==> cmp(a, c) <= 0)
  }

  /** Inserts `x` after every element that does not compare greater than it (a stable insert). */
  function Insert<T>(x: T, sorted: seq<T>, cmp: (T, T) -> int): (r: seq<T>)
    ensures multiset(r) == multiset(sorted) + multiset{x}
    ensures |r| == |sorted| + 1
  {
    if sorted == [] then [x]
    else if cmp(x, sorted[0]) < 0 then [x] + sorted
    else
      assert sorted == [sorted[0]] + sorted[1..];
      [sorted[0]] + Insert(x, sorted[1..], cmp)
  }

  /**
   * `Array.prototype.sort(cmp)`: a stable sort (as the language has required
   * since ES2019), written as insertion sort.
   */
  function SortBy<T>(s: seq<T>, cmp: (T, T) -> int): (r: seq<T>)
    ensures multiset(r) == multiset(s)
    ensures |r| == |s|
  {
    if s == [] then []
    else
      assert s == s[..|s| - 1] + [s[|s| - 1]];
      Insert(s[|s| - 1], SortBy(s[..|s| - 1], cmp), cmp)
  }

  /** Ascending by `cmp`, equal neighbours allowed. */
  predicate SortedBy<T>(s: seq<T>, cmp: (T, T) -> int)
  {
    forall i, j :: 0 <= i < j < |s| ==> cmp(s[i], s[j]) <= 0
  }

  /** Inserting into a sorted list keeps it sorted. */
  lemma {:induction false} InsertSorted<T(!new)>(x: T, s: seq<T>, cmp: (T, T) -> int)
    requires IsTotalPreorder(cmp) && SortedBy(s, cmp)
    ensures SortedBy(Insert(x, s, cmp), cmp)
  {
    if s == [] {
    } else if cmp(x, s[0]) < 0 {
      var r := [x] + s;
      forall i, j | 0 <= i < j < |r|
        ensures cmp(r[i], r[j]) <= 0
      {
        if i == 0 {
          assert cmp(s[0], s[j - 1]) <= 0 || j == 1;
        }
      }
    } else {
      var rest := Insert(x, s[1..], cmp);
      InsertSorted(x, s[1..], cmp);
      assert cmp(s[0], x) <= 0;
      var r := [s[0]] + rest;
      forall i, j | 0 <= i < j < |r|
        ensures cmp(r[i], r[j]) <= 0
      {
        if i == 0 {
          assert r[j] in multiset(rest);
          assert r[j] == x || r[j] in multiset(s[1..]);
          if r[j] != x {
            var k :| 0 <= k < |s[1..]| && s[1..][k] == r[j];
            assert s[k + 1] == r[j];
          }
        }
      }
    }
  }

  /** `SortBy` sorts, whenever the comparator obeys the laws. */
  lemma {:induction false} SortBySorted<T(!new)>(s: seq<T>, cmp: (T, T) -> int)
    requires IsTotalPreorder(cmp)
    ensures SortedBy(SortBy(s, cmp), cmp)
  {
    if s != [] {
      SortBySorted(s[..|s| - 1], cmp);
      InsertSorted(s[|s| - 1], SortBy(s[..|s| - 1], cmp), cmp);
    }
  }
}
