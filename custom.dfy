/**
 * The tile swap of the `custom-new-game` case of `src/lib/store/index.ts`:
 * after a normal deal, each position of the observed player's hand that
 * does not already hold the requested tile trades it for the first matching
 * tile of the live wall, the three dead-wall reserves and the kamicha,
 * toimen and shimocha hands, searched in that order.
 *
 * Searching those lists one after the other and stopping at the first list
 * with a match finds the same tile as searching their concatenation, so the
 * specification works on the concatenation (`rest`); the method keeps the
 * list-by-list search and is proved against it.
 */
module CustomDeal {
  import opened Tiles
  import Setup

  /** `tilesMatch`: same type and number, and for number tiles the same red flag. */
  predicate TilesMatch(a: Tile, b: Tile)
  {
    a.suit == b.suit && a.n == b.n && (a.suit != Z ==> a.red == b.red)
  }

  /** On well-formed tiles the match is plain equality. */
  lemma {:induction false} TilesMatchIsEquality(a: Tile, b: Tile)
    requires WellFormed(a) && WellFormed(b)
    ensures TilesMatch(a, b) <==> a == b
  {
    if a.suit == Z && b.suit == Z {
      assert !a.red && !b.red;
    }
  }

  /** `findIndex(tile => tilesMatch(tile, t))`: the first match, or -1. */
  function FindMatch(arr: seq<Tile>, t: Tile): (i: int)
    ensures -1 <= i < |arr|
    ensures i >= 0 ==> TilesMatch(arr[i], t) && forall j :: 0 <= j < i ==> !TilesMatch(arr[j], t)
    ensures i < 0 ==> forall j :: 0 <= j < |arr| ==> !TilesMatch(arr[j], t)
  {
    if arr == [] then -1
    else if TilesMatch(arr[0], t) then 0
    else
      var k := FindMatch(arr[1..], t);
      assert forall j :: 1 <= j < |arr| ==> arr[1..][j - 1] == arr[j];
      if k < 0 then -1 else k + 1
  }

  /** A search of `a + b + c` that misses `a` and hits `b` stops in `b`. */
  lemma {:induction false} FindMatchInMiddle(a: seq<Tile>, b: seq<Tile>, c: seq<Tile>, t: Tile)
    requires FindMatch(a, t) < 0 && FindMatch(b, t) >= 0
    ensures FindMatch(a + b + c, t) == |a| + FindMatch(b, t)
  {
    var s, i := a + b + c, |a| + FindMatch(b, t);
    assert s[i] == b[i - |a|];
    forall j | 0 <= j < i
      ensures !TilesMatch(s[j], t)
    {
      if j < |a| {
        assert s[j] == a[j];
      } else {
        assert s[j] == b[j - |a|];
      }
    }
  }

  /** A search of `a + b` that misses both misses. */
  lemma {:induction false} FindMatchMissesBoth(a: seq<Tile>, b: seq<Tile>, t: Tile)
    requires FindMatch(a, t) < 0 && FindMatch(b, t) < 0
    ensures FindMatch(a + b, t) < 0
  {
    var s := a + b;
    forall j | 0 <= j < |s|
      ensures !TilesMatch(s[j], t)
    {
      if j < |a| {
        assert s[j] == a[j];
      } else {
        assert s[j] == b[j - |a|];
      }
    }
  }

  /** The hand and the concatenation of the searched lists. */
  datatype Deal = Deal(hand: seq<Tile>, rest: seq<Tile>)

  /**
   * Position `i`: kept when it already matches; otherwise traded with the
   * first match in the searched lists, or left as it is when there is
   * none. A position beyond the hand is skipped, where the source's
   * `tilesMatch` throws on the undefined hand tile.
   */
  function SwapStep(custom: seq<Tile>, i: nat, d: Deal): Deal
  {
    if i >= |custom| || i >= |d.hand| || TilesMatch(d.hand[i], custom[i]) then d
    else
      var idx := FindMatch(d.rest, custom[i]);
      if idx < 0 then d
      else Deal(d.hand[i := d.rest[idx]], d.rest[idx := d.hand[i]])
  }

  /** The first `n` positions processed in order. */
  function Swapped(custom: seq<Tile>, n: nat, d: Deal): Deal
  {
    if n == 0 then d else SwapStep(custom, n - 1, Swapped(custom, n - 1, d))
  }

  /**
   * The `forEach` over the custom hand with its inner search over the
   * lists. `fixed` is the `fixedIndices` set; it only ever holds positions
   * already passed, so its test never skips a position.
   */
  method SwapInCustomHand(custom: seq<Tile>, hand0: seq<Tile>, lists0: seq<seq<Tile>>)
    returns (hand: seq<Tile>, lists: seq<seq<Tile>>)
    ensures Deal(hand, Setup.Flat(lists)) == Swapped(custom, |custom|, Deal(hand0, Setup.Flat(lists0)))
    ensures |lists| == |lists0| && forall k :: 0 <= k < |lists0| ==> |lists[k]| == |lists0[k]|
  {
    hand, lists := hand0, lists0;
    var fixed: set<int> := {};
    var i := 0;
    while i < |custom|
      invariant 0 <= i <= |custom|
      invariant Deal(hand, Setup.Flat(lists)) == Swapped(custom, i, Deal(hand0, Setup.Flat(lists0)))
      invariant |lists| == |lists0| && forall k :: 0 <= k < |lists0| ==> |lists[k]| == |lists0[k]|
      invariant forall j :: j in fixed ==> j < i
    {
      if i !in fixed && i < |hand| {
        if TilesMatch(hand[i], custom[i]) {
          fixed := fixed + {i};
        } else {
          hand, lists, fixed := TradeFirstMatch(custom, i, hand, lists, fixed);
        }
      }
      i := i + 1;
    }
  }

  /** Overwriting one tile of one list overwrites it in the concatenation. */
  lemma {:induction false} FlatUpdate(lists: seq<seq<Tile>>, k: nat, idx: nat, v: Tile)
    requires k < |lists| && idx < |lists[k]|
    ensures var off := |Setup.Flat(lists[..k])|;
            && off + idx < |Setup.Flat(lists)|
            && Setup.Flat(lists)[off + idx] == lists[k][idx]
            && Setup.Flat(lists[k := lists[k][idx := v]]) == Setup.Flat(lists)[off + idx := v]
  {
    var lists' := lists[k := lists[k][idx := v]];
    Setup.FlatSplitAt(lists, k);
    Setup.FlatSplitAt(lists', k);
    assert lists'[..k] == lists[..k] && lists'[k + 1..] == lists[k + 1..];
    var a, b, c := Setup.Flat(lists[..k]), lists[k], Setup.Flat(lists[k + 1..]);
    assert (a + b + c)[|a| + idx] == b[idx];
    assert a + b[idx := v] + c == (a + b + c)[|a| + idx := v];
  }

  /** The first list with a match holds the first match of the concatenation, and the trade happens there. */
  lemma {:induction false} TradeInList(custom: seq<Tile>, i: nat, hand: seq<Tile>, lists: seq<seq<Tile>>, k: nat)
    requires i < |custom| && i < |hand| && !TilesMatch(hand[i], custom[i]) && k < |lists|
    requires FindMatch(Setup.Flat(lists[..k]), custom[i]) < 0 && FindMatch(lists[k], custom[i]) >= 0
    ensures var idx := FindMatch(lists[k], custom[i]);
            Deal(hand[i := lists[k][idx]], Setup.Flat(lists[k := lists[k][idx := hand[i]]]))
              == SwapStep(custom, i, Deal(hand, Setup.Flat(lists)))
  {
    var c := custom[i];
    var idx := FindMatch(lists[k], c);
    Setup.FlatSplitAt(lists, k);
    FindMatchInMiddle(Setup.Flat(lists[..k]), lists[k], Setup.Flat(lists[k + 1..]), c);
    FlatUpdate(lists, k, idx, hand[i]);
  }

  /** The inner `for (let arr of arraysToSearch)` loop with its `break`. */
  method TradeFirstMatch(custom: seq<Tile>, i: nat, hand0: seq<Tile>, lists0: seq<seq<Tile>>, fixed0: set<int>)
    returns (hand: seq<Tile>, lists: seq<seq<Tile>>, fixed: set<int>)
    requires i < |custom| && i < |hand0| && !TilesMatch(hand0[i], custom[i])
    ensures Deal(hand, Setup.Flat(lists)) == SwapStep(custom, i, Deal(hand0, Setup.Flat(lists0)))
    ensures |lists| == |lists0| && forall k :: 0 <= k < |lists0| ==> |lists[k]| == |lists0[k]|
    ensures fixed <= fixed0 + {i}
  {
    hand, lists, fixed := hand0, lists0, fixed0;
    var c := custom[i];
    var k := 0;
    var done := false;
    while k < |lists| && !done
      invariant 0 <= k <= |lists0| && |lists| == |lists0|
      invariant forall q :: 0 <= q < |lists0| ==> |lists[q]| == |lists0[q]|
      invariant !done ==> hand == hand0 && lists == lists0 && fixed == fixed0
                          && FindMatch(Setup.Flat(lists0[..k]), c) < 0
      invariant done ==> Deal(hand, Setup.Flat(lists)) == SwapStep(custom, i, Deal(hand0, Setup.Flat(lists0)))
                         && fixed == fixed0 + {i}
    {
      var idx := FindMatch(lists[k], c);
      if idx != -1 {
        TradeInList(custom, i, hand0, lists0, k);
        var temp := lists[k][idx];
        lists := lists[k := lists[k][idx := hand[i]]];
        hand := hand[i := temp];
        fixed := fixed + {i};
        done := true;
      } else {
        Setup.FlatPrefix(lists0, k);
        FindMatchMissesBoth(Setup.Flat(lists0[..k]), lists0[k], c);
      }
      k := k + 1;
    }
    if !done {
      assert lists0[..k] == lists0;
    }
  }

  // ---------------------------------------------------------------------
  // What the trades keep
  // ---------------------------------------------------------------------

  /** Every tile of a deal: the hand's and the searched lists'. */
  function Bag(d: Deal): multiset<Tile>
  {
    multiset(d.hand) + multiset(d.rest)
  }

  /** Overwriting one position swaps one tile of the bag for another. */
  lemma {:induction false} UpdateBag(s: seq<Tile>, i: nat, v: Tile)
    requires i < |s|
    ensures multiset(s[i := v]) + multiset{s[i]} == multiset(s) + multiset{v}
  {
    assert s == s[..i] + [s[i]] + s[i + 1..];
    assert s[i := v] == s[..i] + [v] + s[i + 1..];
  }

  /** Trading a tile of the hand with one of the lists keeps the tiles of both together. */
  lemma {:induction false} TradeKeepsBag(hand: seq<Tile>, i: nat, rest: seq<Tile>, idx: nat)
    requires i < |hand| && idx < |rest|
    ensures Bag(Deal(hand[i := rest[idx]], rest[idx := hand[i]])) == Bag(Deal(hand, rest))
  {
    var h', r' := hand[i := rest[idx]], rest[idx := hand[i]];
    UpdateBag(rest, idx, hand[i]);
    UpdateBag(hand, i, rest[idx]);
    forall t
      ensures (multiset(h') + multiset(r'))[t] == (multiset(hand) + multiset(rest))[t]
    {
      assert (multiset(r') + multiset{rest[idx]})[t] == (multiset(rest) + multiset{hand[i]})[t];
      assert (multiset(h') + multiset{hand[i]})[t] == (multiset(hand) + multiset{rest[idx]})[t];
    }
  }

  /** One trade only moves tiles between the hand and the lists, and keeps their sizes. */
  lemma {:induction false} SwapStepKeepsTiles(custom: seq<Tile>, i: nat, d: Deal)
    ensures Bag(SwapStep(custom, i, d)) == Bag(d)
    ensures |SwapStep(custom, i, d).hand| == |d.hand| && |SwapStep(custom, i, d).rest| == |d.rest|
  {
    if i < |custom| && i < |d.hand| && !TilesMatch(d.hand[i], custom[i]) {
      var idx := FindMatch(d.rest, custom[i]);
      if idx >= 0 {
        TradeKeepsBag(d.hand, i, d.rest, idx);
      }
    }
  }

  /** The trades only move tiles: no tile appears or vanishes, and no list grows or shrinks. */
  lemma {:induction false} SwappedKeepsTiles(custom: seq<Tile>, n: nat, d: Deal)
    ensures Bag(Swapped(custom, n, d)) == Bag(d)
    ensures |Swapped(custom, n, d).hand| == |d.hand| && |Swapped(custom, n, d).rest| == |d.rest|
  {
    if n > 0 {
      SwappedKeepsTiles(custom, n - 1, d);
      SwapStepKeepsTiles(custom, n - 1, Swapped(custom, n - 1, d));
    }
  }

  /**
   * A trade touches only its own position, and that position ends up
   * matching the requested tile whenever it already did or the lists
   * still held one.
   */
  lemma {:induction false} SwapStepSettles(custom: seq<Tile>, i: nat, d: Deal)
    requires i < |custom| && i < |d.hand|
    ensures forall j :: 0 <= j < |d.hand| && j != i ==> SwapStep(custom, i, d).hand[j] == d.hand[j]
    ensures TilesMatch(d.hand[i], custom[i]) || FindMatch(d.rest, custom[i]) >= 0
            ==> TilesMatch(SwapStep(custom, i, d).hand[i], custom[i])
  {
  }

  /** Positions before `n` are never touched again once passed. */
  lemma {:induction false} SwappedKeepsEarlier(custom: seq<Tile>, n: nat, m: nat, d: Deal, j: nat)
    requires j < n <= m && j < |d.hand|
    ensures |Swapped(custom, m, d).hand| == |Swapped(custom, n, d).hand| == |d.hand|
    ensures Swapped(custom, m, d).hand[j] == Swapped(custom, n, d).hand[j]
    decreases m
  {
    SwappedKeepsTiles(custom, m, d);
    SwappedKeepsTiles(custom, n, d);
    if m > n {
      SwappedKeepsEarlier(custom, n, m - 1, d, j);
      var p := Swapped(custom, m - 1, d);
      if m - 1 < |custom| && m - 1 < |p.hand| {
        SwapStepSettles(custom, m - 1, p);
      }
    }
  }

  // ---------------------------------------------------------------------
  // A requested tile held only by the hand itself is never found
  // ---------------------------------------------------------------------

  /**
   * The trades look only in the other lists, never in the rest of the
   * hand. With the hand [1m, 2m], the lists holding only [3m] and the
   * request [2m, 3m], the first position finds no 2m outside the hand (the
   * only one sits at position 1 of the hand) and keeps 1m; the second takes
   * the 3m and gives away the 2m. The hand ends as [1m, 3m], although the
   * three tiles together held the whole request.
   */
  lemma SwapMissesTilesInHand()
    ensures var m1, m2, m3 := Tile(M, 1, false), Tile(M, 2, false), Tile(M, 3, false);
            var r := Swapped([m2, m3], 2, Deal([m1, m2], [m3]));
            && multiset([m2, m3]) <= Bag(Deal([m1, m2], [m3]))
            && r.hand == [m1, m3] && r.hand != [m2, m3]
  {
    var m1, m2, m3 := Tile(M, 1, false), Tile(M, 2, false), Tile(M, 3, false);
    assert FindMatch([m3], m2) == -1;
    assert Swapped([m2, m3], 1, Deal([m1, m2], [m3])) == Deal([m1, m2], [m3]);
    assert FindMatch([m3], m3) == 0;
    assert [m1, m2][1 := m3] == [m1, m3];
  }

  /**
   * The trade the swap evidently intends: when the other lists hold no
   * match, the requested tile is taken from a later position of the hand.
   */
  function SwapStepFixed(custom: seq<Tile>, i: nat, d: Deal): Deal
  {
    if i >= |custom| || i >= |d.hand| || TilesMatch(d.hand[i], custom[i]) then d
    else
      var idx := FindMatch(d.rest, custom[i]);
      if idx >= 0 then Deal(d.hand[i := d.rest[idx]], d.rest[idx := d.hand[i]])
      else
        var j := FindMatch(d.hand[i + 1..], custom[i]);
        if j < 0 then d
        else Deal(d.hand[i := d.hand[i + 1 + j]][i + 1 + j := d.hand[i]], d.rest)
  }

  function SwappedFixed(custom: seq<Tile>, n: nat, d: Deal): Deal
  {
    if n == 0 then d else SwapStepFixed(custom, n - 1, SwappedFixed(custom, n - 1, d))
  }

  /** A corrected trade, like the original, only moves tiles and keeps every size. */
  lemma {:induction false} SwapStepFixedKeepsTiles(custom: seq<Tile>, i: nat, d: Deal)
    ensures Bag(SwapStepFixed(custom, i, d)) == Bag(d)
    ensures |SwapStepFixed(custom, i, d).hand| == |d.hand| && |SwapStepFixed(custom, i, d).rest| == |d.rest|
  {
    if i < |custom| && i < |d.hand| && !TilesMatch(d.hand[i], custom[i]) {
      var idx := FindMatch(d.rest, custom[i]);
      if idx >= 0 {
        TradeKeepsBag(d.hand, i, d.rest, idx);
      } else {
        var j := FindMatch(d.hand[i + 1..], custom[i]);
        if j >= 0 {
          var k := i + 1 + j;
          assert d.hand[i := d.hand[k]][k := d.hand[i]] == Setup.Swap(d.hand, i, k);
          Setup.SwapPermutes(d.hand, i, k);
        }
      }
    }
  }

  /** The corrected trades only move tiles: no tile appears or vanishes, and no list grows or shrinks. */
  lemma {:induction false} SwappedFixedKeepsTiles(custom: seq<Tile>, n: nat, d: Deal)
    ensures Bag(SwappedFixed(custom, n, d)) == Bag(d)
    ensures |SwappedFixed(custom, n, d).hand| == |d.hand| && |SwappedFixed(custom, n, d).rest| == |d.rest|
  {
    if n > 0 {
      SwappedFixedKeepsTiles(custom, n - 1, d);
      SwapStepFixedKeepsTiles(custom, n - 1, SwappedFixed(custom, n - 1, d));
    }
  }

  /** What the corrected trades keep after `n` positions: a settled prefix and enough tiles for the rest. */
  ghost predicate FixedSoFar(custom: seq<Tile>, n: nat, r: Deal)
  {
    && n <= |custom| == |r.hand|
    && r.hand[..n] == custom[..n]
    && AllWellFormed(r.hand) && AllWellFormed(r.rest)
    && multiset(custom[n..]) <= multiset(r.hand[n..]) + multiset(r.rest)
  }

  /** A list's bag splits at any position. */
  lemma {:induction false} SplitBag(s: seq<Tile>, n: nat)
    requires n < |s|
    ensures multiset(s) == multiset(s[..n]) + multiset(s[n..])
    ensures multiset(s[n..]) == multiset{s[n]} + multiset(s[n + 1..])
  {
    assert s == s[..n] + s[n..];
    assert s[n..] == [s[n]] + s[n + 1..];
  }

  /** The bag arithmetic of one settled position. */
  lemma {:induction false} SettleBags(a: multiset<Tile>, h: multiset<Tile>, h1': multiset<Tile>,
                                      p: multiset<Tile>, p': multiset<Tile>,
                                      c0: multiset<Tile>, c1: multiset<Tile>, c: Tile)
    requires c0 <= h + p && c0 == multiset{c} + c1
    requires a + (multiset{c} + h1') + p' == a + h + p
    ensures c1 <= h1' + p'
  {
    forall t
      ensures c1[t] <= (h1' + p')[t]
    {
      assert c0[t] <= (h + p)[t];
      assert (a + (multiset{c} + h1') + p')[t] == (a + h + p)[t];
      assert c0[t] == (multiset{c} + c1)[t];
    }
  }

  /**
   * A step that keeps the settled prefix and the tiles, keeps everything
   * well formed and puts the requested tile at position `n` extends
   * `FixedSoFar` by one.
   */
  lemma {:induction false} FixedFromBags(custom: seq<Tile>, n: nat, r: Deal, r': Deal)
    requires n < |custom| && FixedSoFar(custom, n, r)
    requires |r'.hand| == |r.hand| && r'.hand[..n] == r.hand[..n] && r'.hand[n] == custom[n]
    requires Bag(r') == Bag(r)
    requires AllWellFormed(r'.hand) && AllWellFormed(r'.rest)
    ensures FixedSoFar(custom, n + 1, r')
  {
    var c := custom[n];
    SplitBag(r.hand, n);
    SplitBag(r'.hand, n);
    SplitBag(custom, n);
    assert r'.hand[..n + 1] == r'.hand[..n] + [c];
    assert custom[..n + 1] == custom[..n] + [c];
    SettleBags(multiset(r.hand[..n]), multiset(r.hand[n..]), multiset(r'.hand[n + 1..]),
               multiset(r.rest), multiset(r'.rest), multiset(custom[n..]), multiset(custom[n + 1..]), c);
  }

  /** The tile requested at position `n` is in the hand's tail or the lists. */
  lemma {:induction false} RequestAvailable(custom: seq<Tile>, n: nat, r: Deal)
    requires n < |custom| && FixedSoFar(custom, n, r) && r.hand[n] != custom[n]
    ensures custom[n] in multiset(r.hand[n + 1..]) + multiset(r.rest)
  {
    var c := custom[n];
    SplitBag(custom, n);
    SplitBag(r.hand, n);
    var h, h1, p := multiset(r.hand[n..]), multiset(r.hand[n + 1..]), multiset(r.rest);
    assert multiset(custom[n..])[c] <= (h + p)[c];
    assert (h + p)[c] == (h1 + p)[c];
  }

  /** A corrected step that takes the requested tile from the other lists. */
  lemma {:induction false} FixedStepLists(custom: seq<Tile>, n: nat, r: Deal)
    requires n < |custom| && FixedSoFar(custom, n, r) && WellFormed(custom[n])
    requires !TilesMatch(r.hand[n], custom[n]) && FindMatch(r.rest, custom[n]) >= 0
    ensures FixedSoFar(custom, n + 1, SwapStepFixed(custom, n, r))
  {
    var c := custom[n];
    var idx := FindMatch(r.rest, c);
    TilesMatchIsEquality(r.rest[idx], c);
    TradeKeepsBag(r.hand, n, r.rest, idx);
    var r' := SwapStepFixed(custom, n, r);
    assert r' == Deal(r.hand[n := r.rest[idx]], r.rest[idx := r.hand[n]]);
    assert r'.hand[..n] == r.hand[..n];
    FixedFromBags(custom, n, r, r');
  }

  /** A tile the search misses is not in the list. */
  lemma {:induction false} MissedIsAbsent(rest: seq<Tile>, c: Tile)
    requires FindMatch(rest, c) < 0
    ensures c !in multiset(rest)
  {
    forall x | 0 <= x < |rest|
      ensures rest[x] != c
    {
      assert !TilesMatch(rest[x], c);
    }
  }

  /** In a well-formed list holding the tile, the search finds that very tile. */
  lemma {:induction false} PresentIsFound(tail: seq<Tile>, c: Tile)
    requires AllWellFormed(tail) && WellFormed(c) && c in multiset(tail)
    ensures 0 <= FindMatch(tail, c) && tail[FindMatch(tail, c)] == c
  {
    var x :| 0 <= x < |tail| && tail[x] == c;
    assert TilesMatch(tail[x], c);
    TilesMatchIsEquality(tail[FindMatch(tail, c)], c);
  }

  /** Exchanging two positions keeps the bag. */
  lemma {:induction false} ExchangeBag(h: seq<Tile>, n: nat, m: nat)
    requires n < m < |h|
    ensures multiset(h[n := h[m]][m := h[n]]) == multiset(h)
  {
    var h1 := h[n := h[m]];
    UpdateBag(h, n, h[m]);
    UpdateBag(h1, m, h[n]);
    forall t
      ensures multiset(h1[m := h[n]])[t] == multiset(h)[t]
    {
      assert (multiset(h1) + multiset{h[n]})[t] == (multiset(h) + multiset{h[m]})[t];
      assert (multiset(h1[m := h[n]]) + multiset{h[m]})[t] == (multiset(h1) + multiset{h[n]})[t];
    }
  }

  /** A corrected step that takes the requested tile from later in the hand. */
  lemma {:induction false} FixedStepHand(custom: seq<Tile>, n: nat, r: Deal)
    requires n < |custom| && FixedSoFar(custom, n, r) && WellFormed(custom[n])
    requires !TilesMatch(r.hand[n], custom[n]) && FindMatch(r.rest, custom[n]) < 0
    ensures FixedSoFar(custom, n + 1, SwapStepFixed(custom, n, r))
  {
    var c := custom[n];
    var h := r.hand;
    TilesMatchIsEquality(h[n], c);
    RequestAvailable(custom, n, r);
    MissedIsAbsent(r.rest, c);
    var tail := h[n + 1..];
    assert c in multiset(tail);
    assert AllWellFormed(tail);
    PresentIsFound(tail, c);
    var j := FindMatch(tail, c);
    assert tail[j] == h[n + 1 + j];
    var h' := h[n := h[n + 1 + j]][n + 1 + j := h[n]];
    ExchangeBag(h, n, n + 1 + j);
    var r' := SwapStepFixed(custom, n, r);
    assert r' == Deal(h', r.rest);
    assert h'[..n] == h[..n];
    FixedFromBags(custom, n, r, r');
  }

  /** One corrected step keeps `FixedSoFar` and settles position `n`. */
  lemma {:induction false} FixedStep(custom: seq<Tile>, n: nat, r: Deal)
    requires n < |custom| && FixedSoFar(custom, n, r) && WellFormed(custom[n])
    ensures FixedSoFar(custom, n + 1, SwapStepFixed(custom, n, r))
  {
    var c := custom[n];
    TilesMatchIsEquality(r.hand[n], c);
    if r.hand[n] == c {
      FixedFromBags(custom, n, r, r);
    } else if FindMatch(r.rest, c) >= 0 {
      FixedStepLists(custom, n, r);
    } else {
      FixedStepHand(custom, n, r);
    }
  }

  /** Before any step nothing is settled and the availability hypothesis is all there is. */
  lemma {:induction false} FixedStart(custom: seq<Tile>, d: Deal)
    requires |custom| == |d.hand|
    requires AllWellFormed(d.hand) && AllWellFormed(d.rest)
    requires multiset(custom) <= Bag(d)
    ensures FixedSoFar(custom, 0, d)
  {
    assert custom[0..] == custom && d.hand[0..] == d.hand;
  }

  /** Once every position is settled the hand is the request. */
  lemma {:induction false} FixedEnd(custom: seq<Tile>, r: Deal)
    requires FixedSoFar(custom, |custom|, r)
    ensures r.hand == custom
  {
    assert r.hand[..|custom|] == r.hand && custom[..|custom|] == custom;
  }

  /** The corrected trades keep `FixedSoFar` position after position. */
  lemma {:induction false} SwappedFixedSoFar(custom: seq<Tile>, n: nat, d: Deal)
    requires n <= |custom| && AllWellFormed(custom) && FixedSoFar(custom, 0, d)
    ensures FixedSoFar(custom, n, SwappedFixed(custom, n, d))
  {
    if n > 0 {
      var prev := SwappedFixed(custom, n - 1, d);
      SwappedFixedSoFar(custom, n - 1, d);
      assert WellFormed(custom[n - 1]);
      FixedStep(custom, n - 1, prev);
      assert SwappedFixed(custom, n, d) == SwapStepFixed(custom, n - 1, prev);
    }
  }

  /**
   * The corrected trades deliver exactly the requested hand whenever the
   * hand and the other lists together hold every requested tile.
   */
  lemma {:induction false} SwappedFixedDelivers(custom: seq<Tile>, d: Deal)
    requires |custom| == |d.hand|
    requires AllWellFormed(custom) && AllWellFormed(d.hand) && AllWellFormed(d.rest)
    requires multiset(custom) <= Bag(d)
    ensures SwappedFixed(custom, |custom|, d).hand == custom
  {
    FixedStart(custom, d);
    SwappedFixedSoFar(custom, |custom|, d);
    FixedEnd(custom, SwappedFixed(custom, |custom|, d));
  }
}
