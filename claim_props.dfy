/**
 * What the claim cases of `src/lib/store/index.ts` promise: `call-chi`,
 * `select-chi-tile`, `call-pon`, `select-pon-tile`, `call-kan-drawn`,
 * `call-kan-discard` and `select-kan-tile`. A selection opens, collects
 * hand tiles at distinct positions, and then either forms the meld (the
 * picks and the claimed tile move into it, nothing else is created or
 * lost) or is dropped with a message.
 */
module ClaimProperties {
  import opened Wrappers
  import opened Tiles
  import opened HandInput
  import opened Store
  import opened Reducer
  import opened ReducerProperties
  import Corrected

  // ---------------------------------------------------------------------
  // Picks
  // ---------------------------------------------------------------------

  /** The picks are the hand tiles at the recorded positions, and no position is picked twice. */
  predicate PicksFromHand(hand: seq<Tile>, picks: seq<Tile>, idx: seq<int>)
  {
    && |picks| == |idx|
    && (forall k :: 0 <= k < |idx| ==> 0 <= idx[k] < |hand| && picks[k] == hand[idx[k]])
    && (forall j, k :: 0 <= j < k < |idx| ==> idx[j] != idx[k])
  }

  /** Tiles picked at distinct positions are a sub-bag of the hand. */
  lemma {:induction false} PicksSubBag(hand: seq<Tile>, picks: seq<Tile>, idx: seq<int>)
    requires PicksFromHand(hand, picks, idx)
    ensures multiset(picks) <= multiset(hand)
    decreases |picks|
  {
    if picks != [] {
      var n := |picks| - 1;
      var i := idx[n];
      var rest := hand[..i] + hand[i + 1..];
      var idx' := seq(n, k requires 0 <= k < n => if idx[k] < i then idx[k] else idx[k] - 1);
      forall k | 0 <= k < n
        ensures 0 <= idx'[k] < |rest| && picks[..n][k] == rest[idx'[k]]
      {
        assert idx[k] != i;
      }
      forall j, k | 0 <= j < k < n
        ensures idx'[j] != idx'[k]
      {
        assert idx[j] != i && idx[k] != i && idx[j] != idx[k];
      }
      PicksSubBag(rest, picks[..n], idx');
      assert hand == hand[..i] + [hand[i]] + hand[i + 1..];
      assert picks == picks[..n] + [picks[n]];
    }
  }

  /** A new pick at a position not yet picked keeps the picks drawn from the hand. */
  lemma {:induction false} PickExtends(hand: seq<Tile>, picks: seq<Tile>, idx: seq<int>, index: int)
    requires PicksFromHand(hand, picks, idx)
    requires 0 <= index < |hand| && index !in idx
    ensures PicksFromHand(hand, picks + [hand[index]], idx + [index])
  {
    forall j, k | 0 <= j < k < |idx| + 1
      ensures (idx + [index])[j] != (idx + [index])[k]
    {
      if k == |idx| {
        assert idx[j] in idx;
      }
    }
  }

  /** Taking the well-formed picks out of the hand removes exactly them. */
  lemma {:induction false} TakePicks(hand: seq<Tile>, picks: seq<Tile>, idx: seq<int>)
    requires PicksFromHand(hand, picks, idx) && AllWellFormed(hand)
    ensures multiset(RemovePicked(hand, picks)) + multiset(picks) == multiset(hand)
  {
    PicksSubBag(hand, picks, idx);
    forall k | 0 <= k < |picks|
      ensures WellFormed(picks[k])
    {
      assert picks[k] == hand[idx[k]];
    }
    RemovePickedExact(hand, picks);
  }

  // ---------------------------------------------------------------------
  // Chi
  // ---------------------------------------------------------------------

  /** call-chi applies: a pending suited kamicha discard some run of the hand completes, outside riichi. */
  predicate ChiCallable(s: AppState)
  {
    && s.reactionPhase && s.discardCheck.Some? && s.discardCheck.value.fromPlayer == Kamicha
    && CanWatashiChi(s.input.hand, s.discardCheck.value.tile) && !InRiichi(s.handOptions)
  }

  /** Every offered run is one of the seven runs and passes through the claimed tile. */
  predicate OfferedRuns(sel: ChiSelection)
  {
    sel.discardTile.Some? && forall x :: x in sel.possibleSequences ==> x in Runs && sel.discardTile.value.n in x
  }

  /**
   * call-chi opens a selection on the claimed tile from kamicha's pile,
   * offering exactly the runs through it the hand can complete, with no
   * pick yet; no tile moves.
   */
  lemma {:induction false} CallChiOpens(s: AppState)
    requires ChiCallable(s)
    ensures var r := OnCallChi(s);
            var t := s.discardCheck.value.tile;
            && r.chiSelection.Some? && OfferedRuns(r.chiSelection.value)
            && r.chiSelection.value.discardTile == Some(t) && r.chiSelection.value.discardKey == Kamicha
            && (forall x :: x in r.chiSelection.value.possibleSequences <==> x in Runs && t.n in x && RunFormable(s.input.hand, t, x))
            && r.chiSelection.value.possibleSequences != []
            && PicksFromHand(r.input.hand, r.chiSelection.value.pickedTiles, r.chiSelection.value.pickedTileIndices)
            && SameTiles(r, s)
  {
  }

  /** In riichi the claim is refused with the hand-locked message. */
  lemma {:induction false} CallChiInRiichi(s: AppState)
    requires s.reactionPhase && s.discardCheck.Some? && s.discardCheck.value.fromPlayer == Kamicha
    requires CanWatashiChi(s.input.hand, s.discardCheck.value.tile) && InRiichi(s.handOptions)
    ensures var r := OnCallChi(s);
            r.chiSelection == s.chiSelection && r.riichiErrorMessage == Some(RiichiHandLocked) && SameTiles(r, s)
  {
  }

  /** A suited kamicha discard that no run of the hand completes is refused with a message. */
  lemma {:induction false} CallChiWithoutRun(s: AppState)
    requires s.reactionPhase && s.discardCheck.Some? && s.discardCheck.value.fromPlayer == Kamicha
    requires var t := s.discardCheck.value.tile; t.suit != Z && 1 <= t.n <= 9 && !CanWatashiChi(s.input.hand, t)
    ensures var r := OnCallChi(s);
            r.chiSelection == s.chiSelection && r.chiErrorMessage == Some(CannotChi) && SameTiles(r, s)
  {
  }

  /** A pick on an open chi selection with a claimed tile, at a hand position not yet picked. */
  predicate ChiPick(s: AppState, index: int)
  {
    && s.chiSelection.Some? && s.chiSelection.value.discardTile.Some?
    && index !in s.chiSelection.value.pickedTileIndices && 0 <= index < |s.input.hand|
  }

  /** Without an open selection, or on a position already picked or outside the hand, nothing changes. */
  lemma {:induction false} SelectChiTileIgnored(s: AppState, index: int)
    requires !ChiPick(s, index)
    ensures OnSelectChiTile(s, index) == s
  {
  }

  /** The first pick is recorded; the picks stay drawn from distinct hand positions. */
  lemma {:induction false} SelectChiTileRecords(s: AppState, index: int)
    requires ChiPick(s, index) && |s.chiSelection.value.pickedTiles| < 1
    requires var sel := s.chiSelection.value; PicksFromHand(s.input.hand, sel.pickedTiles, sel.pickedTileIndices)
    ensures var r := OnSelectChiTile(s, index);
            var sel := s.chiSelection.value;
            && r.chiSelection.Some? && r.chiSelection.value.pickedTiles == sel.pickedTiles + [s.input.hand[index]]
            && PicksFromHand(r.input.hand, r.chiSelection.value.pickedTiles, r.chiSelection.value.pickedTileIndices)
            && SameTiles(r, s)
  {
    var sel := s.chiSelection.value;
    PickExtends(s.input.hand, sel.pickedTiles, sel.pickedTileIndices, index);
  }

  /** The tiles the chi would be made of once this pick is in. */
  function ChiMeldFor(s: AppState, index: int): seq<Tile>
    requires ChiPick(s, index)
  {
    var sel := s.chiSelection.value;
    ChiTiles(sel.discardTile.value, sel.pickedTiles + [s.input.hand[index]])
  }

  /** A second pick that does not make an offered run drops the selection with a message; no tile moves. */
  lemma {:induction false} SelectChiTileRejects(s: AppState, index: int)
    requires ChiPick(s, index) && |s.chiSelection.value.pickedTiles| >= 1
    requires var sel := s.chiSelection.value;
             !ValidChi(sel.discardTile.value, ChiMeldFor(s, index), sel.possibleSequences)
    ensures var r := OnSelectChiTile(s, index);
            r.chiSelection.None? && !r.reactionPhase && r.chiErrorMessage == Some(NotChi) && SameTiles(r, s)
  {
  }

  /**
   * A second pick that makes an offered run forms the chi: the claimed tile
   * first, then the picks; the picks leave the hand, the claimed tile leaves
   * its pile, and the observed player must now discard.
   */
  lemma {:induction false} SelectChiTileForms(s: AppState, index: int)
    requires ChiPick(s, index) && |s.chiSelection.value.pickedTiles| >= 1
    requires var sel := s.chiSelection.value;
             ValidChi(sel.discardTile.value, ChiMeldFor(s, index), sel.possibleSequences)
    ensures var r := OnSelectChiTile(s, index);
            var sel := s.chiSelection.value;
            var picks := sel.pickedTiles + [s.input.hand[index]];
            && r.input.melds == s.input.melds + [Chii(ChiMeldFor(s, index))]
            && ChiMeldFor(s, index)[0] == sel.discardTile.value
            && multiset(ChiMeldFor(s, index)) == multiset{sel.discardTile.value} + multiset(picks)
            && r.input.hand == RemovePicked(s.input.hand, picks) && r.input.drawnTile == s.input.drawnTile
            && Pile(r, sel.discardKey) == DropLast(Pile(s, sel.discardKey))
            && r.chiSelection.None? && !r.reactionPhase && r.mustDiscard && r.currentTurn == Watashi
  {
  }

  /**
   * Forming a claimed meld from picks at distinct hand positions and the
   * tile on top of the claimed pile creates and loses no tile: the picks
   * and the claimed tile are exactly the meld.
   */
  lemma {:induction false} ClaimMeldKeepsTiles(s: AppState, key: Seat, picks: seq<Tile>, idx: seq<int>, meld: Meld)
    requires PicksFromHand(s.input.hand, picks, idx) && AllWellFormed(s.input.hand)
    requires |Pile(s, key)| > 0 && multiset(meld.tiles) == multiset(picks) + multiset{Last(Pile(s, key))}
    ensures Tally(ClaimMeld(s, key, picks, meld)) == Tally(s)
  {
    var r := ClaimMeld(s, key, picks, meld);
    var d := Last(Pile(s, key));
    var p := WithPile(s, key, DropLast(Pile(s, key)));
    PopTally(s, key);
    TakePicks(s.input.hand, picks, idx);
    MeldTilesAppend(s.input.melds, meld);
    HeldParts(r);
    HeldParts(p);
    KanBags(multiset(r.input.hand), multiset(picks), multiset(s.input.hand), HeldBag(s.input),
            multiset(MeldTiles(s.input.melds)), multiset{d});
    HeldShift(r, p, multiset{d});
  }

  /** A second pick that makes an offered run forms the chi through the claimed-meld step. */
  lemma {:induction false} SelectChiTileClaims(s: AppState, index: int)
    requires ChiPick(s, index) && |s.chiSelection.value.pickedTiles| >= 1
    requires var sel := s.chiSelection.value;
             ValidChi(sel.discardTile.value, ChiMeldFor(s, index), sel.possibleSequences)
    ensures var sel := s.chiSelection.value;
            OnSelectChiTile(s, index)
              == ClaimMeld(s, sel.discardKey, sel.pickedTiles + [s.input.hand[index]], Chii(ChiMeldFor(s, index))).(chiSelection := None)
  {
  }

  /** The picks at distinct hand positions and the claimed tile on top of its pile all end up in the chi. */
  lemma {:induction false} SelectChiTileKeepsTiles(s: AppState, index: int)
    requires ChiPick(s, index) && |s.chiSelection.value.pickedTiles| >= 1
    requires var sel := s.chiSelection.value;
             ValidChi(sel.discardTile.value, ChiMeldFor(s, index), sel.possibleSequences)
    requires var sel := s.chiSelection.value;
             && PicksFromHand(s.input.hand, sel.pickedTiles, sel.pickedTileIndices) && AllWellFormed(s.input.hand)
             && |Pile(s, sel.discardKey)| > 0 && Last(Pile(s, sel.discardKey)) == sel.discardTile.value
    ensures Tally(OnSelectChiTile(s, index)) == Tally(s)
  {
    var sel := s.chiSelection.value;
    var d := sel.discardTile.value;
    var picks := sel.pickedTiles + [s.input.hand[index]];
    var tiles := ChiMeldFor(s, index);
    var m := ClaimMeld(s, sel.discardKey, picks, Chii(tiles));
    assert multiset(tiles) == multiset(picks) + multiset{d};
    PickExtends(s.input.hand, sel.pickedTiles, sel.pickedTileIndices, index);
    calc {
      Tally(OnSelectChiTile(s, index));
      { SelectChiTileClaims(s, index); }
      Tally(m.(chiSelection := None));
      { SameTilesTally(m.(chiSelection := None), m); }
      Tally(m);
      { ClaimMeldKeepsTiles(s, sel.discardKey, picks, sel.pickedTileIndices + [index], Chii(tiles)); }
      Tally(s);
    }
  }

  /** The seven runs are `a, a+1, a+2` for `a` from 1 to 7. */
  lemma {:induction false} RunsAreRuns(x: seq<int>)
    requires x in Runs
    ensures exists a :: 1 <= a <= 7 && x == Run(a)
  {
    var k :| 0 <= k < |Runs| && Runs[k] == x;
    assert x == Run(k + 1);
  }

  /**
   * A chi formed from a selection whose offered runs came from call-chi is
   * a real run: all three tiles in the claimed tile's suit, and their
   * numbers in order are `a, a+1, a+2` for some `a` with the claimed tile
   * among them.
   */
  lemma {:induction false} ChiIsRun(s: AppState, index: int)
    requires ChiPick(s, index) && |s.chiSelection.value.pickedTiles| == 1
    requires OfferedRuns(s.chiSelection.value)
    requires var sel := s.chiSelection.value;
             ValidChi(sel.discardTile.value, ChiMeldFor(s, index), sel.possibleSequences)
    ensures var d := s.chiSelection.value.discardTile.value;
            var tiles := ChiMeldFor(s, index);
            && |tiles| == 3 && (forall i :: 0 <= i < 3 ==> tiles[i].suit == d.suit)
            && exists a :: 1 <= a <= 7 && a <= d.n <= a + 2 && SortBy(Numbers(tiles), Ascending) == Run(a)
  {
    var sel := s.chiSelection.value;
    var d := sel.discardTile.value;
    var tiles := ChiMeldFor(s, index);
    var sorted := SortBy(Numbers(tiles), Ascending);
    var k :| 0 <= k < |sel.possibleSequences| && RunMatches(sel.possibleSequences[k], sorted);
    var x := sel.possibleSequences[k];
    RunsAreRuns(x);
    var a :| 1 <= a <= 7 && x == Run(a);
    assert |sorted| == 3;
    assert sorted == x;
    assert d.n in x;
  }

  // ---------------------------------------------------------------------
  // Pon
  // ---------------------------------------------------------------------

  /** call-pon applies: a pending discard on top of a non-empty pile, two hand tiles of its kind, outside riichi. */
  predicate PonCallable(s: AppState)
  {
    && s.reactionPhase && s.discardCheck.Some? && |Pile(s, s.discardCheck.value.fromPlayer)| > 0
    && CanWatashiPon(s.input.hand, s.discardCheck.value.tile) && !InRiichi(s.handOptions)
  }

  /** call-pon opens a selection on the claimed tile and its pile, with no pick yet; no tile moves. */
  lemma {:induction false} CallPonOpens(s: AppState)
    requires PonCallable(s)
    ensures var r := OnCallPon(s);
            var dc := s.discardCheck.value;
            && r.ponSelection.Some? && r.ponSelection.value.discardTile == Some(dc.tile)
            && r.ponSelection.value.discardKey == dc.fromPlayer
            && PicksFromHand(r.input.hand, r.ponSelection.value.pickedTiles, r.ponSelection.value.pickedTileIndices)
            && SameTiles(r, s)
  {
  }

  /** In riichi the claim is refused with the hand-locked message. */
  lemma {:induction false} CallPonInRiichi(s: AppState)
    requires s.reactionPhase && s.discardCheck.Some? && |Pile(s, s.discardCheck.value.fromPlayer)| > 0
    requires CanWatashiPon(s.input.hand, s.discardCheck.value.tile) && InRiichi(s.handOptions)
    ensures var r := OnCallPon(s);
            r.ponSelection == s.ponSelection && r.riichiErrorMessage == Some(RiichiHandLocked) && SameTiles(r, s)
  {
  }

  /** Without a pending discard, or without two hand tiles of its kind, call-pon does nothing. */
  lemma {:induction false} CallPonIgnored(s: AppState)
    requires !s.reactionPhase || s.discardCheck.None? || |Pile(s, s.discardCheck.value.fromPlayer)| == 0
             || !CanWatashiPon(s.input.hand, s.discardCheck.value.tile)
    ensures OnCallPon(s) == s
  {
  }

  /** A pick on an open pon selection with a claimed tile, at a hand position not yet picked. */
  predicate PonPick(s: AppState, index: int)
  {
    && s.ponSelection.Some? && s.ponSelection.value.discardTile.Some?
    && index !in s.ponSelection.value.pickedTileIndices && 0 <= index < |s.input.hand|
  }

  lemma {:induction false} SelectPonTileIgnored(s: AppState, index: int)
    requires !PonPick(s, index)
    ensures OnSelectPonTile(s, index) == s
  {
  }

  /** The first pick is recorded; the picks stay drawn from distinct hand positions. */
  lemma {:induction false} SelectPonTileRecords(s: AppState, index: int)
    requires PonPick(s, index) && |s.ponSelection.value.pickedTiles| < 1
    requires var sel := s.ponSelection.value; PicksFromHand(s.input.hand, sel.pickedTiles, sel.pickedTileIndices)
    ensures var r := OnSelectPonTile(s, index);
            var sel := s.ponSelection.value;
            && r.ponSelection.Some? && r.ponSelection.value.pickedTiles == sel.pickedTiles + [s.input.hand[index]]
            && PicksFromHand(r.input.hand, r.ponSelection.value.pickedTiles, r.ponSelection.value.pickedTileIndices)
            && SameTiles(r, s)
  {
    var sel := s.ponSelection.value;
    PickExtends(s.input.hand, sel.pickedTiles, sel.pickedTileIndices, index);
  }

  /** The tiles the pon would be made of once this pick is in: the picks, then the claimed tile. */
  function PonMeldFor(s: AppState, index: int): seq<Tile>
    requires PonPick(s, index)
  {
    var sel := s.ponSelection.value;
    sel.pickedTiles + [s.input.hand[index]] + [sel.discardTile.value]
  }

  /** A second pick of another kind drops the selection with a message; no tile moves. */
  lemma {:induction false} SelectPonTileRejects(s: AppState, index: int)
    requires PonPick(s, index) && |s.ponSelection.value.pickedTiles| >= 1
    requires var d := s.ponSelection.value.discardTile.value; !AllOfKind(PonMeldFor(s, index), d.suit, d.n)
    ensures var r := OnSelectPonTile(s, index);
            r.ponSelection.None? && !r.reactionPhase && r.ponErrorMessage == Some(NotPon) && SameTiles(r, s)
  {
  }

  /** A second pick of the claimed tile's kind forms the pon through the claimed-meld step. */
  lemma {:induction false} SelectPonTileClaims(s: AppState, index: int)
    requires PonPick(s, index) && |s.ponSelection.value.pickedTiles| >= 1
    requires var d := s.ponSelection.value.discardTile.value; AllOfKind(PonMeldFor(s, index), d.suit, d.n)
    ensures var sel := s.ponSelection.value;
            OnSelectPonTile(s, index)
              == ClaimMeld(s, sel.discardKey, sel.pickedTiles + [s.input.hand[index]],
                           Pon(PonMeldFor(s, index), Some(PonIndex(s.discardCheck)))).(ponSelection := None)
  {
  }

  /**
   * The formed pon: three tiles of the claimed tile's kind, the claimed one
   * last, marked with the position of the seat it came from (kamicha 0,
   * toimen 1, shimocha 2); the observed player must now discard.
   */
  lemma {:induction false} SelectPonTileForms(s: AppState, index: int)
    requires PonPick(s, index) && |s.ponSelection.value.pickedTiles| == 1
    requires var d := s.ponSelection.value.discardTile.value; AllOfKind(PonMeldFor(s, index), d.suit, d.n)
    ensures var r := OnSelectPonTile(s, index);
            var sel := s.ponSelection.value;
            var d := sel.discardTile.value;
            && |r.input.melds| == |s.input.melds| + 1 && r.input.melds[..|s.input.melds|] == s.input.melds
            && var m := r.input.melds[|s.input.melds|];
            && m.Pon? && |m.tiles| == 3 && AllOfKind(m.tiles, d.suit, d.n) && m.tiles[2] == d
            && (s.discardCheck.Some? && s.discardCheck.value.fromPlayer == Kamicha ==> m.discardIndex == Some(0))
            && (s.discardCheck.Some? && s.discardCheck.value.fromPlayer == Toimen ==> m.discardIndex == Some(1))
            && (s.discardCheck.Some? && s.discardCheck.value.fromPlayer == Shimocha ==> m.discardIndex == Some(2))
            && Pile(r, sel.discardKey) == DropLast(Pile(s, sel.discardKey))
            && r.ponSelection.None? && !r.reactionPhase && r.mustDiscard && r.currentTurn == Watashi
  {
    SelectPonTileClaims(s, index);
  }

  /** The picks at distinct hand positions and the claimed tile on top of its pile all end up in the pon. */
  lemma {:induction false} SelectPonTileKeepsTiles(s: AppState, index: int)
    requires PonPick(s, index) && |s.ponSelection.value.pickedTiles| >= 1
    requires var d := s.ponSelection.value.discardTile.value; AllOfKind(PonMeldFor(s, index), d.suit, d.n)
    requires var sel := s.ponSelection.value;
             && PicksFromHand(s.input.hand, sel.pickedTiles, sel.pickedTileIndices) && AllWellFormed(s.input.hand)
             && |Pile(s, sel.discardKey)| > 0 && Last(Pile(s, sel.discardKey)) == sel.discardTile.value
    ensures Tally(OnSelectPonTile(s, index)) == Tally(s)
  {
    var sel := s.ponSelection.value;
    var picks := sel.pickedTiles + [s.input.hand[index]];
    var meld := Pon(PonMeldFor(s, index), Some(PonIndex(s.discardCheck)));
    var m := ClaimMeld(s, sel.discardKey, picks, meld);
    SelectPonTileClaims(s, index);
    assert meld.tiles == picks + [sel.discardTile.value];
    PickExtends(s.input.hand, sel.pickedTiles, sel.pickedTileIndices, index);
    ClaimMeldKeepsTiles(s, sel.discardKey, picks, sel.pickedTileIndices + [index], meld);
    SameTilesTally(m.(ponSelection := None), m);
  }

  // ---------------------------------------------------------------------
  // Kan
  // ---------------------------------------------------------------------

  /** The held tile, as a bag of at most one tile. */
  function HeldBag(i: Input): multiset<Tile>
  {
    if i.drawnTile.Some? then multiset{i.drawnTile.value} else multiset{}
  }

  /** Every tile outside the observed player's hand, held tile and melds is where it was. */
  predicate SameOutside(r: AppState, s: AppState)
  {
    && r.wall == s.wall && r.wanpaiKan == s.wanpaiKan && r.wanpaiDora == s.wanpaiDora
    && r.wanpaiUradora == s.wanpaiUradora && r.wanpaiHaitei == s.wanpaiHaitei
    && r.kamichaHand == s.kamichaHand && r.toimenHand == s.toimenHand && r.shimochaHand == s.shimochaHand
    && r.watashiDiscards == s.watashiDiscards && r.kamichaDiscards == s.kamichaDiscards
    && r.toimenDiscards == s.toimenDiscards && r.shimochaDiscards == s.shimochaDiscards
  }

  /** What the observed player gains, the round gains. */
  lemma {:induction false} HeldShift(r: AppState, s: AppState, x: multiset<Tile>)
    requires SameOutside(r, s) && Held(r) == Held(s) + x
    ensures Tally(r) == Tally(s) + x
  {
    assert Stock(r) == Stock(s) && Rivals(r) == Rivals(s) && Piles(r) == Piles(s);
  }

  /** With hand and held tile unchanged, the round's bag changes exactly as the melds' bag does. */
  lemma {:induction false} MeldsOnlyTally(r: AppState, s: AppState)
    requires SameOutside(r, s) && r.input.hand == s.input.hand && r.input.drawnTile == s.input.drawnTile
    ensures Tally(r) + multiset(MeldTiles(s.input.melds)) == Tally(s) + multiset(MeldTiles(r.input.melds))
  {
    assert Stock(r) == Stock(s) && Rivals(r) == Rivals(s) && Piles(r) == Piles(s);
    assert multiset(FullHand(r.input)) == multiset(FullHand(s.input));
  }

  /** The observed player's tiles: hand, held tile, melds. */
  lemma {:induction false} HeldParts(s: AppState)
    ensures Held(s) == multiset(s.input.hand) + HeldBag(s.input) + multiset(MeldTiles(s.input.melds))
  {
  }

  /** Bag arithmetic: the same bag taken off both sides. */
  lemma {:induction false} Cancel(a: multiset<Tile>, b: multiset<Tile>, x: multiset<Tile>)
    requires a + x == b + x
    ensures a == b
  {
    forall e
      ensures a[e] == b[e]
    {
      assert (a + x)[e] == (b + x)[e];
    }
  }

  /** The tiles of melds laid side by side are the tiles of each part. */
  lemma {:induction false} MeldTilesConcat(a: seq<Meld>, b: seq<Meld>)
    ensures MeldTiles(a + b) == MeldTiles(a) + MeldTiles(b)
    decreases |b|
  {
    if b == [] {
      assert a + b == a;
    } else {
      var init := b[..|b| - 1];
      assert a + b == (a + init) + [b[|b| - 1]];
      assert b == init + [b[|b| - 1]];
      MeldTilesAppend(a + init, b[|b| - 1]);
      MeldTilesAppend(init, b[|b| - 1]);
      MeldTilesConcat(a, init);
    }
  }

  /**
   * The kan draw: the first kan reserve tile, when there is one, becomes
   * the held tile (replacing any held tile), the first live-wall tile moves
   * to the haitei reserve, and a dora indicator is revealed while the dora
   * reserve lasts.
   */
  lemma {:induction false} KanDrawSpec(s: AppState)
    ensures var r := KanDraw(s);
            && r.input.drawnTile == (if |s.wanpaiKan| > 0 then Some(s.wanpaiKan[0]) else None)
            && (|s.wall| > 0 ==> |r.wall| == |s.wall| - 1 && r.wanpaiHaitei == s.wanpaiHaitei + [s.wall[0]])
            && |r.input.dora| == |s.input.dora| + (if |s.input.dora| < |s.wanpaiDora| then 1 else 0)
            && r.input.hand == s.input.hand && r.input.melds == s.input.melds
  {
  }

  lemma {:induction false} KanDrawWall(s: AppState)
    ensures var r := KanDraw(s); multiset(r.wall) + multiset(r.wanpaiHaitei) == multiset(s.wall) + multiset(s.wanpaiHaitei)
  {
    if |s.wall| > 0 {
      assert s.wall == [s.wall[0]] + s.wall[1..];
    }
  }

  lemma {:induction false} KanDrawReserve(s: AppState)
    ensures var r := KanDraw(s); multiset(r.wanpaiKan) + HeldBag(r.input) == multiset(s.wanpaiKan)
  {
    if |s.wanpaiKan| > 0 {
      assert s.wanpaiKan == [s.wanpaiKan[0]] + s.wanpaiKan[1..];
    }
  }

  lemma {:induction false} KanDrawHeld(s: AppState)
    ensures var r := KanDraw(s); Held(r) + HeldBag(s.input) == Held(s) + HeldBag(r.input)
  {
  }

  lemma {:induction false} KanDrawOthers(s: AppState)
    ensures var r := KanDraw(s);
            && r.wanpaiDora == s.wanpaiDora && r.wanpaiUradora == s.wanpaiUradora
            && Rivals(r) == Rivals(s) && Piles(r) == Piles(s)
  {
  }

  lemma {:induction false} KanDrawStock(s: AppState)
    ensures Stock(KanDraw(s)) + HeldBag(KanDraw(s).input) == Stock(s)
  {
    var r := KanDraw(s);
    KanDrawWall(s);
    KanDrawReserve(s);
    assert r.wanpaiDora == s.wanpaiDora && r.wanpaiUradora == s.wanpaiUradora;
    calc {
      Stock(r) + HeldBag(r.input);
      (multiset(r.wall) + multiset(r.wanpaiHaitei)) + (multiset(r.wanpaiKan) + HeldBag(r.input))
        + multiset(r.wanpaiDora) + multiset(r.wanpaiUradora);
      (multiset(s.wall) + multiset(s.wanpaiHaitei)) + multiset(s.wanpaiKan)
        + multiset(s.wanpaiDora) + multiset(s.wanpaiUradora);
      Stock(s);
    }
  }

  /** The kan draw only moves tiles, except a held tile it replaces, which leaves the round. */
  lemma {:induction false} KanDrawMoves(s: AppState)
    ensures Tally(KanDraw(s)) + HeldBag(s.input) == Tally(s)
  {
    var r := KanDraw(s);
    KanDrawStock(s);
    KanDrawHeld(s);
    KanDrawOthers(s);
    Regroup(Stock(r), Held(r), Rivals(r), Piles(r), Stock(s), Held(s), HeldBag(s.input), HeldBag(r.input));
  }

  /** Bag arithmetic: a tile moved from the stock to the hand, with the hand losing another. */
  lemma {:induction false} Regroup(st: multiset<Tile>, he: multiset<Tile>, ri: multiset<Tile>, pi: multiset<Tile>,
                                   st0: multiset<Tile>, he0: multiset<Tile>, lost: multiset<Tile>, moved: multiset<Tile>)
    requires st + moved == st0 && he + lost == he0 + moved
    ensures st + he + ri + pi + lost == st0 + he0 + ri + pi
  {
    forall e
      ensures (st + he + ri + pi + lost)[e] == (st0 + he0 + ri + pi)[e]
    {
      assert (st + moved)[e] == st0[e] && (he + lost)[e] == (he0 + moved)[e];
    }
  }

  /**
   * Shouminkan: the pon of the held tile's kind leaves its place and comes
   * back last as an open kan of four tiles of that kind, keeping the pon's
   * claimed position; the kan draw follows, and the round ends exactly when
   * the fifth dora indicator is out.
   */
  lemma {:induction false} UpgradePonSpec(s: AppState, k: int)
    requires s.input.drawnTile.Some? && 0 <= k < |s.input.melds| && UpgradablePon(s.input.melds[k], s.input.drawnTile.value)
    ensures var r := UpgradePon(s, k);
            var t := s.input.drawnTile.value;
            var pon := s.input.melds[k];
            && r.input.melds[..|r.input.melds| - 1] == s.input.melds[..k] + s.input.melds[k + 1..]
            && |r.input.melds| == |s.input.melds|
            && var kan := r.input.melds[|r.input.melds| - 1];
            && kan.Kan? && |kan.tiles| == 4 && AllOfKind(kan.tiles, t.suit, t.n) && !kan.closed
            && kan.discardIndex == pon.discardIndex && kan.shouminkan == Some(true)
            && r.input.drawnTile == (if |s.wanpaiKan| > 0 then Some(s.wanpaiKan[0]) else None)
            && (r.roundOver <==> |r.input.dora| == 5) && r.currentTurn == Watashi && r.kanSelection.None?
  {
  }

  /** Turning a pon into a kan adds exactly the held tile to the melds. */
  lemma {:induction false} PonToKanMelds(melds: seq<Meld>, k: int, kan: Meld)
    requires 0 <= k < |melds|
    ensures multiset(MeldTiles(melds[..k] + melds[k + 1..] + [kan])) + multiset(melds[k].tiles)
              == multiset(MeldTiles(melds)) + multiset(kan.tiles)
  {
    var pon := melds[k];
    assert melds == melds[..k] + [pon] + melds[k + 1..];
    MeldTilesConcat(melds[..k] + [pon], melds[k + 1..]);
    MeldTilesAppend(melds[..k], pon);
    MeldTilesAppend(melds[..k] + melds[k + 1..], kan);
    MeldTilesConcat(melds[..k], melds[k + 1..]);
  }

  /** The held tile is now also in the kan (the kan draw then replaces the held tile). */
  lemma {:induction false} PonToKanTiles(s: AppState, k: int)
    requires s.input.drawnTile.Some? && 0 <= k < |s.input.melds| && s.input.melds[k].Pon?
    ensures Tally(PonToKan(s, k)) == Tally(s) + multiset{s.input.drawnTile.value}
  {
    var t := s.input.drawnTile.value;
    var pon := s.input.melds[k];
    var kan := Kan(pon.tiles + [t], pon.discardIndex, false, Some(true));
    var s1 := PonToKan(s, k);
    assert s1.input.melds == s.input.melds[..k] + s.input.melds[k + 1..] + [kan];
    PonToKanMelds(s.input.melds, k, kan);
    assert multiset(kan.tiles) == multiset(pon.tiles) + multiset{t};
    MeldsOnlyTally(s1, s);
    var m0 := multiset(MeldTiles(s.input.melds));
    var m1 := multiset(MeldTiles(s1.input.melds));
    Cancel(m1, m0 + multiset{t}, multiset(pon.tiles));
    Cancel(Tally(s1), Tally(s) + multiset{t}, m0);
  }

  /** The upgrade's closing steps move no tile beyond the kan draw. */
  lemma {:induction false} UpgradePonDraws(s: AppState, k: int)
    requires s.input.drawnTile.Some? && 0 <= k < |s.input.melds| && s.input.melds[k].Pon?
    ensures SameTiles(UpgradePon(s, k), KanDraw(PonToKan(s, k)))
  {
  }

  /** Shouminkan creates and loses no tile: the held tile moves into the kan and the kan draw takes its place. */
  lemma {:induction false} UpgradePonKeepsTiles(s: AppState, k: int)
    requires s.input.drawnTile.Some? && 0 <= k < |s.input.melds| && s.input.melds[k].Pon?
    ensures Tally(UpgradePon(s, k)) == Tally(s)
  {
    var t := s.input.drawnTile.value;
    var s1 := PonToKan(s, k);
    PonToKanTiles(s, k);
    assert HeldBag(s1.input) == multiset{t};
    KanDrawMoves(s1);
    UpgradePonDraws(s, k);
    SameTilesTally(UpgradePon(s, k), KanDraw(s1));
    Cancel(Tally(KanDraw(s1)), Tally(s), multiset{t});
  }

  /** On the observed player's turn a held tile that upgrades a pon does so at once, on the first such pon. */
  lemma {:induction false} CallKanDrawnUpgrades(s: AppState)
    requires s.currentTurn == Watashi && s.input.drawnTile.Some? && FindPon(s.input.melds, s.input.drawnTile.value) >= 0
    ensures var k := FindPon(s.input.melds, s.input.drawnTile.value);
            && UpgradablePon(s.input.melds[k], s.input.drawnTile.value)
            && (forall j :: 0 <= j < k ==> !UpgradablePon(s.input.melds[j], s.input.drawnTile.value))
            && OnCallKanDrawn(s) == UpgradePon(s, k)
  {
  }

  /** Otherwise three hand tiles of the held tile's kind open a kan selection on the held tile. */
  lemma {:induction false} CallKanDrawnOffersHeld(s: AppState)
    requires s.currentTurn == Watashi && s.input.drawnTile.Some? && FindPon(s.input.melds, s.input.drawnTile.value) < 0
    requires CanWatashiOpenKan(s.input.hand, s.input.drawnTile.value)
    ensures var r := OnCallKanDrawn(s);
            && r.kanSelection.Some? && r.kanSelection.value.discardTile == s.input.drawnTile
            && r.kanSelection.value.discardKey.None? && r.kanSelection.value.pickedTiles == []
            && r.kanSelection.value.pickedTileIndices == [] && SameTiles(r, s)
  {
  }

  /** Otherwise four hand tiles of one kind open a concealed kan selection; with neither, nothing changes. */
  lemma {:induction false} CallKanDrawnOffersConcealed(s: AppState)
    requires s.currentTurn == Watashi
    requires s.input.drawnTile.None? || (FindPon(s.input.melds, s.input.drawnTile.value) < 0
                                         && !CanWatashiOpenKan(s.input.hand, s.input.drawnTile.value))
    ensures var r := OnCallKanDrawn(s);
            && (HasFourOfAKind(s.input.hand) ==>
                  r.kanSelection.Some? && r.kanSelection.value.discardTile.None? && r.kanSelection.value.discardKey.None?
                  && r.kanSelection.value.pickedTiles == [] && r.kanSelection.value.pickedTileIndices == [])
            && (!HasFourOfAKind(s.input.hand) ==> r == s)
            && SameTiles(r, s)
  {
    if HasFourOfAKind(s.input.hand) {
    } else {
    }
  }

  /** Outside the observed player's turn call-kan-drawn does nothing. */
  lemma {:induction false} CallKanDrawnNotYourTurn(s: AppState)
    requires s.currentTurn != Watashi
    ensures OnCallKanDrawn(s) == s
  {
  }

  /** call-kan-discard opens a kan selection on a pending discard when three hand tiles match it, outside riichi. */
  lemma {:induction false} CallKanDiscardOpens(s: AppState)
    requires s.reactionPhase && s.discardCheck.Some? && CanWatashiOpenKan(s.input.hand, s.discardCheck.value.tile)
    requires !InRiichi(s.handOptions)
    ensures var r := OnCallKanDiscard(s);
            var dc := s.discardCheck.value;
            && r.kanSelection.Some? && r.kanSelection.value.discardTile == Some(dc.tile)
            && r.kanSelection.value.discardKey == Some(dc.fromPlayer) && r.kanSelection.value.pickedTiles == []
            && r.kanSelection.value.pickedTileIndices == [] && SameTiles(r, s)
  {
  }

  /** In riichi the claim is refused with the hand-locked message. */
  lemma {:induction false} CallKanDiscardInRiichi(s: AppState)
    requires s.reactionPhase && s.discardCheck.Some? && CanWatashiOpenKan(s.input.hand, s.discardCheck.value.tile)
    requires InRiichi(s.handOptions)
    ensures var r := OnCallKanDiscard(s);
            r.kanSelection == s.kanSelection && r.riichiErrorMessage == Some(RiichiHandLocked) && SameTiles(r, s)
  {
  }

  /** Without a pending discard three hand tiles match, call-kan-discard does nothing. */
  lemma {:induction false} CallKanDiscardIgnored(s: AppState)
    requires !s.reactionPhase || s.discardCheck.None? || !CanWatashiOpenKan(s.input.hand, s.discardCheck.value.tile)
    ensures OnCallKanDiscard(s) == s
  {
  }

  /** A pick on an open kan selection at a hand position not yet picked. */
  predicate KanPickAt(s: AppState, index: int)
  {
    && s.kanSelection.Some? && index !in s.kanSelection.value.pickedTileIndices && 0 <= index < |s.input.hand|
  }

  lemma {:induction false} SelectKanTileIgnored(s: AppState, index: int)
    requires !KanPickAt(s, index)
    ensures OnSelectKanTile(s, index) == s
  {
  }

  /** While fewer hand tiles than needed are in, the pick is recorded; the picks stay drawn from distinct positions. */
  lemma {:induction false} SelectKanTileRecords(s: AppState, index: int)
    requires KanPickAt(s, index) && |s.kanSelection.value.pickedTiles| + 1 < Required(s.kanSelection.value)
    requires var sel := s.kanSelection.value; PicksFromHand(s.input.hand, sel.pickedTiles, sel.pickedTileIndices)
    ensures var r := OnSelectKanTile(s, index);
            var sel := s.kanSelection.value;
            && r.kanSelection.Some? && r.kanSelection.value.pickedTiles == sel.pickedTiles + [s.input.hand[index]]
            && PicksFromHand(r.input.hand, r.kanSelection.value.pickedTiles, r.kanSelection.value.pickedTileIndices)
            && SameTiles(r, s)
  {
    var sel := s.kanSelection.value;
    PickExtends(s.input.hand, sel.pickedTiles, sel.pickedTileIndices, index);
  }

  /** The last needed pick always makes four tiles, so the size check never fires on a selection built pick by pick. */
  lemma {:induction false} KanTilesFour(sel: KanSelection, picks: seq<Tile>)
    requires |picks| == Required(sel)
    ensures |KanTiles(sel, picks)| == 4
  {
  }

  /** Four tiles not all of one kind drop the selection with a message; no tile moves. */
  lemma {:induction false} SelectKanTileRejects(s: AppState, index: int)
    requires KanPickAt(s, index) && |s.kanSelection.value.pickedTiles| + 1 == Required(s.kanSelection.value)
    requires var tiles := KanTiles(s.kanSelection.value, s.kanSelection.value.pickedTiles + [s.input.hand[index]]);
             |tiles| == 4 && !AllOfKind(tiles, tiles[0].suit, tiles[0].n)
    ensures var r := OnSelectKanTile(s, index);
            r.kanSelection.None? && !r.reactionPhase && r.kanErrorMessage == Some(NotKan) && SameTiles(r, s)
  {
  }

  /** Four tiles of one kind form the kan. */
  lemma {:induction false} SelectKanTileForms(s: AppState, index: int)
    requires KanPickAt(s, index) && |s.kanSelection.value.pickedTiles| + 1 >= Required(s.kanSelection.value)
    requires var tiles := KanTiles(s.kanSelection.value, s.kanSelection.value.pickedTiles + [s.input.hand[index]]);
             |tiles| == 4 && AllOfKind(tiles, tiles[0].suit, tiles[0].n)
    ensures var sel := s.kanSelection.value;
            OnSelectKanTile(s, index) == FormKan(s, sel, sel.pickedTiles + [s.input.hand[index]])
  {
  }

  /** The formed kan: the meld of the picks and the outside tile is added last, closed exactly when no pile was claimed, and the picks leave the hand. */
  lemma {:induction false} FormKanMeld(s: AppState, sel: KanSelection, picks: seq<Tile>)
    ensures var r := FormKan(s, sel, picks);
            && |r.input.melds| == |s.input.melds| + 1 && r.input.melds[..|s.input.melds|] == s.input.melds
            && var m := r.input.melds[|s.input.melds|];
            && m.Kan? && m.tiles == KanTiles(sel, picks) && (m.closed <==> sel.discardKey.None?)
            && r.input.hand == RemovePicked(s.input.hand, picks)
  {
    var l := KanLay(s, sel, picks);
    assert KanMeld(s, sel, picks).input == l.input;
  }

  /**
   * After the kan the kan reserve's first tile is the new held tile, the
   * rinshan flag rises, the turn stays with the observed player, and the
   * round is over exactly when it already was or the fifth dora indicator
   * is showing.
   */
  lemma {:induction false} FormKanDraw(s: AppState, sel: KanSelection, picks: seq<Tile>)
    ensures var r := FormKan(s, sel, picks);
            && r.input.drawnTile == (if |s.wanpaiKan| > 0 then Some(s.wanpaiKan[0]) else None)
            && r.rinshanKaihouPhase && !r.ippatsuPhase && r.currentTurn == Watashi && r.kanSelection.None?
            && (r.roundOver <==> s.roundOver || |r.input.dora| == 5)
  {
    KanMeldFrame(s, sel, picks);
    var m := KanMeld(s, sel, picks);
    assert KanDraw(m).roundOver == m.roundOver;
  }

  /** Laying the kan down keeps the kan reserve and dora, and hands the turn to the observed player. */
  lemma {:induction false} KanMeldFrame(s: AppState, sel: KanSelection, picks: seq<Tile>)
    ensures var m := KanMeld(s, sel, picks);
            && m.wanpaiKan == s.wanpaiKan && m.wanpaiDora == s.wanpaiDora && m.input.dora == s.input.dora
            && m.currentTurn == Watashi && !m.ippatsuPhase && m.kanSelection.None? && m.roundOver == s.roundOver
  {
    var l := KanLay(s, sel, picks);
    if sel.discardKey.Some? {
      WithPileFrame(l, sel.discardKey.value, DropLast(Pile(l, sel.discardKey.value)));
    }
  }

  /** The finishing steps after the meld is laid down move no tile beyond the kan draw. */
  lemma {:induction false} FormKanDraws(s: AppState, sel: KanSelection, picks: seq<Tile>)
    ensures SameTiles(FormKan(s, sel, picks), KanDraw(KanMeld(s, sel, picks)))
  {
  }

  /** The tile a kan selection takes from outside the hand, as a bag. */
  function Outside(sel: KanSelection): multiset<Tile>
  {
    if sel.discardTile.Some? then multiset{sel.discardTile.value} else multiset{}
  }

  lemma {:induction false} KanLayHeld(s: AppState, sel: KanSelection, picks: seq<Tile>, idx: seq<int>)
    requires PicksFromHand(s.input.hand, picks, idx) && AllWellFormed(s.input.hand)
    ensures Held(KanLay(s, sel, picks)) == Held(s) + Outside(sel)
  {
    var l := KanLay(s, sel, picks);
    var kan := l.input.melds[|s.input.melds|];
    assert l.input.melds == s.input.melds + [kan];
    assert multiset(kan.tiles) == multiset(picks) + Outside(sel);
    TakePicks(s.input.hand, picks, idx);
    MeldTilesAppend(s.input.melds, kan);
    HeldParts(l);
    HeldParts(s);
    KanBags(multiset(l.input.hand), multiset(picks), multiset(s.input.hand), HeldBag(s.input),
            multiset(MeldTiles(s.input.melds)), Outside(sel));
  }

  /** Bag arithmetic: picks leave the hand and join the meld with the outside tile. */
  lemma {:induction false} KanBags(h: multiset<Tile>, p: multiset<Tile>, h0: multiset<Tile>, b: multiset<Tile>,
                                   m: multiset<Tile>, o: multiset<Tile>)
    requires h + p == h0
    ensures h + b + (m + (p + o)) == h0 + b + m + o
  {
  }

  /** Laying the kan down moves the picks into the meld and adds the outside tile; the held tile stays. */
  lemma {:induction false} KanLayTiles(s: AppState, sel: KanSelection, picks: seq<Tile>, idx: seq<int>)
    requires PicksFromHand(s.input.hand, picks, idx) && AllWellFormed(s.input.hand)
    ensures Tally(KanLay(s, sel, picks)) == Tally(s) + Outside(sel)
    ensures KanLay(s, sel, picks).input.drawnTile == s.input.drawnTile
  {
    KanLayHeld(s, sel, picks, idx);
    HeldShift(KanLay(s, sel, picks), s, Outside(sel));
  }

  /** Taking the top tile off a pile takes it out of the round's bag and changes nothing else. */
  lemma {:induction false} PopTally(s: AppState, key: Seat)
    requires |Pile(s, key)| > 0
    ensures var r := WithPile(s, key, DropLast(Pile(s, key)));
            Tally(r) + multiset{Last(Pile(s, key))} == Tally(s) && r.input == s.input
  {
    var r := WithPile(s, key, DropLast(Pile(s, key)));
    PilesPop(s, key);
    WithPileFrame(s, key, DropLast(Pile(s, key)));
    assert Stock(r) == Stock(s) && Held(r) == Held(s) && Rivals(r) == Rivals(s);
  }

  /** A concealed kan adds its outside tile, if any, to the round; the held tile stays. */
  lemma {:induction false} KanMeldClosedTiles(s: AppState, sel: KanSelection, picks: seq<Tile>, idx: seq<int>)
    requires sel.discardKey.None?
    requires PicksFromHand(s.input.hand, picks, idx) && AllWellFormed(s.input.hand)
    ensures var m := KanMeld(s, sel, picks);
            m.input.drawnTile == s.input.drawnTile && Tally(m) == Tally(s) + Outside(sel)
  {
    KanLayTiles(s, sel, picks, idx);
  }

  /** An open kan on the top tile of the claimed pile moves that tile and the picks into the meld. */
  lemma {:induction false} KanMeldOpenTiles(s: AppState, sel: KanSelection, picks: seq<Tile>, idx: seq<int>)
    requires sel.discardKey.Some? && |Pile(s, sel.discardKey.value)| > 0
    requires sel.discardTile == Some(Last(Pile(s, sel.discardKey.value)))
    requires PicksFromHand(s.input.hand, picks, idx) && AllWellFormed(s.input.hand)
    ensures var m := KanMeld(s, sel, picks);
            m.input.drawnTile == s.input.drawnTile && Tally(m) == Tally(s)
  {
    var key := sel.discardKey.value;
    var d := sel.discardTile.value;
    var l := KanLay(s, sel, picks);
    KanLayTiles(s, sel, picks, idx);
    assert Pile(l, key) == Pile(s, key);
    PopTally(l, key);
    Cancel(Tally(KanMeld(s, sel, picks)), Tally(s), multiset{d});
  }

  /**
   * Tiles through a concealed kan: the outside tile, if any, joins the
   * round and the held tile, if any, leaves it, replaced by the kan draw.
   */
  lemma {:induction false} FormKanClosedTiles(s: AppState, sel: KanSelection, picks: seq<Tile>, idx: seq<int>)
    requires sel.discardKey.None?
    requires PicksFromHand(s.input.hand, picks, idx) && AllWellFormed(s.input.hand)
    ensures Tally(FormKan(s, sel, picks)) + HeldBag(s.input) == Tally(s) + Outside(sel)
  {
    var m := KanMeld(s, sel, picks);
    KanMeldClosedTiles(s, sel, picks, idx);
    KanDrawMoves(m);
    FormKanDraws(s, sel, picks);
    SameTilesTally(FormKan(s, sel, picks), KanDraw(m));
  }

  /** Tiles through an open kan: the claimed tile moves into the meld; a held tile would leave the round. */
  lemma {:induction false} FormKanOpenTiles(s: AppState, sel: KanSelection, picks: seq<Tile>, idx: seq<int>)
    requires sel.discardKey.Some? && |Pile(s, sel.discardKey.value)| > 0
    requires sel.discardTile == Some(Last(Pile(s, sel.discardKey.value)))
    requires PicksFromHand(s.input.hand, picks, idx) && AllWellFormed(s.input.hand)
    ensures Tally(FormKan(s, sel, picks)) + HeldBag(s.input) == Tally(s)
  {
    var m := KanMeld(s, sel, picks);
    KanMeldOpenTiles(s, sel, picks, idx);
    KanDrawMoves(m);
    FormKanDraws(s, sel, picks);
    SameTilesTally(FormKan(s, sel, picks), KanDraw(m));
  }

  /**
   * As written, a concealed kan of four hand tiles taken while a tile is
   * held loses that tile: the kan draw overwrites it and it goes nowhere.
   */
  lemma {:induction false} FormKanLosesHeld(s: AppState, sel: KanSelection, picks: seq<Tile>, idx: seq<int>)
    requires sel.discardKey.None? && sel.discardTile.None? && s.input.drawnTile.Some?
    requires PicksFromHand(s.input.hand, picks, idx) && AllWellFormed(s.input.hand)
    ensures Tally(FormKan(s, sel, picks)) + multiset{s.input.drawnTile.value} == Tally(s)
    ensures Tally(FormKan(s, sel, picks)) != Tally(s)
  {
    var h := s.input.drawnTile.value;
    FormKanClosedTiles(s, sel, picks, idx);
    assert HeldBag(s.input) == multiset{h} && Outside(sel) == multiset{};
    Shortfall(Tally(FormKan(s, sel, picks)), Tally(s), h);
  }

  /** Bag arithmetic: a bag one tile short of another differs from it. */
  lemma {:induction false} Shortfall(a: multiset<Tile>, b: multiset<Tile>, h: Tile)
    requires a + multiset{h} == b + multiset{}
    ensures a + multiset{h} == b && a != b
  {
    assert (a + multiset{h})[h] == b[h];
  }

  /** A concealed kan that uses the held tile keeps every tile. */
  lemma {:induction false} FormKanUsesHeld(s: AppState, sel: KanSelection, picks: seq<Tile>, idx: seq<int>)
    requires sel.discardKey.None? && sel.discardTile.Some? && sel.discardTile == s.input.drawnTile
    requires PicksFromHand(s.input.hand, picks, idx) && AllWellFormed(s.input.hand)
    ensures Tally(FormKan(s, sel, picks)) == Tally(s)
  {
    FormKanClosedTiles(s, sel, picks, idx);
    Cancel(Tally(FormKan(s, sel, picks)), Tally(s), HeldBag(s.input));
  }

  /**
   * Where the outside tile of a kan selection comes from, as call-kan-drawn
   * and call-kan-discard set it up: nothing, or the held tile, for a
   * concealed kan; the top of the claimed pile, with nothing held, for an
   * open one.
   */
  predicate KanSourced(s: AppState, sel: KanSelection)
  {
    if sel.discardKey.None? then sel.discardTile.None? || sel.discardTile == s.input.drawnTile
    else && s.input.drawnTile.None? && |Pile(s, sel.discardKey.value)| > 0
         && sel.discardTile == Some(Last(Pile(s, sel.discardKey.value)))
  }

  /** The corrected kan keeps an unused held tile in the hand. */
  lemma {:induction false} FormKanKeepingHeldHand(s: AppState, sel: KanSelection, picks: seq<Tile>)
    requires sel.discardTile.None? && s.input.drawnTile.Some?
    ensures var r := Corrected.FormKanKeepingHeld(s, sel, picks);
            var f := FormKan(s, sel, picks);
            && r.input.hand == RemovePicked(s.input.hand, picks) + [s.input.drawnTile.value]
            && Tally(r) == Tally(f) + multiset{s.input.drawnTile.value}
  {
    var h := s.input.drawnTile.value;
    var f := FormKan(s, sel, picks);
    var r := Corrected.FormKanKeepingHeld(s, sel, picks);
    FormKanMeld(s, sel, picks);
    assert r == f.(input := f.input.(hand := f.input.hand + [h]));
    HeldParts(r);
    HeldParts(f);
    HeldShift(r, f, multiset{h});
  }

  /** The corrected kan neither creates nor loses a tile, whatever kind of kan it is. */
  lemma {:induction false} FormKanKeepingHeldKeepsTiles(s: AppState, sel: KanSelection, picks: seq<Tile>, idx: seq<int>)
    requires KanSourced(s, sel)
    requires PicksFromHand(s.input.hand, picks, idx) && AllWellFormed(s.input.hand)
    ensures Tally(Corrected.FormKanKeepingHeld(s, sel, picks)) == Tally(s)
  {
    if sel.discardTile.None? && s.input.drawnTile.Some? {
      FormKanLosesHeld(s, sel, picks, idx);
      FormKanKeepingHeldHand(s, sel, picks);
    } else {
      KeepingHeldIsFormKan(s, sel, picks);
      FormKanKeepsSourcedTiles(s, sel, picks, idx);
    }
  }

  /** With no unused held tile the correction changes nothing. */
  lemma {:induction false} KeepingHeldIsFormKan(s: AppState, sel: KanSelection, picks: seq<Tile>)
    requires sel.discardTile.Some? || s.input.drawnTile.None?
    ensures Corrected.FormKanKeepingHeld(s, sel, picks) == FormKan(s, sel, picks)
  {
  }

  /** With no unused held tile, the kan as written keeps every tile too. */
  lemma {:induction false} FormKanKeepsSourcedTiles(s: AppState, sel: KanSelection, picks: seq<Tile>, idx: seq<int>)
    requires KanSourced(s, sel) && (sel.discardTile.Some? || s.input.drawnTile.None?)
    requires PicksFromHand(s.input.hand, picks, idx) && AllWellFormed(s.input.hand)
    ensures Tally(FormKan(s, sel, picks)) == Tally(s)
  {
    if sel.discardKey.Some? {
      FormKanOpenKeeps(s, sel, picks, idx);
    } else if sel.discardTile.Some? {
      FormKanUsesHeld(s, sel, picks, idx);
    } else {
      FormKanBareKeeps(s, sel, picks, idx);
    }
  }

  /** An open kan taken with nothing held keeps every tile. */
  lemma {:induction false} FormKanOpenKeeps(s: AppState, sel: KanSelection, picks: seq<Tile>, idx: seq<int>)
    requires sel.discardKey.Some? && |Pile(s, sel.discardKey.value)| > 0
    requires sel.discardTile == Some(Last(Pile(s, sel.discardKey.value))) && s.input.drawnTile.None?
    requires PicksFromHand(s.input.hand, picks, idx) && AllWellFormed(s.input.hand)
    ensures Tally(FormKan(s, sel, picks)) == Tally(s)
  {
    FormKanOpenTiles(s, sel, picks, idx);
    Cancel(Tally(FormKan(s, sel, picks)), Tally(s), HeldBag(s.input));
  }

  /** A concealed kan of four hand tiles taken with nothing held keeps every tile. */
  lemma {:induction false} FormKanBareKeeps(s: AppState, sel: KanSelection, picks: seq<Tile>, idx: seq<int>)
    requires sel.discardKey.None? && sel.discardTile.None? && s.input.drawnTile.None?
    requires PicksFromHand(s.input.hand, picks, idx) && AllWellFormed(s.input.hand)
    ensures Tally(FormKan(s, sel, picks)) == Tally(s)
  {
    FormKanClosedTiles(s, sel, picks, idx);
    assert Outside(sel) == HeldBag(s.input);
    Cancel(Tally(FormKan(s, sel, picks)), Tally(s), HeldBag(s.input));
  }

  /** The corrected select-kan-tile differs from the original only on a concealed kan of four hand tiles with a tile held. */
  lemma {:induction false} SelectKanTileFixedAgrees(s: AppState, index: int)
    requires s.kanSelection.None? || s.kanSelection.value.discardTile.Some? || s.input.drawnTile.None?
    ensures Corrected.OnSelectKanTileFixed(s, index) == OnSelectKanTile(s, index)
  {
  }

}
