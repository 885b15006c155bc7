/**
 * What the routing of `src/components/MahjongLayout.tsx` achieves once the
 * reducer has handled the dispatched action: a Next press moves one tile
 * or none, and the two tile-click handlers address every tile of the full
 * hand by its position.
 */
module LayoutProperties {
  import opened Wrappers
  import opened Tiles
  import opened HandInput
  import opened HandResult
  import opened Store
  import opened Reducer
  import opened Layout
  import opened ReducerProperties
  import opened DealProperties
  import Setup

  /** No chi, pon or kan selection is pending. */
  predicate NoSelection(s: AppState)
  {
    s.chiSelection.None? && s.ponSelection.None? && s.kanSelection.None?
  }

  /** The reducer hands each action the layout dispatches to its own case. */
  lemma {:induction false} DispatchedCases(s: AppState, result: Option<Outcome>, i: int, cmp: Comparator)
    ensures Reduce(s, DrawTile, cmp) == OnDrawTile(s)
    ensures Reduce(s, StoreDiscard(result), cmp) == OnStoreDiscard(s, result, cmp)
    ensures Reduce(s, RemoveHandTile(i), cmp) == OnRemoveHandTile(s, i, cmp)
    ensures Reduce(s, DiscardDrawnTile, cmp) == OnDiscardDrawnTile(s)
  {
  }

  /**
   * After a round, a Next press (enabled, since no discard is due) starts
   * the next round: the new table, and every tile of the new set-up dealt.
   */
  lemma {:induction false} NextStartsRound(s: AppState, result: Option<Outcome>, round: Setup.InitializedRound,
                                           seed: string, cmp: Comparator)
    requires !s.gameOver && s.roundOver && !s.mustDiscard
    ensures NextPress(s, result, round, seed) == Some(NewRound(round, seed))
    ensures var r := Reduce(s, NewRound(round, seed), cmp);
            r.table == NextTable(s.table) && multiset(AllTiles(r)) == multiset(Setup.RoundTiles(round))
  {
    NewRoundTiles(s, round, seed, cmp);
  }

  /**
   * A Next press that asks for a draw while nothing is held draws the last
   * live-wall tile into the held slot; no tile is created or lost.
   */
  lemma {:induction false} NextDraws(s: AppState, result: Option<Outcome>, round: Setup.InitializedRound, seed: string)
    requires NextButton(s, result, round, seed) == Some(DrawTile) && s.input.drawnTile.None?
    ensures |s.wall| > 0
    ensures var r := OnDrawTile(s);
            && r.input.drawnTile == Some(s.wall[|s.wall| - 1])
            && FullHand(r.input) == FullHand(s.input) + [s.wall[|s.wall| - 1]]
            && Tally(r) == Tally(s)
  {
    DrawTileDraws(s);
    DrawTileKeepsTiles(s);
  }

  /** A Next press on the observed player's turn while a tile is held asks for a draw that the reducer ignores. */
  lemma {:induction false} NextHeldIgnored(s: AppState, result: Option<Outcome>, round: Setup.InitializedRound,
                                           seed: string)
    requires !s.gameOver && !s.roundOver && !s.reactionPhase && s.currentTurn == Watashi && s.input.drawnTile.Some?
    ensures NextButton(s, result, round, seed) == Some(DrawTile)
    ensures OnDrawTile(s) == s
  {
    DrawTileIdle(s);
  }

  /**
   * A Next press that lets another seat discard while nothing is held
   * moves the last live-wall tile onto that seat's pile; no tile is created
   * or lost.
   */
  lemma {:induction false} NextStoreDiscards(s: AppState, result: Option<Outcome>, round: Setup.InitializedRound,
                                             seed: string, cmp: Comparator)
    requires NextButton(s, result, round, seed) == Some(StoreDiscard(result)) && s.input.drawnTile.None?
    ensures |s.wall| > 0 && s.currentTurn != Watashi
    ensures var r := OnStoreDiscard(s, result, cmp);
            var t := s.wall[|s.wall| - 1];
            && s.wall == r.wall + [t]
            && Pile(r, s.currentTurn) == Pile(s, s.currentTurn) + [t]
            && Tally(r) == Tally(s)
  {
    assert |s.wall| > 0 && s.currentTurn != Watashi;
    var t := s.wall[|s.wall| - 1];
    StoreDiscardSpec(s, result, cmp);
    StoreWallTileSpec(s, CanReact(s, t, s.currentTurn, result, cmp));
    StoreDiscardKeepsTiles(s, result, cmp);
  }

  /**
   * With the live wall empty, the Next button still asks another seat to
   * discard when the observed player holds a tile. The model's reducer
   * ignores that request; the original reads an undefined tile there.
   */
  lemma {:induction false} NextStoreDiscardEmptyWall(s: AppState, result: Option<Outcome>,
                                                     round: Setup.InitializedRound, seed: string, cmp: Comparator)
    requires NextButton(s, result, round, seed) == Some(StoreDiscard(result)) && |s.wall| == 0
    ensures s.input.drawnTile.Some? && s.currentTurn != Watashi
    ensures OnStoreDiscard(s, result, cmp) == s
  {
  }

  /**
   * In the riichi discard flow, with a tile held, the hand tiles and the
   * held tile together send `select-riichi-tile` with every position of the
   * full hand: a hand tile its own index, the held tile the index just past
   * the hand, which is where the full hand keeps it.
   */
  lemma {:induction false} RiichiClicksCoverFullHand(s: AppState, k: int)
    requires NoSelection(s) && RiichiPicking(s) && s.input.drawnTile.Some?
    requires 0 <= k < |FullHand(s.input)|
    ensures k < |s.input.hand| ==> TileClick(s, k) == Some(SelectRiichiTile(k))
    ensures k == |s.input.hand| ==> (DrawnTileClick(s) == Some(SelectRiichiTile(k))
                                     && FullHand(s.input)[k] == s.input.drawnTile.value)
  {
  }

  /**
   * Outside riichi and the riichi flow, with a tile held, a click on
   * position `i` of the full hand discards exactly that tile: it goes onto
   * the observed player's pile, nothing stays held and the turn passes.
   */
  lemma {:induction false} TileClickDiscards(s: AppState, i: int, cmp: Comparator)
    requires NoSelection(s) && !RiichiPicking(s) && !InRiichi(s.handOptions) && s.input.drawnTile.Some?
    requires 0 <= i < |FullHand(s.input)|
    ensures TileClick(s, i) == Some(RemoveHandTile(i))
    ensures var r := OnRemoveHandTile(s, i, cmp);
            && r.watashiDiscards == s.watashiDiscards + [FullHand(s.input)[i]]
            && r.input.drawnTile.None? && r.currentTurn == NextSeat(s.currentTurn)
            && Tally(r) == Tally(s)
  {
    RemoveHandTileSpec(s, i, cmp);
    DiscardFromHandSpec(s, i, cmp);
    RemoveHandTileKeepsTiles(s, i, cmp);
  }

  /**
   * Outside the riichi flow a click on the held tile discards it, in riichi
   * or not: it goes onto the observed player's pile and the turn passes.
   */
  lemma {:induction false} DrawnTileClickDiscards(s: AppState)
    requires !RiichiPicking(s) && s.input.drawnTile.Some?
    ensures DrawnTileClick(s) == Some(DiscardDrawnTile)
    ensures var r := OnDiscardDrawnTile(s);
            && r.watashiDiscards == s.watashiDiscards + [s.input.drawnTile.value]
            && r.input.drawnTile.None? && r.input.hand == s.input.hand && r.currentTurn == NextSeat(s.currentTurn)
            && Tally(r) == Tally(s)
  {
    DiscardDrawnTileSpec(s);
    DiscardDrawnTileKeepsTiles(s);
  }
}
