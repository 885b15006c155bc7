/**
 * The reducer with three corrections, each the evidently intended behaviour
 * of a case whose code does otherwise:
 *
 *  - `custom-new-game` also takes a requested tile from a later position of
 *    the observed hand when no other list holds it;
 *  - `select-kan-tile` keeps a held tile that an ankan did not use, instead
 *    of overwriting it with the kan draw;
 *  - `new-round` hands the seats out in the order east, south, west, north
 *    (the order of a new game and of the East marker), while the seat wind
 *    still steps east, north, west, south.
 *
 * Every other action is the reducer's own case.
 */
module Corrected {
  import opened Wrappers
  import opened Tiles
  import opened HandInput
  import opened HandResult
  import opened Store
  import opened Reducer
  import Setup
  import CustomDeal

  /** The custom deal with the corrected trades. */
  function OnCustomNewGameFixed(s: AppState, custom: seq<Tile>, round: Setup.InitializedRound, seed: string, seat: Wind,
                                cmp: Comparator): AppState
  {
    CustomRound(s, CustomDeal.SwappedFixed(custom, |custom|, CustomStart(round, seat)), round, seed, seat, cmp)
  }

  /** The completed kan, with a held tile the kan did not use moved into the hand before the kan draw. */
  function FormKanKeepingHeld(s: AppState, sel: KanSelection, picks: seq<Tile>): AppState
  {
    var unused := sel.discardTile.None? && s.input.drawnTile.Some?;
    var r := FormKan(s, sel, picks);
    if unused then r.(input := r.input.(hand := r.input.hand + [s.input.drawnTile.value])) else r
  }

  function OnSelectKanTileFixed(s: AppState, index: int): AppState
  {
    match PickKanTile(s, index)
    case KanSettled(next) => next
    case KanReady(sel, picks) => FormKanKeepingHeld(s, sel, picks)
  }

  /** The next round with the seats handed out in the order east, south, west, north. */
  function OnNewRoundFixed(s: AppState, round: Setup.InitializedRound, seed: string, cmp: Comparator): AppState
  {
    var next := NextRoundSeat(s.table.seat);
    WindsListed(next);
    DealRound(s, NextTable(s.table), SeatWinds, next, round, seed, cmp)
  }

  /** The reducer with the three corrected cases. */
  function ReduceFixed(s: AppState, a: Action, cmp: Comparator): AppState
  {
    match a
    case CustomNewGame(hand, round, seed, seat) => OnCustomNewGameFixed(s, hand, round, seed, seat, cmp)
    case SelectKanTile(index) => OnSelectKanTileFixed(s, index)
    case NewRound(round, seed) => OnNewRoundFixed(s, round, seed, cmp)
    case _ => Reduce(s, a, cmp)
  }
}
