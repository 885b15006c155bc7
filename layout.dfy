/**
 * The routing of `src/components/MahjongLayout.tsx`: which action the Next
 * button, a click on a hand tile and a click on the drawn tile dispatch,
 * and the East marker on a player's name tag (`isEast`).
 *
 * A handler that dispatches nothing returns `None`. The round set-up a
 * `new-round` needs is drawn by the reducer in the source; here it is a
 * parameter of the Next button, like the hand result the layout computes.
 */
module Layout {
  import opened Wrappers
  import opened Tiles
  import opened HandInput
  import opened HandResult
  import opened Store
  import opened Reducer
  import Setup

  /** `isEast`: the player whose offset from the observed player cancels the table seat's offset from east. */
  predicate IsEast(tableSeat: Wind, player: Seat)
  {
    (SeatIndex(player) + Setup.IndexOf(SeatWinds, tableSeat)) % 4 == 0
  }

  /** Exactly one player carries the East marker: the one `(4 - i) % 4` places after the observed player. */
  lemma {:induction false} OneEast(tableSeat: Wind)
    ensures exists p :: IsEast(tableSeat, p)
    ensures forall p, q :: IsEast(tableSeat, p) && IsEast(tableSeat, q) ==> p == q
    ensures forall p :: IsEast(tableSeat, p) <==> SeatIndex(p) == (4 - Setup.IndexOf(SeatWinds, tableSeat)) % 4
  {
    WindsListed(tableSeat);
    var i := Setup.IndexOf(SeatWinds, tableSeat);
    var east := Setup.LabelAt(4 - i);
    assert SeatIndex(east) == (4 - i) % 4;
    assert IsEast(tableSeat, east);
  }

  /** The observed player is East exactly when the table seat is east. */
  lemma {:induction false} ObservedEast(tableSeat: Wind)
    ensures IsEast(tableSeat, Watashi) <==> tableSeat == East
  {
    WindsListed(tableSeat);
  }

  /**
   * `handleNextButton`: nothing after the game; a new round after a round;
   * with the live wall empty and no held tile, the end of the game in hand
   * four and the end of the round before; otherwise pass a pending discard,
   * draw on the observed player's turn, or let the seat to move discard.
   */
  function NextButton(s: AppState, result: Option<Outcome>, round: Setup.InitializedRound, seed: string): (a: Option<Action>)
    ensures s.gameOver <==> a.None?
  {
    if s.gameOver then None
    else if s.roundOver then Some(NewRound(round, seed))
    else if |s.wall| == 0 && s.input.drawnTile.None? then
      if s.table.roundCount == 4 then Some(GameOver) else Some(RoundOver(result))
    else if s.reactionPhase then Some(PassDiscard(result))
    else if s.currentTurn == Watashi then Some(DrawTile)
    else Some(StoreDiscard(result))
  }

  /** The Next button: disabled while a discard is due, otherwise `handleNextButton`. */
  function NextPress(s: AppState, result: Option<Outcome>, round: Setup.InitializedRound, seed: string): (a: Option<Action>)
    ensures a.None? <==> s.gameOver || s.mustDiscard
    ensures a.Some? ==> Some(a.value) == NextButton(s, result, round, seed)
  {
    if s.mustDiscard then None else NextButton(s, result, round, seed)
  }

  /** The riichi discard flow is on: approved tiles offered, not yet in riichi. */
  predicate RiichiPicking(s: AppState)
  {
    |s.approveRiichiDiscards| > 0 && s.handOptions.riichi == NoRiichi && s.riichiSelection
  }

  /**
   * `handleTileClick`: a pending chi, pon or kan selection takes the tile
   * first, then the riichi flow, then a discard when one is due or a tile
   * is held.
   */
  function TileClick(s: AppState, index: int): Option<Action>
  {
    if s.chiSelection.Some? then Some(SelectChiTile(index))
    else if s.ponSelection.Some? then Some(SelectPonTile(index))
    else if s.kanSelection.Some? then Some(SelectKanTile(index))
    else if RiichiPicking(s) then Some(SelectRiichiTile(index))
    else if (s.mustDiscard && s.input.drawnTile.None?) || s.input.drawnTile.Some? then Some(RemoveHandTile(index))
    else None
  }

  /** `handleDrawnTileClick`: in the riichi flow the drawn tile is selected by its full-hand index; otherwise it is discarded. */
  function DrawnTileClick(s: AppState): (a: Option<Action>)
    ensures a.None? <==> s.input.drawnTile.None?
  {
    if s.input.drawnTile.None? then None
    else if RiichiPicking(s) then Some(SelectRiichiTile(|s.input.hand|))
    else Some(DiscardDrawnTile)
  }
}
