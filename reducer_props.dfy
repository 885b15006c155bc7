/**
 * What the reducer cases of `src/lib/store/index.ts` promise: where each
 * tile goes (no tile is created or lost), who moves next, which flags rise
 * and fall, and when a round or the game ends.
 */
module ReducerProperties {
  import opened Wrappers
  import opened Tiles
  import opened HandInput
  import opened HandResult
  import opened Store
  import opened Reducer
  import Setup
  import CustomDeal

  // ---------------------------------------------------------------------
  // Where the tiles are
  // ---------------------------------------------------------------------

  /** Every tile of the round, as a bag: the stock, the observed player's tiles, the other hands and the piles. */
  function Tally(s: AppState): multiset<Tile>
  {
    Stock(s) + Held(s) + Rivals(s) + Piles(s)
  }

  /** Live wall and the four reserves. */
  function Stock(s: AppState): multiset<Tile>
  {
    multiset(s.wall) + multiset(s.wanpaiKan) + multiset(s.wanpaiDora) + multiset(s.wanpaiUradora)
    + multiset(s.wanpaiHaitei)
  }

  /** The observed player's concealed tiles, held tile and melds. */
  function Held(s: AppState): multiset<Tile>
  {
    multiset(FullHand(s.input)) + multiset(MeldTiles(s.input.melds))
  }

  /** The other three hands. */
  function Rivals(s: AppState): multiset<Tile>
  {
    multiset(s.kamichaHand) + multiset(s.toimenHand) + multiset(s.shimochaHand)
  }

  /** The four discard piles. */
  function Piles(s: AppState): multiset<Tile>
  {
    multiset(s.watashiDiscards) + multiset(s.kamichaDiscards) + multiset(s.toimenDiscards)
    + multiset(s.shimochaDiscards)
  }

  /** The bag is exactly the tiles the top bar counts. */
  lemma {:induction false} TallyCountsAllTiles(s: AppState)
    ensures multiset(AllTiles(s)) == Tally(s)
  {
  }

  /** A tile put on one pile adds it to the piles. */
  lemma {:induction false} PilesPush(s: AppState, seat: Seat, t: Tile)
    ensures Piles(WithPile(s, seat, Pile(s, seat) + [t])) == Piles(s) + multiset{t}
  {
    match seat
    case Watashi =>
    case Shimocha =>
    case Toimen =>
    case Kamicha =>
  }

  /** The top tile taken off a non-empty pile leaves the piles. */
  lemma {:induction false} PilesPop(s: AppState, seat: Seat)
    requires |Pile(s, seat)| > 0
    ensures Piles(WithPile(s, seat, DropLast(Pile(s, seat)))) + multiset{Last(Pile(s, seat))} == Piles(s)
  {
    match seat
    case Watashi =>
    case Shimocha =>
    case Toimen =>
    case Kamicha =>
  }

  /** Replacing one pile changes no other part of the snapshot. */
  lemma {:induction false} WithPileFrame(s: AppState, seat: Seat, p: seq<Tile>)
    ensures var r := WithPile(s, seat, p);
            && r.wall == s.wall && r.wanpaiKan == s.wanpaiKan && r.wanpaiDora == s.wanpaiDora
            && r.wanpaiUradora == s.wanpaiUradora && r.wanpaiHaitei == s.wanpaiHaitei
            && r.input == s.input && r.kamichaHand == s.kamichaHand && r.toimenHand == s.toimenHand
            && r.shimochaHand == s.shimochaHand && r.currentTurn == s.currentTurn
            && r.handOptions == s.handOptions && r.table == s.table
            && r.furiten == s.furiten && r.tempFuriten == s.tempFuriten && r.riichiFuriten == s.riichiFuriten
            && r.roundOver == s.roundOver && r.gameOver == s.gameOver
  {
    match seat
    case Watashi =>
    case Shimocha =>
    case Toimen =>
    case Kamicha =>
  }

  /** No tile changes place: the walls, the reserves, the hands, the melds and the piles are as they were. */
  predicate SameTiles(r: AppState, s: AppState)
  {
    && r.wall == s.wall && r.wanpaiKan == s.wanpaiKan && r.wanpaiDora == s.wanpaiDora
    && r.wanpaiUradora == s.wanpaiUradora && r.wanpaiHaitei == s.wanpaiHaitei
    && r.input.hand == s.input.hand && r.input.drawnTile == s.input.drawnTile && r.input.melds == s.input.melds
    && r.kamichaHand == s.kamichaHand && r.toimenHand == s.toimenHand && r.shimochaHand == s.shimochaHand
    && r.watashiDiscards == s.watashiDiscards && r.kamichaDiscards == s.kamichaDiscards
    && r.toimenDiscards == s.toimenDiscards && r.shimochaDiscards == s.shimochaDiscards
  }

  lemma {:induction false} SameTilesTally(r: AppState, s: AppState)
    requires SameTiles(r, s)
    ensures AllTiles(r) == AllTiles(s) && Tally(r) == Tally(s)
  {
  }

  /** A tile taken from the stock into the observed player's tiles keeps the bag. */
  lemma {:induction false} StockToHeld(s: AppState, r: AppState, t: Tile)
    requires Stock(r) + multiset{t} == Stock(s) && Held(r) == Held(s) + multiset{t}
    requires Rivals(r) == Rivals(s) && Piles(r) == Piles(s)
    ensures Tally(r) == Tally(s)
  {
    forall e ensures Tally(r)[e] == Tally(s)[e] {
      assert (Stock(r) + multiset{t})[e] == Stock(s)[e];
      assert Held(r)[e] == (Held(s) + multiset{t})[e];
    }
  }

  /** A tile taken from the stock onto a pile keeps the bag. */
  lemma {:induction false} StockToPiles(s: AppState, r: AppState, t: Tile)
    requires Stock(r) + multiset{t} == Stock(s) && Piles(r) == Piles(s) + multiset{t}
    requires Held(r) == Held(s) && Rivals(r) == Rivals(s)
    ensures Tally(r) == Tally(s)
  {
    forall e ensures Tally(r)[e] == Tally(s)[e] {
      assert (Stock(r) + multiset{t})[e] == Stock(s)[e];
      assert Piles(r)[e] == (Piles(s) + multiset{t})[e];
    }
  }

  // ---------------------------------------------------------------------
  // draw-tile
  // ---------------------------------------------------------------------

  /** Equal groups make equal bags. */
  lemma {:induction false} SameGroups(s: AppState, r: AppState)
    requires Stock(r) + Held(r) + Rivals(r) + Piles(r) == Stock(s) + Held(s) + Rivals(s) + Piles(s)
    ensures Tally(r) == Tally(s)
  {
  }

  /**
   * On the observed player's turn, with live tiles left and nothing held,
   * the last live-wall tile becomes the held tile and temporary furiten
   * ends.
   */
  lemma {:induction false} DrawTileDraws(s: AppState)
    requires |s.wall| > 0 && s.currentTurn == Watashi && s.input.drawnTile.None?
    ensures var r := OnDrawTile(s);
            var t := s.wall[|s.wall| - 1];
            && r.input.drawnTile == Some(t) && s.wall == r.wall + [t]
            && FullHand(r.input) == FullHand(s.input) + [t]
            && r.discardCheck.None? && !r.tempFuriten
  {
    var r := OnDrawTile(s);
    assert r.input == s.input.(drawnTile := Some(Last(s.wall)));
  }

  /** Out of turn, with the live wall empty or a tile already held, drawing changes nothing. */
  lemma {:induction false} DrawTileIdle(s: AppState)
    requires |s.wall| == 0 || s.currentTurn != Watashi || s.input.drawnTile.Some?
    ensures OnDrawTile(s) == s
  {
  }

  /** Drawing moves a tile from the live wall to the hand: no tile is created or lost. */
  lemma {:induction false} DrawTileKeepsTiles(s: AppState)
    ensures Tally(OnDrawTile(s)) == Tally(s)
  {
    if |s.wall| > 0 && s.currentTurn == Watashi && s.input.drawnTile.None? {
      var r := OnDrawTile(s);
      var t := Last(s.wall);
      DrawTileDraws(s);
      assert multiset(r.wall) + multiset{t} == multiset(s.wall);
      assert Stock(r) + multiset{t} == Stock(s);
      assert Held(r) == Held(s) + multiset{t};
      StockToHeld(s, r, t);
    } else {
      DrawTileIdle(s);
    }
  }

  // ---------------------------------------------------------------------
  // store-discard
  // ---------------------------------------------------------------------

  /**
   * The discard of store-discard: the last live-wall tile moves onto the
   * mover's pile and no other pile; the turn stays and the discard is
   * pending exactly when a reaction is awaited, and passes otherwise.
   */
  lemma {:induction false} StoreWallTileSpec(s: AppState, react: bool)
    requires |s.wall| > 0
    ensures var r := StoreWallTile(s, react);
            var t := s.wall[|s.wall| - 1];
            && s.wall == r.wall + [t]
            && Pile(r, s.currentTurn) == Pile(s, s.currentTurn) + [t]
            && (forall o :: o != s.currentTurn ==> Pile(r, o) == Pile(s, o))
            && r.reactionPhase == react
            && (react ==> r.currentTurn == s.currentTurn && r.discardCheck == Some(DiscardCheck(t, s.currentTurn)))
            && (!react ==> r.currentTurn == NextSeat(s.currentTurn) && r.discardCheck.None?)
            && r.input == s.input
  {
  }

  /** The discard moves a tile from the live wall to a pile. */
  lemma {:induction false} StoreWallTileKeepsTiles(s: AppState, react: bool)
    requires |s.wall| > 0
    ensures Tally(StoreWallTile(s, react)) == Tally(s)
  {
    var r := StoreWallTile(s, react);
    var t := Last(s.wall);
    var s0 := s.(wall := DropLast(s.wall));
    assert Pile(s0, s.currentTurn) == Pile(s, s.currentTurn) && Piles(s0) == Piles(s);
    PilesPush(s0, s.currentTurn, t);
    var s1 := WithPile(s0, s.currentTurn, Pile(s, s.currentTurn) + [t]);
    if react {
      assert r == s1.(discardCheck := Some(DiscardCheck(t, s.currentTurn)), reactionPhase := true);
    } else {
      assert r == s1.(discardCheck := None, currentTurn := NextSeat(s.currentTurn), reactionPhase := false);
    }
    assert Piles(r) == Piles(s1);
    assert multiset(r.wall) + multiset{t} == multiset(s.wall);
    assert Stock(r) + multiset{t} == Stock(s);
    StockToPiles(s, r, t);
  }

  /**
   * Off the observed player's turn, with live tiles left, the seat to move
   * discards, and the turn waits for the observed player exactly when a
   * reaction is possible; otherwise nothing changes.
   */
  lemma {:induction false} StoreDiscardSpec(s: AppState, result: Option<Outcome>, cmp: Comparator)
    ensures var r := OnStoreDiscard(s, result, cmp);
            if s.currentTurn == Watashi || |s.wall| == 0 then r == s
            else r == StoreWallTile(s, CanReact(s, s.wall[|s.wall| - 1], s.currentTurn, result, cmp))
                 && (r.reactionPhase <==> CanReact(s, s.wall[|s.wall| - 1], s.currentTurn, result, cmp))
  {
    if s.currentTurn != Watashi && |s.wall| > 0 {
      StoreWallTileSpec(s, CanReact(s, Last(s.wall), s.currentTurn, result, cmp));
    }
  }

  /** In riichi only ron can stop the turn after another seat's discard. */
  lemma {:induction false} RiichiReactsOnlyToRon(s: AppState, t: Tile, from: Seat, result: Option<Outcome>, cmp: Comparator)
    requires InRiichi(s.handOptions)
    ensures CanReact(s, t, from, result, cmp) <==> CanRon(s, t, result, cmp)
  {
  }

  /** A stored discard keeps every tile. */
  lemma {:induction false} StoreDiscardKeepsTiles(s: AppState, result: Option<Outcome>, cmp: Comparator)
    ensures Tally(OnStoreDiscard(s, result, cmp)) == Tally(s)
  {
    if s.currentTurn != Watashi && |s.wall| > 0 {
      StoreWallTileKeepsTiles(s, CanReact(s, Last(s.wall), s.currentTurn, result, cmp));
    }
  }

  // ---------------------------------------------------------------------
  // remove-hand-tile and discard-drawn-tile
  // ---------------------------------------------------------------------

  /**
   * The chosen tile of the hand and held tile, and only it, goes onto the
   * observed player's pile; the rest is the new hand with nothing held; the
   * turn passes.
   */
  lemma {:induction false} DiscardFromHandSpec(s: AppState, index: int, cmp: Comparator)
    requires 0 <= index < |FullHand(s.input)|
    ensures var r := DiscardFromHand(s, index, cmp);
            var full := FullHand(s.input);
            && r.input.drawnTile.None?
            && multiset(r.input.hand) + multiset{full[index]} == multiset(full)
            && r.watashiDiscards == s.watashiDiscards + [full[index]]
            && r.currentTurn == NextSeat(s.currentTurn) && !r.mustDiscard
            && r.input.melds == s.input.melds && r.wall == s.wall
  {
  }

  lemma {:induction false} DiscardFromHandKeepsTiles(s: AppState, index: int, cmp: Comparator)
    requires 0 <= index < |FullHand(s.input)|
    ensures Tally(DiscardFromHand(s, index, cmp)) == Tally(s)
  {
    var r := DiscardFromHand(s, index, cmp);
    var t := FullHand(s.input)[index];
    DiscardFromHandSpec(s, index, cmp);
    assert Held(r) + multiset{t} == Held(s);
    assert Piles(r) == Piles(s) + multiset{t};
    assert Stock(r) == Stock(s) && Rivals(r) == Rivals(s);
    SameGroups(s, r);
  }

  /** In riichi the hand is locked and only the riichi message changes; an index outside hand and held tile changes nothing. */
  lemma {:induction false} RemoveHandTileSpec(s: AppState, index: int, cmp: Comparator)
    ensures var r := OnRemoveHandTile(s, index, cmp);
            if InRiichi(s.handOptions) then r == s.(riichiErrorMessage := Some(RiichiHandLocked))
            else if index < 0 || index >= |FullHand(s.input)| then r == s
            else r == DiscardFromHand(s, index, cmp)
  {
  }

  /** A discard from the hand keeps every tile. */
  lemma {:induction false} RemoveHandTileKeepsTiles(s: AppState, index: int, cmp: Comparator)
    ensures Tally(OnRemoveHandTile(s, index, cmp)) == Tally(s)
  {
    if InRiichi(s.handOptions) {
      assert AllTiles(OnRemoveHandTile(s, index, cmp)) == AllTiles(s);
    } else if 0 <= index < |FullHand(s.input)| {
      DiscardFromHandKeepsTiles(s, index, cmp);
    }
  }

  /** The held tile, and only it, goes onto the observed player's pile, and the turn passes. */
  lemma {:induction false} DiscardDrawnTileSpec(s: AppState)
    ensures var r := OnDiscardDrawnTile(s);
            if s.input.drawnTile.None? then r == s
            else
              && r.input == s.input.(drawnTile := None)
              && r.watashiDiscards == s.watashiDiscards + [s.input.drawnTile.value]
              && r.currentTurn == NextSeat(s.currentTurn)
  {
  }

  lemma {:induction false} DiscardDrawnTileKeepsTiles(s: AppState)
    ensures Tally(OnDiscardDrawnTile(s)) == Tally(s)
  {
    var r := OnDiscardDrawnTile(s);
    if s.input.drawnTile.Some? {
      var t := s.input.drawnTile.value;
      assert FullHand(s.input) == r.input.hand + [t];
      assert Held(r) + multiset{t} == Held(s);
      assert Piles(r) == Piles(s) + multiset{t};
      assert Stock(r) == Stock(s) && Rivals(r) == Rivals(s);
      SameGroups(s, r);
    }
  }

  // ---------------------------------------------------------------------
  // round-over and the next table
  // ---------------------------------------------------------------------

  /**
   * A hand result ends the round: it is a drawn hand (honba) exactly when
   * nobody won by ron or tsumo and the result is not a winning one, and the
   * riichi stick carries over exactly when the observed player is in riichi.
   * Without a result nothing changes; no tile moves.
   */
  lemma {:induction false} RoundOverSpec(s: AppState, result: Option<Outcome>)
    ensures var r := OnRoundOver(s, result);
            && (result.None? ==> r == s)
            && (result.Some? ==>
                  && r.roundOver
                  && (r.table.honba <==> !s.handOptions.ron && !s.handOptions.tsumo && !IsHoraResult(result))
                  && (r.table.riichiLastGame <==> InRiichi(s.handOptions))
                  && r.table.roundCount == s.table.roundCount && r.table.seat == s.table.seat)
            && SameTiles(r, s)
  {
  }

  /**
   * The table after a round that ended on `result`: one more hand played,
   * the seat wind one step on, the continuation counter up by one after a
   * drawn hand and back to zero after a win, the deposit up by one after a
   * riichi and back to zero otherwise.
   */
  lemma {:induction false} RoundThenNextTable(s: AppState, o: Outcome)
    ensures var t := NextTable(OnRoundOver(s, Some(o)).table);
            var drawn := !s.handOptions.ron && !s.handOptions.tsumo && !IsHoraResult(Some(o));
            && t.roundCount == s.table.roundCount + 1 && t.seat == NextRoundSeat(s.table.seat)
            && t.continuation == (if drawn then s.table.continuation + 1 else 0)
            && t.deposit == (if InRiichi(s.handOptions) then s.table.deposit + 1 else 0)
  {
    RoundOverSpec(s, Some(o));
  }

  // ---------------------------------------------------------------------
  // pass-discard, check-furiten and the furiten flags
  // ---------------------------------------------------------------------

  /**
   * Passing a pending discard ends the reaction and passes the turn; a
   * discard the observed player could have won on raises riichi furiten in
   * riichi and temporary furiten otherwise, and the message names the
   * furiten that holds. Without a pending discard nothing changes.
   */
  lemma {:induction false} PassDiscardSpec(s: AppState, result: Option<Outcome>, cmp: Comparator)
    ensures var r := OnPassDiscard(s, result, cmp);
            if !s.reactionPhase || s.discardCheck.None? then r == s
            else
              var won := CanRon(s, s.discardCheck.value.tile, result, cmp);
              && !r.reactionPhase && r.discardCheck.None? && r.currentTurn == NextSeat(s.currentTurn)
              && (r.riichiFuriten <==> s.riichiFuriten || (won && InRiichi(s.handOptions)))
              && (r.tempFuriten <==> s.tempFuriten || (won && !InRiichi(s.handOptions)))
              && r.furiten == s.furiten
              && (r.ronErrorMessage == if r.riichiFuriten then Some(RiichiFuritenPass)
                                       else if r.tempFuriten then Some(TempFuritenPass) else None)
              && SameTiles(r, s)
  {
  }

  /** After passing a discard the observed player could have won on, no ron is possible on any tile. */
  lemma {:induction false} PassedWinBlocksRon(s: AppState, result: Option<Outcome>, cmp: Comparator,
                                              t: Tile, later: Option<Outcome>)
    requires s.reactionPhase && s.discardCheck.Some?
    requires CanRon(s, s.discardCheck.value.tile, result, cmp)
    ensures !CanRon(OnPassDiscard(s, result, cmp), t, later, cmp)
  {
    PassDiscardSpec(s, result, cmp);
  }

  /** check-furiten raises furiten exactly when a winning tile of the result is among the observed player's discards. */
  lemma {:induction false} CheckFuritenSpec(s: AppState, result: Option<Outcome>, cmp: Comparator)
    ensures OnCheckFuriten(s, result, cmp).furiten
            <==> s.furiten || (IsHoraResult(result) && OwnDiscardWins(s.watashiDiscards, HoraLines(result), cmp))
  {
  }

  /** check-furiten moves no tile and touches no other flag. */
  lemma {:induction false} CheckFuritenFrame(s: AppState, result: Option<Outcome>, cmp: Comparator)
    ensures var r := OnCheckFuriten(s, result, cmp);
            && SameTiles(r, s) && r.currentTurn == s.currentTurn
            && r.riichiFuriten == s.riichiFuriten && r.tempFuriten == s.tempFuriten
  {
    if IsHoraResult(result) && OwnDiscardWins(s.watashiDiscards, HoraLines(result), cmp) {
    } else {
    }
  }

  /** Once check-furiten finds an own discard among the winning tiles, ron is impossible on every tile. */
  lemma {:induction false} OwnDiscardBlocksRon(s: AppState, result: Option<Outcome>, cmp: Comparator, t: Tile,
                                               later: Option<Outcome>)
    requires exists i, j :: 0 <= i < |s.watashiDiscards| && 0 <= j < |HoraLines(result)|
                            && cmp(HoraLines(result)[j].horaTile, s.watashiDiscards[i]) == 0
    ensures !CanRon(OnCheckFuriten(s, result, cmp), t, later, cmp)
  {
    CheckFuritenSpec(s, result, cmp);
  }

  // ---------------------------------------------------------------------
  // Riichi
  // ---------------------------------------------------------------------

  /** The offered riichi discards are exactly the tiles of the discard options that leave a winning wait. */
  lemma {:induction false} RiichiDiscardsMeaning(ds: seq<Discard>, t: Tile)
    ensures t in RiichiDiscards(ds) <==> exists i :: 0 <= i < |ds| && LeadsToHora(ds[i]) && ds[i].tile == t
  {
    if ds != [] {
      var init := ds[..|ds| - 1];
      RiichiDiscardsMeaning(init, t);
      assert forall i :: 0 <= i < |init| ==> init[i] == ds[i];
      if exists i :: 0 <= i < |ds| && LeadsToHora(ds[i]) && ds[i].tile == t {
        var i :| 0 <= i < |ds| && LeadsToHora(ds[i]) && ds[i].tile == t;
        if i < |init| {
          assert t in RiichiDiscards(init);
        }
      }
    }
  }

  /** Outside the conditions of riichi only the error message changes. */
  lemma {:induction false} CallRiichiRefused(s: AppState, result: Option<Outcome>)
    requires !RiichiAllowed(s, result)
    ensures var r := OnCallRiichi(s, result);
            r.riichiErrorMessage == Some(RiichiNotNow) && r.riichiSelection == s.riichiSelection
            && r.approveRiichiDiscards == s.approveRiichiDiscards && r.handOptions == s.handOptions && SameTiles(r, s)
  {
  }

  /** When no discard leaves a winning wait, riichi is refused with its own message and no selection opens. */
  lemma {:induction false} CallRiichiWithoutWait(s: AppState, result: Option<Outcome>)
    requires RiichiAllowed(s, result) && RiichiDiscards(result.value.discards) == []
    ensures var r := OnCallRiichi(s, result);
            !r.riichiSelection && r.riichiErrorMessage == Some(NoRiichiDiscards)
            && r.handOptions == s.handOptions && SameTiles(r, s)
  {
  }

  /**
   * Inside the conditions of riichi, with some discard leaving a winning
   * wait, the selection opens offering exactly those discards and the
   * observed player must discard; no tile moves yet.
   */
  lemma {:induction false} CallRiichiOffers(s: AppState, result: Option<Outcome>)
    requires RiichiAllowed(s, result) && RiichiDiscards(result.value.discards) != []
    ensures var r := OnCallRiichi(s, result);
            && r.riichiSelection && r.mustDiscard && r.riichiErrorMessage.None?
            && r.approveRiichiDiscards == RiichiDiscards(result.value.discards)
            && (forall t :: t in r.approveRiichiDiscards <==>
                  exists i :: 0 <= i < |result.value.discards| && LeadsToHora(result.value.discards[i])
                              && result.value.discards[i].tile == t)
            && r.handOptions == s.handOptions && SameTiles(r, s)
  {
    forall t
      ensures t in RiichiDiscards(result.value.discards) <==>
                exists i :: 0 <= i < |result.value.discards| && LeadsToHora(result.value.discards[i])
                            && result.value.discards[i].tile == t
    {
      RiichiDiscardsMeaning(result.value.discards, t);
    }
  }

  /** call-riichi never moves a tile. */
  lemma {:induction false} CallRiichiKeepsTiles(s: AppState, result: Option<Outcome>)
    ensures SameTiles(OnCallRiichi(s, result), s)
  {
    if !RiichiAllowed(s, result) {
      CallRiichiRefused(s, result);
    } else if RiichiDiscards(result.value.discards) == [] {
      CallRiichiWithoutWait(s, result);
    } else {
      CallRiichiOffers(s, result);
    }
  }

  /**
   * The riichi discard: the chosen tile leaves hand and held tile for the
   * pile at position `riichiDiscardIndex`; riichi is double exactly when
   * the observed player had not discarded yet; ippatsu is live.
   */
  lemma {:induction false} DeclareRiichiSpec(s: AppState, index: int, cmp: Comparator)
    requires 0 <= index < |FullHand(s.input)|
    ensures var r := DeclareRiichi(s, index, cmp);
            var full := FullHand(s.input);
            && InRiichi(r.handOptions)
            && (r.handOptions.riichi == DoubleRiichi <==> |s.watashiDiscards| == 0)
            && r.riichiDiscardIndex.Some? && 0 <= r.riichiDiscardIndex.value < |r.watashiDiscards|
            && r.watashiDiscards[r.riichiDiscardIndex.value] == full[index]
            && r.watashiDiscards[..r.riichiDiscardIndex.value] == s.watashiDiscards
            && r.input.drawnTile.None? && multiset(r.input.hand) + multiset{full[index]} == multiset(full)
            && r.ippatsuPhase && !r.riichiSelection && r.currentTurn == NextSeat(s.currentTurn)
  {
  }

  lemma {:induction false} DeclareRiichiKeepsTiles(s: AppState, index: int, cmp: Comparator)
    requires 0 <= index < |FullHand(s.input)|
    ensures Tally(DeclareRiichi(s, index, cmp)) == Tally(s)
  {
    var r := DeclareRiichi(s, index, cmp);
    var t := FullHand(s.input)[index];
    DeclareRiichiSpec(s, index, cmp);
    assert r.watashiDiscards == s.watashiDiscards + [t];
    assert Held(r) + multiset{t} == Held(s);
    assert Piles(r) == Piles(s) + multiset{t};
    assert Stock(r) == Stock(s) && Rivals(r) == Rivals(s);
    SameGroups(s, r);
  }

  /** select-riichi-tile declares riichi when a selection is open, the index is in hand and held tile, and the tile is offered. */
  lemma {:induction false} SelectRiichiTileDeclares(s: AppState, index: int, cmp: Comparator)
    requires s.riichiSelection && 0 <= index < |FullHand(s.input)|
    requires Approved(s.approveRiichiDiscards, FullHand(s.input)[index], cmp)
    ensures OnSelectRiichiTile(s, index, cmp) == DeclareRiichi(s, index, cmp)
  {
  }

  /** Without an open selection, or with an index outside hand and held tile, only the message changes. */
  lemma {:induction false} SelectRiichiTileIgnored(s: AppState, index: int, cmp: Comparator)
    requires !s.riichiSelection || index < 0 || index >= |FullHand(s.input)|
    ensures var r := OnSelectRiichiTile(s, index, cmp);
            && r.riichiErrorMessage.Some? && r.riichiSelection == s.riichiSelection
            && r.handOptions == s.handOptions && r.currentTurn == s.currentTurn && SameTiles(r, s)
  {
    if !s.riichiSelection {
    } else {
    }
  }

  /** A tile that was not offered closes the selection without declaring riichi or moving a tile. */
  lemma {:induction false} SelectRiichiTileUnoffered(s: AppState, index: int, cmp: Comparator)
    requires s.riichiSelection && 0 <= index < |FullHand(s.input)|
    requires !Approved(s.approveRiichiDiscards, FullHand(s.input)[index], cmp)
    ensures var r := OnSelectRiichiTile(s, index, cmp);
            && !r.riichiSelection && r.approveRiichiDiscards == [] && !r.mustDiscard
            && r.riichiErrorMessage.Some? && r.handOptions == s.handOptions
            && r.currentTurn == s.currentTurn && SameTiles(r, s)
  {
  }

  /** A tile declared as the riichi discard from the offered list leaves a winning wait. */
  lemma {:induction false} RiichiDiscardWaits(s: AppState, ds: seq<Discard>, index: int, cmp: Comparator)
    requires s.approveRiichiDiscards == RiichiDiscards(ds)
    requires 0 <= index < |FullHand(s.input)| && Approved(s.approveRiichiDiscards, FullHand(s.input)[index], cmp)
    ensures exists i :: 0 <= i < |ds| && LeadsToHora(ds[i]) && cmp(ds[i].tile, FullHand(s.input)[index]) == 0
  {
    var k :| 0 <= k < |s.approveRiichiDiscards| && cmp(s.approveRiichiDiscards[k], FullHand(s.input)[index]) == 0;
    RiichiDiscardsMeaning(ds, s.approveRiichiDiscards[k]);
  }

  /** After riichi the hand is locked: remove-hand-tile changes no tile. */
  lemma {:induction false} RiichiLocksHand(s: AppState, index: int, cmp: Comparator, j: int)
    requires 0 <= index < |FullHand(s.input)|
    ensures var r := DeclareRiichi(s, index, cmp);
            var r2 := OnRemoveHandTile(r, j, cmp);
            r2.input == r.input && r2.watashiDiscards == r.watashiDiscards && r2.currentTurn == r.currentTurn
  {
    DeclareRiichiSpec(s, index, cmp);
  }

  // ---------------------------------------------------------------------
  // Ron and tsumo
  // ---------------------------------------------------------------------

  /** The pending discard is the top tile of the discarder's pile. */
  predicate DiscardOnPile(s: AppState)
  {
    s.discardCheck.Some? ==>
      var dc := s.discardCheck.value;
      |Pile(s, dc.fromPlayer)| > 0 && Last(Pile(s, dc.fromPlayer)) == dc.tile
  }

  /** A discard that waits for a reaction is the top tile of its pile. */
  lemma {:induction false} StoreWallTilePending(s: AppState)
    requires |s.wall| > 0
    ensures DiscardOnPile(StoreWallTile(s, true)) && DiscardOnPile(StoreWallTile(s, false))
  {
    StoreWallTileSpec(s, true);
    StoreWallTileSpec(s, false);
  }

  /** Ron goes through when a discard is pending and ron on it is possible. */
  lemma {:induction false} CallRonWins(s: AppState, result: Option<Outcome>, cmp: Comparator)
    requires s.reactionPhase && s.discardCheck.Some? && CanRon(s, s.discardCheck.value.tile, result, cmp)
    ensures OnCallRon(s, result, cmp) == WinByRon(s)
  {
  }

  /** Otherwise ron is refused with a message and nothing else changes: no tile moves and the round goes on. */
  lemma {:induction false} CallRonRefused(s: AppState, result: Option<Outcome>, cmp: Comparator)
    requires !(s.reactionPhase && s.discardCheck.Some? && CanRon(s, s.discardCheck.value.tile, result, cmp))
    ensures var r := OnCallRon(s, result, cmp);
            && r.ronErrorMessage.Some? && SameTiles(r, s) && r.roundOver == s.roundOver && r.gameOver == s.gameOver
            && r.handOptions == s.handOptions && r.reactionPhase == s.reactionPhase
  {
  }

  /** A refused ron names the first unmet condition: furiten of any kind is reported before the re-check. */
  lemma {:induction false} RonRefusalOrder(s: AppState, result: Option<Outcome>, cmp: Comparator)
    requires s.reactionPhase && s.discardCheck.Some?
    ensures s.riichiFuriten ==> RonRefusal(s, result, cmp) == Some(RiichiFuritenRon)
    ensures !s.riichiFuriten && s.tempFuriten ==> RonRefusal(s, result, cmp) == Some(TempFuritenRon)
    ensures !s.riichiFuriten && !s.tempFuriten && s.furiten ==> RonRefusal(s, result, cmp) == Some(OwnDiscardFuriten)
  {
  }

  /**
   * The ron: the claimed tile joins the hand and leaves the discarder's
   * pile; exactly one of round over and game over is raised, game over in
   * hand four.
   */
  lemma {:induction false} WinByRonSpec(s: AppState)
    requires s.discardCheck.Some?
    ensures var r := WinByRon(s);
            var dc := s.discardCheck.value;
            && r.input.hand == s.input.hand + [dc.tile]
            && Pile(r, dc.fromPlayer) == DropLast(Pile(s, dc.fromPlayer))
            && (r.gameOver <==> s.table.roundCount == 4) && (r.roundOver <==> !r.gameOver)
            && r.handOptions.ron && !r.reactionPhase
  {
  }

  /** Ron on the top tile of a pile moves that tile into the hand. */
  lemma {:induction false} WinByRonKeepsTiles(s: AppState)
    requires s.discardCheck.Some? && DiscardOnPile(s)
    ensures Tally(WinByRon(s)) == Tally(s)
  {
    var dc := s.discardCheck.value;
    var r := WinByRon(s);
    var s1 := WithPile(s, dc.fromPlayer, DropLast(Pile(s, dc.fromPlayer)));
    PilesPop(s, dc.fromPlayer);
    assert Piles(r) == Piles(s1);
    assert Piles(r) + multiset{dc.tile} == Piles(s);
    assert FullHand(r.input) == FullHand(s.input.(hand := s.input.hand + [dc.tile]));
    assert Held(r) == Held(s) + multiset{dc.tile};
    assert Stock(r) == Stock(s) && Rivals(r) == Rivals(s);
    SameGroups(s, r);
  }

  /** Tsumo goes through on the observed player's turn with a held tile some line wins on by tsumo. */
  lemma {:induction false} CallTsumoWins(s: AppState, result: Option<Outcome>, cmp: Comparator)
    requires s.currentTurn == Watashi && CanTsumo(s.input.drawnTile, result, cmp)
    ensures OnCallTsumo(s, result, cmp) == WinByTsumo(s)
  {
  }

  /** Otherwise tsumo is refused with a message and nothing else changes. */
  lemma {:induction false} CallTsumoRefused(s: AppState, result: Option<Outcome>, cmp: Comparator)
    requires !(s.currentTurn == Watashi && CanTsumo(s.input.drawnTile, result, cmp))
    ensures var r := OnCallTsumo(s, result, cmp);
            && r.tsumoErrorMessage.Some? && SameTiles(r, s) && r.roundOver == s.roundOver && r.gameOver == s.gameOver
            && r.handOptions == s.handOptions && r.currentTurn == s.currentTurn
  {
  }

  /**
   * The tsumo: the held tile joins the hand; exactly one of round over and
   * game over is raised, game over in hand four; tenhou is credited exactly
   * in the first turn of the round.
   */
  lemma {:induction false} WinByTsumoSpec(s: AppState)
    requires s.input.drawnTile.Some?
    ensures var r := WinByTsumo(s);
            && r.input.hand == s.input.hand + [s.input.drawnTile.value] && r.input.drawnTile.None?
            && (r.gameOver <==> s.table.roundCount == 4) && (r.roundOver <==> !r.gameOver)
            && r.handOptions.tsumo && r.handOptions.tenhou == s.tenhouPhase
  {
  }

  lemma {:induction false} WinByTsumoKeepsTiles(s: AppState)
    requires s.input.drawnTile.Some?
    ensures Tally(WinByTsumo(s)) == Tally(s)
  {
    var r := WinByTsumo(s);
    assert FullHand(r.input) == FullHand(s.input);
    assert Held(r) == Held(s) && Stock(r) == Stock(s) && Rivals(r) == Rivals(s) && Piles(r) == Piles(s);
    SameGroups(s, r);
  }

  /** game-over only raises the flag: no tile moves and the table stays. */
  lemma {:induction false} GameOverSpec(s: AppState)
    ensures var r := OnGameOver(s);
            && r.gameOver && r.roundOver == s.roundOver && r.table == s.table
            && r.currentTurn == s.currentTurn && r.handOptions == s.handOptions && SameTiles(r, s)
  {
  }

  // ---------------------------------------------------------------------
  // clear-error-message and escape-selection
  // ---------------------------------------------------------------------

  /** Clearing the messages empties all six of them and touches nothing else that matters to play. */
  lemma {:induction false} ClearErrorMessageSpec(s: AppState)
    ensures var r := OnClearErrorMessage(s);
            && r.chiErrorMessage.None? && r.ponErrorMessage.None? && r.kanErrorMessage.None?
            && r.riichiErrorMessage.None? && r.ronErrorMessage.None? && r.tsumoErrorMessage.None?
            && r.chiSelection == s.chiSelection && r.ponSelection == s.ponSelection
            && r.kanSelection == s.kanSelection && r.riichiSelection == s.riichiSelection
            && r.currentTurn == s.currentTurn && r.handOptions == s.handOptions && SameTiles(r, s)
  {
  }

  /** Escape closes an open riichi selection, giving up the obligation to discard; the turn stays. */
  lemma {:induction false} EscapeRiichiSelection(s: AppState)
    requires s.riichiSelection
    ensures var r := OnEscapeSelection(s);
            && !r.riichiSelection && r.approveRiichiDiscards == [] && !r.mustDiscard
            && r.currentTurn == s.currentTurn && r.handOptions == s.handOptions && SameTiles(r, s)
  {
  }

  /** Otherwise escape closes every chi, pon and kan selection and, when one was open, passes the turn. */
  lemma {:induction false} EscapeClaimSelection(s: AppState)
    requires !s.riichiSelection && (s.chiSelection.Some? || s.ponSelection.Some? || s.kanSelection.Some?)
    ensures var r := OnEscapeSelection(s);
            && r.chiSelection.None? && r.ponSelection.None? && r.kanSelection.None?
            && r.currentTurn == NextSeat(s.currentTurn) && !r.reactionPhase && SameTiles(r, s)
  {
  }

  /** With nothing open, escape does nothing. */
  lemma {:induction false} EscapeNothingOpen(s: AppState)
    requires !s.riichiSelection && s.chiSelection.None? && s.ponSelection.None? && s.kanSelection.None?
    ensures OnEscapeSelection(s) == s
  {
  }

  /** Escape never moves a tile. */
  lemma {:induction false} EscapeKeepsTiles(s: AppState)
    ensures SameTiles(OnEscapeSelection(s), s)
  {
    if s.riichiSelection {
      EscapeRiichiSelection(s);
    } else if s.chiSelection.Some? || s.ponSelection.Some? || s.kanSelection.Some? {
      EscapeClaimSelection(s);
    } else {
      EscapeNothingOpen(s);
    }
  }
}
