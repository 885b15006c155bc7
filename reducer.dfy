/**
 * The reducer of `src/lib/store/index.ts`: one function from a snapshot and
 * an action to the next snapshot, written case by case.
 *
 * What the reducer obtains from outside is carried by the action: the round
 * set-up and final seed string that `initializeRound` returns, the seat wind
 * the seeded generator picks for a new game, the hand result the layout
 * passes in, and the tile comparator. Writing the snapshot to local storage
 * is not part of this model.
 */
module Reducer {
  import opened Wrappers
  import opened Tiles
  import opened HandInput
  import opened HandResult
  import opened Store
  import Setup
  import CustomDeal
  import HandParse

  // ---------------------------------------------------------------------
  // Actions
  // ---------------------------------------------------------------------

  /** The actions of `action.ts` with their payloads. */
  datatype Action =
    | SetCurrentRule(rule: Rule)
    | NewGame(round: Setup.InitializedRound, seed: string, seat: Wind)
    | CustomNewGame(hand: seq<Tile>, round: Setup.InitializedRound, seed: string, seat: Wind)
    | NewRound(round: Setup.InitializedRound, seed: string)
    | DrawTile
    | StoreDiscard(result: Option<Outcome>)
    | RemoveHandTile(index: int)
    | DiscardDrawnTile
    | RoundOver(result: Option<Outcome>)
    | GameOver
    | CallChi
    | PassDiscard(result: Option<Outcome>)
    | SelectChiTile(index: int)
    | CallPon
    | SelectPonTile(index: int)
    | CallKanDrawn
    | CallKanDiscard
    | SelectKanTile(index: int)
    | CallRiichi(result: Option<Outcome>)
    | SelectRiichiTile(index: int)
    | CheckFuriten(result: Option<Outcome>)
    | CallRon(result: Option<Outcome>)
    | CallTsumo(result: Option<Outcome>)
    | ClearErrorMessage
    | EscapeSelection
    | LogShanten(result: Option<Outcome>)

  // ---------------------------------------------------------------------
  // Messages
  // ---------------------------------------------------------------------

  const RiichiHandLocked := "Can't modify riichi hand"
  const CannotChi := "Cannot Chi that tile"
  const NotChi := "Thats not Chi"
  const NotPon := "Thats not Pon"
  const NotKan := "Thats not Kan"
  const KanSizeError := "Something went wrong: finalTiles not length 4."
  const RiichiNotNow := "Cannot call riichi now"
  const NoRiichiDiscards := "No valid Riichi discards with real yaku."
  const NoRiichiInProgress := "No valid Riichi discard in progress"
  const BadRiichiIndex := "Invalid tile index for Riichi selection"
  const NotTenpaiDiscard := "That discard does not keep you in Tenpai"
  const RiichiFuritenPass := "Riichi Furiten for the rest of the round"
  const TempFuritenPass := "Temporary Furiten for this turn"
  const CannotRon := "Cannot Ron"
  const RiichiFuritenRon := "Riichi Furiten for the rest of the round."
  const TempFuritenRon := "Temp Furiten for this turn."
  const OwnDiscardFuriten := "Furiten due to your own discards."
  const RonRecheckFailed := "Cannot Ron upon double-check."
  const TsumoNotYourTurn := "Cannot Tsumo, not your turn!"
  const NoTsumoTile := "No tile to Tsumo!"
  const CannotTsumo := "Cannot Tsumo with that tile."

  // ---------------------------------------------------------------------
  // Starting a round
  // ---------------------------------------------------------------------

  /** The wind order of a new game, and of the East-marker in the layout. */
  const SeatWinds: seq<Wind> := [East, South, West, North]

  /** The wind order the new-round case walks and hands seats out by. */
  const NewRoundWinds: seq<Wind> := [East, North, West, South]

  function RoundHands(round: Setup.InitializedRound): (hs: seq<seq<Tile>>)
    ensures |hs| == 4
  {
    [round.eastHand, round.southHand, round.westHand, round.northHand]
  }

  /** Every wind appears in both orders. */
  lemma {:induction false} WindsListed(w: Wind)
    ensures w in SeatWinds && w in NewRoundWinds
  {
    match w
    case East =>
    case South => assert SeatWinds[1] == w && NewRoundWinds[3] == w;
    case West => assert SeatWinds[2] == w && NewRoundWinds[2] == w;
    case North => assert SeatWinds[3] == w && NewRoundWinds[1] == w;
  }

  /**
   * The snapshot every new game or round starts from: the table, the dealt
   * hands and walls, and every pending selection, error message, furiten
   * flag and phase flag cleared, with only `tenhouPhase` raised. The rule,
   * the input focus and the stored dora indicator are kept.
   */
  function StartRound(s: AppState, table: Table, seed: string, round: Setup.InitializedRound,
                      hand: seq<Tile>, wall: seq<Tile>, kan: seq<Tile>, dora: seq<Tile>, uradora: seq<Tile>,
                      kamicha: seq<Tile>, toimen: seq<Tile>, shimocha: seq<Tile>, turn: Seat): (r: AppState)
    ensures Idle(r) && r.tenhouPhase && r.input.melds == [] && r.input.drawnTile.None?
    ensures r.watashiDiscards == [] && r.kamichaDiscards == [] && r.toimenDiscards == [] && r.shimochaDiscards == []
    ensures !r.furiten && !r.tempFuriten && !r.riichiFuriten && !r.ippatsuPhase && !r.rinshanKaihouPhase
    ensures !r.mustDiscard && !r.roundOver && !r.gameOver && r.riichiDiscardIndex.None?
    ensures AllTiles(r) == wall + kan + dora + uradora + hand + kamicha + toimen + shimocha
  {
    var r := s.(
      table := table,
      input := Input(round.doraIndicator, hand, None, []),
      handOptions := InitialHandOptions(),
      seed := Some(seed), liveWallCut := round.liveWallCut, dice1 := round.dice1, dice2 := round.dice2,
      wall := wall, wanpaiDora := dora, wanpaiUradora := uradora, wanpaiKan := kan, wanpaiHaitei := [],
      kamichaHand := kamicha, toimenHand := toimen, shimochaHand := shimocha,
      watashiDiscards := [], kamichaDiscards := [], toimenDiscards := [], shimochaDiscards := [],
      currentTurn := turn, reactionPhase := false, discardCheck := None,
      chiSelection := None, chiErrorMessage := None, ponSelection := None, ponErrorMessage := None,
      kanSelection := None, kanErrorMessage := None,
      riichiSelection := false, approveRiichiDiscards := [], riichiErrorMessage := None,
      furiten := false, tempFuriten := false, riichiFuriten := false,
      ronErrorMessage := None, tsumoErrorMessage := None,
      tenhouPhase := true, ippatsuPhase := false, riichiDiscardIndex := None, rinshanKaihouPhase := false,
      haiteiPhase := false, houteiPhase := false, mustDiscard := false, roundOver := false, gameOver := false);
    assert MeldTiles([]) == [];
    assert AllTiles(r) == wall + kan + dora + uradora + [] + hand + [] + kamicha + toimen + shimocha + [] + [] + [] + [];
    r
  }

  /** The first hand of a game: east round, hand one, no counters, the given seat wind. */
  function FirstTable(seat: Wind): (t: Table)
    ensures t.round == East && t.seat == seat && t.roundCount == 1
    ensures !t.honba && !t.riichiLastGame && t.continuation == 0 && t.deposit == 0
  {
    Table(East, seat, 1, false, false, 0, 0)
  }

  /**
   * A fresh round: the seats are handed out from `seat` along `order`, the
   * observed hand is sorted, and the walls and reserves are the set-up's.
   */
  function DealRound(s: AppState, table: Table, order: seq<Wind>, seat: Wind, round: Setup.InitializedRound,
                     seed: string, cmp: Comparator): AppState
    requires |order| == 4 && seat in order
  {
    var a := Setup.AssignHandsAndCurrentTurn(order, seat, RoundHands(round));
    StartRound(s, table, seed, round, SortBy(a.watashi, cmp),
               round.wall, round.wanpaiKan, round.wanpaiDora, round.wanpaiUradora,
               a.kamicha, a.toimen, a.shimocha, a.currentTurn)
  }

  /** `new-game`: deal a fresh round and hand the seats out from the drawn wind, in the order east, south, west, north. */
  function OnNewGame(s: AppState, round: Setup.InitializedRound, seed: string, seat: Wind, cmp: Comparator): AppState
  {
    WindsListed(seat);
    DealRound(s, FirstTable(seat), SeatWinds, seat, round, seed, cmp)
  }

  // ---------------------------------------------------------------------
  // The custom deal
  // ---------------------------------------------------------------------

  function Lengths(ls: seq<seq<Tile>>): (ns: seq<nat>)
    ensures |ns| == |ls| && forall k :: 0 <= k < |ls| ==> ns[k] == |ls[k]|
  {
    if ls == [] then [] else [|ls[0]|] + Lengths(ls[1..])
  }

  /** Cuts a list into consecutive pieces of the given lengths (the last pieces short when it runs out). */
  function Unflatten(xs: seq<Tile>, ns: seq<nat>): (ls: seq<seq<Tile>>)
    ensures |ls| == |ns|
  {
    if ns == [] then []
    else
      var k := if ns[0] <= |xs| then ns[0] else |xs|;
      [xs[..k]] + Unflatten(xs[k..], ns[1..])
  }

  /** Cutting the concatenation of lists at their own lengths gives the lists back. */
  lemma {:induction false} UnflattenFlat(ls: seq<seq<Tile>>)
    ensures Unflatten(Setup.Flat(ls), Lengths(ls)) == ls
  {
    if ls != [] {
      Setup.FlatSplitAt(ls, 0);
      assert ls[..0] == [];
      var xs := Setup.Flat(ls);
      assert xs == ls[0] + Setup.Flat(ls[1..]);
      assert xs[..|ls[0]|] == ls[0];
      assert xs[|ls[0]|..] == Setup.Flat(ls[1..]);
      UnflattenFlat(ls[1..]);
      assert ls == [ls[0]] + ls[1..];
    }
  }

  /** The lists the custom deal searches, in search order: live wall, the three reserves, kamicha, toimen, shimocha. */
  function SearchedLists(round: Setup.InitializedRound, a: Setup.Assignment): (ls: seq<seq<Tile>>)
    ensures |ls| == 7
  {
    [round.wall, round.wanpaiKan, round.wanpaiDora, round.wanpaiUradora, a.kamicha, a.toimen, a.shimocha]
  }

  /** The hands of a new game, handed out from `seat` in the order east, south, west, north. */
  function GameSeats(round: Setup.InitializedRound, seat: Wind): Setup.Assignment
  {
    WindsListed(seat);
    Setup.AssignHandsAndCurrentTurn(SeatWinds, seat, RoundHands(round))
  }

  /** The observed hand and the searched lists, before any trade. */
  function CustomStart(round: Setup.InitializedRound, seat: Wind): CustomDeal.Deal
  {
    var a := GameSeats(round, seat);
    CustomDeal.Deal(a.watashi, Setup.Flat(SearchedLists(round, a)))
  }

  /**
   * The new game once the trades `d` are done: the searched lists are cut
   * back at their own lengths. The dora shown is the indicator the set-up
   * picked, even when the trades changed the dora reserve.
   */
  function CustomRound(s: AppState, d: CustomDeal.Deal, round: Setup.InitializedRound, seed: string, seat: Wind,
                       cmp: Comparator): AppState
  {
    var a := GameSeats(round, seat);
    var ls := Unflatten(d.rest, Lengths(SearchedLists(round, a)));
    StartRound(s, FirstTable(seat), seed, round, SortBy(d.hand, cmp),
               ls[0], ls[1], ls[2], ls[3], ls[4], ls[5], ls[6], a.currentTurn)
  }

  /** `custom-new-game`: a new game whose observed hand is then traded, position by position, towards the requested hand. */
  function OnCustomNewGame(s: AppState, custom: seq<Tile>, round: Setup.InitializedRound, seed: string, seat: Wind,
                           cmp: Comparator): AppState
  {
    CustomRound(s, CustomDeal.Swapped(custom, |custom|, CustomStart(round, seat)), round, seed, seat, cmp)
  }

  // ---------------------------------------------------------------------
  // The next round
  // ---------------------------------------------------------------------

  /** The seat wind of the next round: one step along east, north, west, south. */
  function NextRoundSeat(w: Wind): Wind
  {
    WindsListed(w);
    NewRoundWinds[(Setup.IndexOf(NewRoundWinds, w) + 1) % 4]
  }

  /** The table of the next round: counters carried by the honba and riichi flags of the last one. */
  function NextTable(t: Table): (r: Table)
    ensures r.round == East && r.seat == NextRoundSeat(t.seat) && r.roundCount == t.roundCount + 1
    ensures !r.honba && !r.riichiLastGame
    ensures r.continuation == (if t.honba then t.continuation + 1 else 0)
    ensures r.deposit == (if t.riichiLastGame then t.deposit + 1 else 0)
  {
    Table(East, NextRoundSeat(t.seat), t.roundCount + 1, false, false,
          if t.honba then t.continuation + 1 else 0,
          if t.riichiLastGame then t.deposit + 1 else 0)
  }

  /** `new-round`: deal again; the seats are handed out in the order east, north, west, south. */
  function OnNewRound(s: AppState, round: Setup.InitializedRound, seed: string, cmp: Comparator): AppState
  {
    var next := NextRoundSeat(s.table.seat);
    WindsListed(next);
    DealRound(s, NextTable(s.table), NewRoundWinds, next, round, seed, cmp)
  }

  // ---------------------------------------------------------------------
  // Drawing and discarding
  // ---------------------------------------------------------------------

  function Last(p: seq<Tile>): Tile
    requires |p| > 0
  {
    p[|p| - 1]
  }

  /** `draw-tile`: on the observed player's turn, with no tile held, the last live-wall tile is drawn. */
  function OnDrawTile(s: AppState): AppState
  {
    if |s.wall| == 0 || s.currentTurn != Watashi || s.input.drawnTile.Some? then s
    else
      s.(wall := DropLast(s.wall), input := s.input.(drawnTile := Some(Last(s.wall))),
         discardCheck := None, tempFuriten := false)
  }

  /** The observed player could claim `t` discarded by `from`: ron, or (outside riichi) chi from kamicha, pon or kan. */
  predicate CanReact(s: AppState, t: Tile, from: Seat, result: Option<Outcome>, cmp: Comparator)
  {
    CanRon(s, t, result, cmp)
    || (!InRiichi(s.handOptions)
        && ((from == Kamicha && CanWatashiChi(s.input.hand, t))
            || CanWatashiPon(s.input.hand, t) || CanWatashiOpenKan(s.input.hand, t)))
  }

  /**
   * `store-discard`: the seat to move discards the last live-wall tile onto
   * its pile; the turn stops for the observed player's reaction when one is
   * possible and passes on otherwise.
   */
  function OnStoreDiscard(s: AppState, result: Option<Outcome>, cmp: Comparator): AppState
  {
    if s.currentTurn == Watashi || |s.wall| == 0 then s
    else StoreWallTile(s, CanReact(s, Last(s.wall), s.currentTurn, result, cmp))
  }

  /** The discard itself: the last live-wall tile onto the mover's pile; then wait for a reaction or pass the turn. */
  function StoreWallTile(s: AppState, react: bool): AppState
    requires |s.wall| > 0
  {
    var t := Last(s.wall);
    var s1 := WithPile(s.(wall := DropLast(s.wall)), s.currentTurn, Pile(s, s.currentTurn) + [t]);
    if react then s1.(discardCheck := Some(DiscardCheck(t, s.currentTurn)), reactionPhase := true)
    else s1.(discardCheck := None, currentTurn := NextSeat(s.currentTurn), reactionPhase := false)
  }

  /** `filter((_, i) => i !== index)`. */
  function RemoveAt(xs: seq<Tile>, i: int): (r: seq<Tile>)
    requires 0 <= i < |xs|
    ensures |r| == |xs| - 1 && multiset(r) == multiset(xs) - multiset{xs[i]}
  {
    assert xs == xs[..i] + [xs[i]] + xs[i + 1..];
    xs[..i] + xs[i + 1..]
  }

  /** `remove-hand-tile`: discard any tile of the hand and drawn tile, re-sort the rest, pass the turn. */
  function OnRemoveHandTile(s: AppState, index: int, cmp: Comparator): AppState
  {
    if InRiichi(s.handOptions) then s.(riichiErrorMessage := Some(RiichiHandLocked))
    else
      if index < 0 || index >= |FullHand(s.input)| then s
      else DiscardFromHand(s, index, cmp)
  }

  /** The discard itself: the chosen tile of hand and held tile onto the observed player's pile, the rest re-sorted. */
  function DiscardFromHand(s: AppState, index: int, cmp: Comparator): AppState
    requires 0 <= index < |FullHand(s.input)|
  {
    var full := FullHand(s.input);
    s.(input := s.input.(hand := SortBy(RemoveAt(full, index), cmp), drawnTile := None),
       watashiDiscards := s.watashiDiscards + [full[index]],
       currentTurn := NextSeat(s.currentTurn),
       mustDiscard := false, tenhouPhase := false, ippatsuPhase := false, rinshanKaihouPhase := false)
  }

  /** `discard-drawn-tile`: the held tile goes to the observed player's pile and the turn passes. */
  function OnDiscardDrawnTile(s: AppState): AppState
  {
    if s.input.drawnTile.None? then s
    else
      s.(input := s.input.(drawnTile := None),
         watashiDiscards := s.watashiDiscards + [s.input.drawnTile.value],
         currentTurn := NextSeat(s.currentTurn), inputFocus := FocusHand,
         tenhouPhase := false, ippatsuPhase := false)
  }

  // ---------------------------------------------------------------------
  // End of a round or game
  // ---------------------------------------------------------------------

  /**
   * `round-over`: the round ends. It is a drawn round (honba) when nobody
   * won and the hand was not tenpai; the riichi stick carries over when the
   * observed player was in riichi.
   */
  function OnRoundOver(s: AppState, result: Option<Outcome>): AppState
  {
    if result.None? then s
    else
      var honba := !s.handOptions.ron && !s.handOptions.tsumo && !IsHoraResult(result);
      s.(roundOver := true,
         table := s.table.(honba := honba, riichiLastGame := InRiichi(s.handOptions)))
  }

  function OnGameOver(s: AppState): AppState
  {
    s.(gameOver := true)
  }

  // ---------------------------------------------------------------------
  // Chi
  // ---------------------------------------------------------------------

  /** `call-chi`: a suited kamicha discard some run of the hand completes opens a chi selection. */
  function OnCallChi(s: AppState): AppState
  {
    if !s.reactionPhase || s.discardCheck.None? then s
    else
      var dc := s.discardCheck.value;
      var t := dc.tile;
      if dc.fromPlayer != Kamicha then s
      else if t.suit == Z || t.n < 1 || t.n > 9 then s
      else
        var valid := ValidSequences(s.input.hand, t, RunsWith(Runs, t.n));
        if valid == [] then s.(chiErrorMessage := Some(CannotChi))
        else if InRiichi(s.handOptions) then s.(riichiErrorMessage := Some(RiichiHandLocked))
        else s.(chiSelection := Some(ChiSelection(Some(t), dc.fromPlayer, valid, [], [])))
  }

  /** Ascending by number (the comparator `a.n - b.n`). */
  function ByNumber(a: Tile, b: Tile): int { a.n - b.n }

  /** Ascending integers (the comparator `a - b`). */
  function Ascending(a: int, b: int): int { a - b }

  function Numbers(ts: seq<Tile>): (ns: seq<int>)
    ensures |ns| == |ts| && forall i :: 0 <= i < |ts| ==> ns[i] == ts[i].n
  {
    if ts == [] then [] else Numbers(ts[..|ts| - 1]) + [ts[|ts| - 1].n]
  }

  /** `seq.every((n, i) => sortedNumbers[i] === n)`. */
  predicate RunMatches(run: seq<int>, ns: seq<int>)
  {
    forall i :: 0 <= i < |run| ==> i < |ns| && ns[i] == run[i]
  }

  /** The chi meld: the discard first, then the picks in ascending number order. */
  function ChiTiles(discard: Tile, picks: seq<Tile>): seq<Tile>
  {
    [discard] + SortBy(picks, ByNumber)
  }

  /** Every tile of the meld is of the discard's suit and its sorted numbers are one of the offered runs. */
  predicate ValidChi(discard: Tile, tiles: seq<Tile>, runs: seq<seq<int>>)
  {
    && (forall i :: 0 <= i < |tiles| ==> tiles[i].suit == discard.suit)
    && exists k :: 0 <= k < |runs| && RunMatches(runs[k], SortBy(Numbers(tiles), Ascending))
  }

  /**
   * `select-chi-tile`: collect two hand tiles; then either form the chi
   * (remove the picks and the claimed discard, take the turn) or drop the
   * selection with an error.
   */
  function OnSelectChiTile(s: AppState, index: int): AppState
  {
    if s.chiSelection.None? || s.chiSelection.value.discardTile.None? then s
    else
      var sel := s.chiSelection.value;
      var discard := sel.discardTile.value;
      if index in sel.pickedTileIndices || index < 0 || index >= |s.input.hand| then s
      else
        var picks := sel.pickedTiles + [s.input.hand[index]];
        var indices := sel.pickedTileIndices + [index];
        if |picks| < 2 then s.(chiSelection := Some(sel.(pickedTiles := picks, pickedTileIndices := indices)))
        else
          var tiles := ChiTiles(discard, picks);
          if !ValidChi(discard, tiles, sel.possibleSequences) then
            s.(chiSelection := None, reactionPhase := false, chiErrorMessage := Some(NotChi))
          else ClaimMeld(s, sel.discardKey, picks, Chii(tiles)).(chiSelection := None)
  }

  /**
   * A claimed meld is formed (chi and pon alike): the picks leave the hand,
   * the meld joins the melds, the claimed tile leaves the top of its pile,
   * and the observed player takes the turn and must discard.
   */
  function ClaimMeld(s: AppState, key: Seat, picks: seq<Tile>, meld: Meld): AppState
  {
    var s1 := WithPile(s, key, DropLast(Pile(s, key)));
    s1.(input := s.input.(hand := RemovePicked(s.input.hand, picks), melds := s.input.melds + [meld]),
        reactionPhase := false, mustDiscard := true, currentTurn := Watashi)
  }

  // ---------------------------------------------------------------------
  // Pon
  // ---------------------------------------------------------------------

  /** `call-pon`: two hand tiles of the discard's kind open a pon selection. */
  function OnCallPon(s: AppState): AppState
  {
    if !s.reactionPhase || s.discardCheck.None? then s
    else
      var dc := s.discardCheck.value;
      var t := dc.tile;
      if |Pile(s, dc.fromPlayer)| == 0 then s
      else if KindCount(s.input.hand, t.suit, t.n) < 2 then s
      else if InRiichi(s.handOptions) then s.(riichiErrorMessage := Some(RiichiHandLocked))
      else s.(ponSelection := Some(PonSelection(Some(t), dc.fromPlayer, [], [])))
  }

  /** The position of the claimed tile in a pon: by the seat it came from, -1 when unknown. */
  function PonIndex(dc: Option<DiscardCheck>): int
  {
    if dc.None? then -1
    else match dc.value.fromPlayer
      case Shimocha => 2
      case Toimen => 1
      case Kamicha => 0
      case Watashi => -1
  }

  predicate AllOfKind(ts: seq<Tile>, suit: Suit, n: int)
  {
    forall i :: 0 <= i < |ts| ==> ts[i].suit == suit && ts[i].n == n
  }

  /** `select-pon-tile`: collect two hand tiles; then form the pon or drop the selection with an error. */
  function OnSelectPonTile(s: AppState, index: int): AppState
  {
    if index < 0 || index >= |s.input.hand| then s
    else if s.ponSelection.None? || s.ponSelection.value.discardTile.None? then s
    else
      var sel := s.ponSelection.value;
      var discard := sel.discardTile.value;
      if index in sel.pickedTileIndices then s
      else
        var picks := sel.pickedTiles + [s.input.hand[index]];
        var indices := sel.pickedTileIndices + [index];
        if |picks| < 2 then s.(ponSelection := Some(sel.(pickedTiles := picks, pickedTileIndices := indices)))
        else
          var tiles := picks + [discard];
          if !AllOfKind(tiles, discard.suit, discard.n) then
            s.(ponSelection := None, reactionPhase := false, ponErrorMessage := Some(NotPon))
          else ClaimMeld(s, sel.discardKey, picks, Pon(tiles, Some(PonIndex(s.discardCheck)))).(ponSelection := None)
  }

  // ---------------------------------------------------------------------
  // Kan
  // ---------------------------------------------------------------------

  /** The next dora indicator is revealed from the dora reserve while one is left. */
  function RevealDora(dora: seq<Tile>, reserve: seq<Tile>): (r: seq<Tile>)
    ensures |dora| < |reserve| ==> r == dora + [reserve[|dora|]]
    ensures |dora| >= |reserve| ==> r == dora
  {
    if |dora| < |reserve| then dora + [reserve[|dora|]] else dora
  }

  /**
   * The draw after a kan: the first kan reserve tile becomes the held tile,
   * the first live-wall tile moves to the haitei reserve, and the next dora
   * is revealed.
   */
  function KanDraw(s: AppState): AppState
  {
    var drawn := if |s.wanpaiKan| > 0 then Some(s.wanpaiKan[0]) else None;
    var kan := if |s.wanpaiKan| > 0 then s.wanpaiKan[1..] else [];
    var haitei := if |s.wall| > 0 then s.wanpaiHaitei + [s.wall[0]] else s.wanpaiHaitei;
    var wall := if |s.wall| > 0 then s.wall[1..] else [];
    s.(wall := wall, wanpaiKan := kan, wanpaiHaitei := haitei,
       input := s.input.(drawnTile := drawn, dora := RevealDora(s.input.dora, s.wanpaiDora)))
  }

  /** A pon of three tiles, all of the kind of `t`. */
  predicate UpgradablePon(m: Meld, t: Tile)
  {
    m.Pon? && |m.tiles| == 3 && AllOfKind(m.tiles, t.suit, t.n)
  }

  /** `findIndex` of the first pon the tile `t` upgrades, or -1. */
  function FindPon(melds: seq<Meld>, t: Tile): (i: int)
    ensures -1 <= i < |melds|
    ensures i >= 0 ==> UpgradablePon(melds[i], t) && forall j :: 0 <= j < i ==> !UpgradablePon(melds[j], t)
    ensures i < 0 ==> forall j :: 0 <= j < |melds| ==> !UpgradablePon(melds[j], t)
  {
    if melds == [] then -1
    else if UpgradablePon(melds[0], t) then 0
    else
      var k := FindPon(melds[1..], t);
      assert forall j :: 1 <= j < |melds| ==> melds[1..][j - 1] == melds[j];
      if k < 0 then -1 else k + 1
  }

  /** Some kind has exactly four tiles in the hand. */
  predicate HasFourOfAKind(hand: seq<Tile>)
  {
    exists i :: 0 <= i < |hand| && KindCount(hand, hand[i].suit, hand[i].n) == 4
  }

  /** The counting loop of the ankan test and the search for a key counted four times. */
  method FindFourOfAKind(hand: seq<Tile>) returns (found: bool)
    ensures found == HasFourOfAKind(hand)
  {
    var keys, counts, reds := HandParse.CountTiles(hand);
    HandParse.CountTableExact(hand);
    var j := 0;
    while j < |keys|
      invariant 0 <= j <= |keys|
      invariant forall i :: 0 <= i < j ==> KindCount(hand, keys[i].0, keys[i].1) != 4
    {
      if counts[keys[j]] == 4 {
        FourFromKey(hand, keys[j]);
        return true;
      }
      j := j + 1;
    }
    NoFourFromKeys(hand, keys);
    return false;
  }

  lemma {:induction false} FourFromKey(hand: seq<Tile>, k: HandParse.Kind)
    requires KindCount(hand, k.0, k.1) == 4
    ensures HasFourOfAKind(hand)
  {
    var i := KindWitness(hand, k.0, k.1);
  }

  /** A kind counted in the hand has a tile of that kind there. */
  lemma {:induction false} KindWitness(hand: seq<Tile>, suit: Suit, n: int) returns (i: int)
    requires KindCount(hand, suit, n) > 0
    ensures 0 <= i < |hand| && hand[i].suit == suit && hand[i].n == n
  {
    var last := hand[|hand| - 1];
    if last.suit == suit && last.n == n {
      i := |hand| - 1;
    } else {
      i := KindWitness(hand[..|hand| - 1], suit, n);
    }
  }

  lemma {:induction false} NoFourFromKeys(hand: seq<Tile>, keys: seq<HandParse.Kind>)
    requires keys == HandParse.Kinds(hand)
    requires forall i :: 0 <= i < |keys| ==> KindCount(hand, keys[i].0, keys[i].1) != 4
    ensures !HasFourOfAKind(hand)
  {
    forall i | 0 <= i < |hand|
      ensures KindCount(hand, hand[i].suit, hand[i].n) != 4
    {
      var k := HandParse.KindOf(hand[i]);
      KindPresent(hand, i);
      assert k in keys;
    }
  }

  lemma {:induction false} KindPresent(hand: seq<Tile>, i: int)
    requires 0 <= i < |hand|
    ensures KindCount(hand, hand[i].suit, hand[i].n) > 0
  {
    var t := hand[i];
    assert hand == hand[..i] + [t] + hand[i + 1..];
    KindCountAppend(hand[..i] + [t], hand[i + 1..], t.suit, t.n);
    KindCountAppend(hand[..i], [t], t.suit, t.n);
    assert [t][..0] == [];
  }

  /**
   * `call-kan-drawn`, on the observed player's turn: a held tile upgrades an
   * earlier pon to a kan at once (shouminkan), or opens a kan selection with
   * three matching hand tiles; otherwise four matching hand tiles open an
   * ankan selection.
   */
  function OnCallKanDrawn(s: AppState): AppState
  {
    if s.currentTurn != Watashi then s
    else if s.input.drawnTile.Some? && FindPon(s.input.melds, s.input.drawnTile.value) >= 0 then
      UpgradePon(s, FindPon(s.input.melds, s.input.drawnTile.value))
    else if s.input.drawnTile.Some? && KindCount(s.input.hand, s.input.drawnTile.value.suit, s.input.drawnTile.value.n) >= 3 then
      s.(kanSelection := Some(KanSelection(s.input.drawnTile, None, [], [], true)))
    else if HasFourOfAKind(s.input.hand) then
      s.(kanSelection := Some(KanSelection(None, None, [], [], false)))
    else s
  }

  /**
   * Shouminkan: the pon at position `k` leaves the melds and comes back at
   * the end as an open kan with the held tile added, and the kan draw
   * follows; the round ends with the fifth dora indicator.
   */
  function UpgradePon(s: AppState, k: int): AppState
    requires s.input.drawnTile.Some? && 0 <= k < |s.input.melds| && s.input.melds[k].Pon?
  {
    var s2 := KanDraw(PonToKan(s, k));
    s2.(kanSelection := None, currentTurn := Watashi, roundOver := |s2.input.dora| == 5)
  }

  /** The pon at position `k` leaves the melds and comes back last as an open kan with the held tile added. */
  function PonToKan(s: AppState, k: int): AppState
    requires s.input.drawnTile.Some? && 0 <= k < |s.input.melds| && s.input.melds[k].Pon?
  {
    var pon := s.input.melds[k];
    var kan := Kan(pon.tiles + [s.input.drawnTile.value], pon.discardIndex, false, Some(true));
    s.(input := s.input.(melds := s.input.melds[..k] + s.input.melds[k + 1..] + [kan]))
  }

  /** `call-kan-discard`: three hand tiles of the discard's kind open a kan selection on it. */
  function OnCallKanDiscard(s: AppState): AppState
  {
    if !s.reactionPhase || s.discardCheck.None? then s
    else
      var dc := s.discardCheck.value;
      if KindCount(s.input.hand, dc.tile.suit, dc.tile.n) < 3 then s
      else if InRiichi(s.handOptions) then s.(riichiErrorMessage := Some(RiichiHandLocked))
      else s.(kanSelection := Some(KanSelection(Some(dc.tile), Some(dc.fromPlayer), [], [], false)))
  }

  /** The position of the claimed tile in an open kan: by the seat it came from. */
  function KanIndex(dc: Option<DiscardCheck>): Option<int>
  {
    if dc.None? then None
    else match dc.value.fromPlayer
      case Shimocha => Some(3)
      case Toimen => Some(1)
      case Kamicha => Some(0)
      case Watashi => None
  }

  /** The kan meld: the picks, then the outside tile when there is one. */
  function KanTiles(sel: KanSelection, picks: seq<Tile>): seq<Tile>
  {
    if sel.discardTile.Some? then picks + [sel.discardTile.value] else picks
  }

  /** The tiles a kan selection still needs from the hand: four for an ankan, three otherwise. */
  function Required(sel: KanSelection): nat
  {
    if sel.discardTile.None? then 4 else 3
  }

  /**
   * The completed kan: the picks leave the hand, the meld is added, a
   * claimed discard leaves its pile, and the kan draw follows. The held tile
   * is replaced by the kan draw in every case.
   */
  function FormKan(s: AppState, sel: KanSelection, picks: seq<Tile>): AppState
  {
    var s3 := KanDraw(KanMeld(s, sel, picks));
    s3.(rinshanKaihouPhase := true, roundOver := s3.roundOver || |s3.input.dora| == 5)
  }

  /** The kan meld is laid down: the picks leave the hand, the meld is added, and a claimed discard leaves its pile. */
  function KanMeld(s: AppState, sel: KanSelection, picks: seq<Tile>): AppState
  {
    var s1 := KanLay(s, sel, picks);
    if sel.discardKey.None? then s1 else WithPile(s1, sel.discardKey.value, DropLast(Pile(s1, sel.discardKey.value)))
  }

  /** The picks leave the hand and the kan of the picks and the outside tile joins the melds, closed when no pile is claimed. */
  function KanLay(s: AppState, sel: KanSelection, picks: seq<Tile>): AppState
  {
    var tiles := KanTiles(sel, picks);
    var index := if sel.discardTile.Some? && Required(sel) == 3 then KanIndex(s.discardCheck) else None;
    s.(input := s.input.(hand := RemovePicked(s.input.hand, picks),
                         melds := s.input.melds + [Kan(tiles, index, sel.discardKey.None?, Some(false))]),
       kanSelection := None, reactionPhase := false, currentTurn := Watashi,
       tenhouPhase := false, ippatsuPhase := false)
  }

  /** A kan pick either settles the step (`KanSettled`) or completes a valid selection (`KanReady`). */
  datatype KanPick = KanSettled(next: AppState) | KanReady(sel: KanSelection, picks: seq<Tile>)

  /**
   * One pick of `select-kan-tile`: ignored, recorded while more are needed,
   * or checked once enough are in: a wrong count or mixed kinds drop the
   * selection with an error.
   */
  function PickKanTile(s: AppState, index: int): KanPick
  {
    if s.kanSelection.None? then KanSettled(s)
    else
      var sel := s.kanSelection.value;
      if index in sel.pickedTileIndices || index < 0 || index >= |s.input.hand| then KanSettled(s)
      else
        var picks := sel.pickedTiles + [s.input.hand[index]];
        var indices := sel.pickedTileIndices + [index];
        if |picks| < Required(sel) then
          KanSettled(s.(kanSelection := Some(sel.(pickedTiles := picks, pickedTileIndices := indices))))
        else
          var tiles := KanTiles(sel, picks);
          if |tiles| != 4 then KanSettled(s.(kanSelection := None, kanErrorMessage := Some(KanSizeError)))
          else if !AllOfKind(tiles, tiles[0].suit, tiles[0].n) then
            KanSettled(s.(kanSelection := None, reactionPhase := false, kanErrorMessage := Some(NotKan)))
          else KanReady(sel, picks)
  }

  /** `select-kan-tile`. */
  function OnSelectKanTile(s: AppState, index: int): AppState
  {
    match PickKanTile(s, index)
    case KanSettled(next) => next
    case KanReady(sel, picks) => FormKan(s, sel, picks)
  }

  // ---------------------------------------------------------------------
  // Riichi
  // ---------------------------------------------------------------------

  /** Every meld is a closed kan (the concealed-hand test of riichi). */
  predicate Menzen(melds: seq<Meld>)
  {
    forall i :: 0 <= i < |melds| ==> melds[i].Kan? && melds[i].closed
  }

  /** The next outcome is a winning one. */
  predicate LeadsToHora(d: Discard)
  {
    d.next.HoraShanten? && d.next.info.HoraInfo?
  }

  /** The tiles whose discard leaves a winning wait, in order. */
  function RiichiDiscards(ds: seq<Discard>): (ts: seq<Tile>)
    ensures |ts| <= |ds|
  {
    if ds == [] then []
    else RiichiDiscards(ds[..|ds| - 1]) + (if LeadsToHora(ds[|ds| - 1]) then [ds[|ds| - 1].tile] else [])
  }

  /** Riichi may be called: a result with discard options, own turn, a held tile, five wall tiles, no riichi yet, concealed hand. */
  predicate RiichiAllowed(s: AppState, result: Option<Outcome>)
  {
    && result.Some? && s.currentTurn == Watashi && |s.wall| >= 5 && result.value.DiscardShanten?
    && s.input.drawnTile.Some? && s.handOptions.riichi == NoRiichi && !s.riichiSelection && Menzen(s.input.melds)
  }

  /** `call-riichi`: offer the discards that keep a winning wait. */
  function OnCallRiichi(s: AppState, result: Option<Outcome>): AppState
  {
    if !RiichiAllowed(s, result) then s.(riichiErrorMessage := Some(RiichiNotNow))
    else
      var tiles := RiichiDiscards(result.value.discards);
      if tiles == [] then s.(riichiSelection := false, riichiErrorMessage := Some(NoRiichiDiscards))
      else s.(riichiSelection := true, approveRiichiDiscards := tiles, riichiErrorMessage := None, mustDiscard := true)
  }

  /** `approveRiichiDiscards.some(approved => compareTiles(approved, t) === 0)`. */
  predicate Approved(approved: seq<Tile>, t: Tile, cmp: Comparator)
  {
    exists k :: 0 <= k < |approved| && cmp(approved[k], t) == 0
  }

  /**
   * `select-riichi-tile`: an approved discard declares riichi (double riichi
   * before any own discard) and passes the turn; any other tile cancels the
   * selection.
   */
  function OnSelectRiichiTile(s: AppState, index: int, cmp: Comparator): AppState
  {
    if !s.riichiSelection then s.(riichiErrorMessage := Some(NoRiichiInProgress))
    else
      var full := FullHand(s.input);
      if index < 0 || index >= |full| then s.(riichiErrorMessage := Some(BadRiichiIndex))
      else if !Approved(s.approveRiichiDiscards, full[index], cmp) then
        s.(riichiSelection := false, approveRiichiDiscards := [], mustDiscard := false,
           riichiErrorMessage := Some(NotTenpaiDiscard))
      else DeclareRiichi(s, index, cmp)
  }

  /** The riichi discard: the tile leaves hand and held tile for the pile, and riichi (double before any own discard) is declared. */
  function DeclareRiichi(s: AppState, index: int, cmp: Comparator): AppState
    requires 0 <= index < |FullHand(s.input)|
  {
    var full := FullHand(s.input);
    s.(input := s.input.(hand := SortBy(RemoveAt(full, index), cmp), drawnTile := None),
       watashiDiscards := s.watashiDiscards + [full[index]],
       riichiSelection := false, approveRiichiDiscards := [], mustDiscard := false,
       handOptions := s.handOptions.(riichi := if |s.watashiDiscards| == 0 then DoubleRiichi else Riichi),
       ippatsuPhase := true, riichiDiscardIndex := Some(|s.watashiDiscards|),
       currentTurn := NextSeat(s.currentTurn), riichiErrorMessage := None)
  }

  // ---------------------------------------------------------------------
  // Furiten, ron and tsumo
  // ---------------------------------------------------------------------

  /** `pass-discard`: passing a winning discard raises riichi furiten in riichi, temporary furiten otherwise; the turn passes. */
  function OnPassDiscard(s: AppState, result: Option<Outcome>, cmp: Comparator): AppState
  {
    if !s.reactionPhase || s.discardCheck.None? then s
    else
      var passingRon := CanRon(s, s.discardCheck.value.tile, result, cmp);
      var riichiFuriten := s.riichiFuriten || (passingRon && InRiichi(s.handOptions));
      var tempFuriten := s.tempFuriten || (passingRon && !InRiichi(s.handOptions));
      s.(discardCheck := None, reactionPhase := false, currentTurn := NextSeat(s.currentTurn),
         tempFuriten := tempFuriten, riichiFuriten := riichiFuriten,
         ronErrorMessage := if riichiFuriten then Some(RiichiFuritenPass)
                            else if tempFuriten then Some(TempFuritenPass) else None)
  }

  /** Some own discard is a winning tile of the result. */
  predicate OwnDiscardWins(discards: seq<Tile>, lines: seq<Hora>, cmp: Comparator)
  {
    exists i, j :: 0 <= i < |discards| && 0 <= j < |lines| && cmp(lines[j].horaTile, discards[i]) == 0
  }

  /** `check-furiten`: a winning wait on a tile the observed player discarded raises furiten. */
  function OnCheckFuriten(s: AppState, result: Option<Outcome>, cmp: Comparator): AppState
  {
    if !IsHoraResult(result) then s
    else if OwnDiscardWins(s.watashiDiscards, HoraLines(result), cmp) then s.(furiten := true)
    else s
  }

  /** `call-ron`: the claimed discard leaves its pile and completes the hand; the round (or, in hand four, the game) ends. */
  function OnCallRon(s: AppState, result: Option<Outcome>, cmp: Comparator): AppState
  {
    var refusal := RonRefusal(s, result, cmp);
    if refusal.Some? then s.(ronErrorMessage := refusal)
    else WinByRon(s)
  }

  /**
   * The message `call-ron` answers with, checked in the order the case
   * checks: no pending discard, riichi furiten, temporary furiten, own
   * discard furiten, and the final `canRon` re-check. None means the ron
   * goes through, which happens exactly when a discard is pending and ron
   * on it is possible.
   */
  function RonRefusal(s: AppState, result: Option<Outcome>, cmp: Comparator): (m: Option<string>)
    ensures m.None? <==> s.reactionPhase && s.discardCheck.Some? && CanRon(s, s.discardCheck.value.tile, result, cmp)
  {
    if !s.reactionPhase || s.discardCheck.None? then Some(CannotRon)
    else if s.riichiFuriten then Some(RiichiFuritenRon)
    else if s.tempFuriten then Some(TempFuritenRon)
    else if s.furiten then Some(OwnDiscardFuriten)
    else if !CanRon(s, s.discardCheck.value.tile, result, cmp) then Some(RonRecheckFailed)
    else None
  }

  /** The ron itself: the claimed tile leaves the discarder's pile and joins the hand; the round, or in hand four the game, ends. */
  function WinByRon(s: AppState): AppState
    requires s.discardCheck.Some?
  {
    var dc := s.discardCheck.value;
    var isFinal := s.table.roundCount == 4;
    var s1 := WithPile(s, dc.fromPlayer, DropLast(Pile(s, dc.fromPlayer)));
    s1.(input := s.input.(hand := s.input.hand + [dc.tile]), reactionPhase := false,
        roundOver := !isFinal, gameOver := isFinal,
        handOptions := s.handOptions.(ron := true, ippatsu := s.ippatsuPhase, haitei := |s.wall| == 0),
        ippatsuPhase := false, ronErrorMessage := None)
  }

  /** `call-tsumo`: the held winning tile completes the hand; the round (or, in hand four, the game) ends. */
  function OnCallTsumo(s: AppState, result: Option<Outcome>, cmp: Comparator): AppState
  {
    var refusal := TsumoRefusal(s, result, cmp);
    if refusal.Some? then s.(tsumoErrorMessage := refusal)
    else WinByTsumo(s)
  }

  /**
   * The message `call-tsumo` answers with: not the observed player's turn,
   * no held tile, or no line winning on the held tile by tsumo. None means
   * the tsumo goes through.
   */
  function TsumoRefusal(s: AppState, result: Option<Outcome>, cmp: Comparator): (m: Option<string>)
    ensures m.None? <==> s.currentTurn == Watashi && CanTsumo(s.input.drawnTile, result, cmp)
    ensures m.None? ==> s.input.drawnTile.Some?
  {
    if s.currentTurn != Watashi then Some(TsumoNotYourTurn)
    else if s.input.drawnTile.None? then Some(NoTsumoTile)
    else if !CanTsumo(s.input.drawnTile, result, cmp) then Some(CannotTsumo)
    else None
  }

  /** The tsumo itself: the held tile joins the hand; the round, or in hand four the game, ends. */
  function WinByTsumo(s: AppState): AppState
    requires s.input.drawnTile.Some?
  {
    var isFinal := s.table.roundCount == 4;
    s.(input := s.input.(hand := s.input.hand + [s.input.drawnTile.value], drawnTile := None),
       reactionPhase := false, roundOver := !isFinal, gameOver := isFinal,
       handOptions := s.handOptions.(tsumo := true, ippatsu := s.ippatsuPhase, rinshan := s.rinshanKaihouPhase,
                                     tenhou := s.tenhouPhase, haitei := |s.wall| == 0),
       tenhouPhase := false, ippatsuPhase := false, rinshanKaihouPhase := false, tsumoErrorMessage := None)
  }

  // ---------------------------------------------------------------------
  // Messages and cancelling
  // ---------------------------------------------------------------------

  function OnClearErrorMessage(s: AppState): AppState
  {
    s.(chiErrorMessage := None, ponErrorMessage := None, kanErrorMessage := None,
       riichiErrorMessage := None, ronErrorMessage := None, tsumoErrorMessage := None)
  }

  /** `escape-selection`: cancel a riichi selection, or else a chi, pon or kan selection (passing the turn). */
  function OnEscapeSelection(s: AppState): AppState
  {
    if s.riichiSelection then
      s.(riichiSelection := false, approveRiichiDiscards := [], riichiErrorMessage := None, mustDiscard := false)
    else if s.chiSelection.Some? || s.ponSelection.Some? || s.kanSelection.Some? then
      s.(currentTurn := NextSeat(s.currentTurn), chiSelection := None, ponSelection := None, kanSelection := None,
         chiErrorMessage := None, ponErrorMessage := None, kanErrorMessage := None, reactionPhase := false)
    else s
  }

  // ---------------------------------------------------------------------
  // The reducer
  // ---------------------------------------------------------------------

  /** `reducerImpl`: one case per action type; the shanten log touches no modelled field. */
  function Reduce(s: AppState, a: Action, cmp: Comparator): AppState
  {
    match a
    case SetCurrentRule(rule) => s.(currentRule := rule)
    case NewGame(round, seed, seat) => OnNewGame(s, round, seed, seat, cmp)
    case CustomNewGame(hand, round, seed, seat) => OnCustomNewGame(s, hand, round, seed, seat, cmp)
    case NewRound(round, seed) => OnNewRound(s, round, seed, cmp)
    case DrawTile => OnDrawTile(s)
    case StoreDiscard(result) => OnStoreDiscard(s, result, cmp)
    case RemoveHandTile(index) => OnRemoveHandTile(s, index, cmp)
    case DiscardDrawnTile => OnDiscardDrawnTile(s)
    case RoundOver(result) => OnRoundOver(s, result)
    case GameOver => OnGameOver(s)
    case CallChi => OnCallChi(s)
    case PassDiscard(result) => OnPassDiscard(s, result, cmp)
    case SelectChiTile(index) => OnSelectChiTile(s, index)
    case CallPon => OnCallPon(s)
    case SelectPonTile(index) => OnSelectPonTile(s, index)
    case CallKanDrawn => OnCallKanDrawn(s)
    case CallKanDiscard => OnCallKanDiscard(s)
    case SelectKanTile(index) => OnSelectKanTile(s, index)
    case CallRiichi(result) => OnCallRiichi(s, result)
    case SelectRiichiTile(index) => OnSelectRiichiTile(s, index, cmp)
    case CheckFuriten(result) => OnCheckFuriten(s, result, cmp)
    case CallRon(result) => OnCallRon(s, result, cmp)
    case CallTsumo(result) => OnCallTsumo(s, result, cmp)
    case ClearErrorMessage => OnClearErrorMessage(s)
    case EscapeSelection => OnEscapeSelection(s)
    case LogShanten(_) => s
  }
}
