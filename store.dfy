/**
 * The store snapshot of `src/lib/store/state.ts` and the helpers at the top
 * of `src/lib/store/index.ts`: seat order, the call checks (`canWatashiChi`,
 * `canWatashiPon`, `canWatashiOpenKan`), `removePickedTiles`, and the win
 * checks `canRon` and `canTsumo`.
 *
 * The record keeps the fields the reducer reads or writes. The screen and
 * settings tabs, the appearance settings, the saved rule presets and the
 * shanten log (`shantenHistory`, `avgShanten`) are not part of this model.
 */
module Store {
  import opened Wrappers
  import opened Tiles
  import opened HandInput
  import opened HandResult

  // ---------------------------------------------------------------------
  // The snapshot
  // ---------------------------------------------------------------------

  /** A discard waiting for the observed player's reaction, and who made it. */
  datatype DiscardCheck = DiscardCheck(tile: Tile, fromPlayer: Seat)

  /**
   * A chi being assembled. `discardKey` names the discard pile the claimed
   * tile sits on (`<seat>Discards`), so it is kept as the seat.
   */
  datatype ChiSelection = ChiSelection(
    discardTile: Option<Tile>, discardKey: Seat, possibleSequences: seq<seq<int>>,
    pickedTiles: seq<Tile>, pickedTileIndices: seq<int>)

  datatype PonSelection = PonSelection(
    discardTile: Option<Tile>, discardKey: Seat, pickedTiles: seq<Tile>, pickedTileIndices: seq<int>)

  /** A kan being assembled; no `discardKey` means a closed kan, no `discardTile` an ankan of four hand tiles. */
  datatype KanSelection = KanSelection(
    discardTile: Option<Tile>, discardKey: Option<Seat>, pickedTiles: seq<Tile>, pickedTileIndices: seq<int>,
    highlightDrawn: bool)

  /** `AppState`; an optional property is an `Option`, an absent message is `None`. */
  datatype AppState = AppState(
    currentRule: Rule, table: Table, input: Input, inputFocus: InputFocus, handOptions: HandOptions,
    seed: Option<string>, liveWallCut: int, dice1: int, dice2: int,
    wall: seq<Tile>, wanpaiDora: seq<Tile>, wanpaiUradora: seq<Tile>, wanpaiKan: seq<Tile>,
    wanpaiHaitei: seq<Tile>, doraIndicator: seq<Tile>,
    kamichaHand: seq<Tile>, toimenHand: seq<Tile>, shimochaHand: seq<Tile>,
    watashiDiscards: seq<Tile>, kamichaDiscards: seq<Tile>, toimenDiscards: seq<Tile>, shimochaDiscards: seq<Tile>,
    currentTurn: Seat, reactionPhase: bool, discardCheck: Option<DiscardCheck>,
    chiSelection: Option<ChiSelection>, chiErrorMessage: Option<string>,
    ponSelection: Option<PonSelection>, ponErrorMessage: Option<string>,
    kanSelection: Option<KanSelection>, kanErrorMessage: Option<string>,
    approveRiichiDiscards: seq<Tile>, riichiSelection: bool, riichiErrorMessage: Option<string>,
    furiten: bool, tempFuriten: bool, riichiFuriten: bool,
    ronErrorMessage: Option<string>, tsumoErrorMessage: Option<string>,
    tenhouPhase: bool, ippatsuPhase: bool, riichiDiscardIndex: Option<int>, rinshanKaihouPhase: bool,
    haiteiPhase: bool, houteiPhase: bool, mustDiscard: bool, roundOver: bool, gameOver: bool)

  // ---------------------------------------------------------------------
  // Views of a snapshot
  // ---------------------------------------------------------------------

  /** The discard pile of a seat (`<seat>Discards`). */
  function Pile(s: AppState, seat: Seat): seq<Tile>
  {
    match seat
    case Watashi => s.watashiDiscards
    case Shimocha => s.shimochaDiscards
    case Toimen => s.toimenDiscards
    case Kamicha => s.kamichaDiscards
  }

  /** `{ ...state, [discardKey]: p }`: replaces one discard pile. */
  function WithPile(s: AppState, seat: Seat, p: seq<Tile>): (r: AppState)
    ensures Pile(r, seat) == p
    ensures forall o :: o != seat ==> Pile(r, o) == Pile(s, o)
  {
    s.(watashiDiscards := if seat == Watashi then p else s.watashiDiscards,
       shimochaDiscards := if seat == Shimocha then p else s.shimochaDiscards,
       toimenDiscards := if seat == Toimen then p else s.toimenDiscards,
       kamichaDiscards := if seat == Kamicha then p else s.kamichaDiscards)
  }

  /** `slice(0, -1)`: everything but the last element (nothing of an empty list). */
  function DropLast(p: seq<Tile>): (r: seq<Tile>)
    ensures |p| > 0 ==> p == r + [p[|p| - 1]]
    ensures |p| == 0 ==> r == []
  {
    if |p| == 0 then [] else p[..|p| - 1]
  }

  /** Every tile of one round, the way the top bar adds them up. */
  function AllTiles(s: AppState): seq<Tile>
  {
    s.wall + s.wanpaiKan + s.wanpaiDora + s.wanpaiUradora + s.wanpaiHaitei
    + FullHand(s.input) + MeldTiles(s.input.melds)
    + s.kamichaHand + s.toimenHand + s.shimochaHand
    + s.watashiDiscards + s.kamichaDiscards + s.toimenDiscards + s.shimochaDiscards
  }

  /** The top bar's tile total, which a dealt round keeps at 136. */
  function TileTotal(s: AppState): nat
  {
    |AllTiles(s)|
  }

  /** Neither a pending discard nor a chi, pon, kan or riichi selection. */
  predicate Idle(s: AppState)
  {
    && s.discardCheck.None? && !s.reactionPhase
    && s.chiSelection.None? && s.ponSelection.None? && s.kanSelection.None?
    && !s.riichiSelection && s.approveRiichiDiscards == []
  }

  /** No furiten flag, phase flag or end-of-round flag is set. */
  predicate FlagsClear(s: AppState)
  {
    && !s.furiten && !s.tempFuriten && !s.riichiFuriten
    && !s.tenhouPhase && !s.ippatsuPhase && !s.rinshanKaihouPhase && !s.haiteiPhase && !s.houteiPhase
    && !s.mustDiscard && !s.roundOver && !s.gameOver
  }

  // ---------------------------------------------------------------------
  // The initial snapshot
  // ---------------------------------------------------------------------

  /** The table before the first game: east round, first hand, no counters. */
  function InitialTable(): (t: Table)
    ensures t.roundCount == 1 && t.continuation == 0 && t.deposit == 0 && !t.honba && !t.riichiLastGame
  {
    Table(East, East, 1, false, false, 0, 0)
  }

  /** `initialState`: nothing dealt, nothing pending, every flag down, one red five per suit. */
  function InitialState(): (s: AppState)
    ensures AllTiles(s) == [] && s.doraIndicator == [] && s.input.dora == []
    ensures Idle(s) && FlagsClear(s)
    ensures s.table == InitialTable() && s.currentTurn == Watashi
    ensures s.handOptions == InitialHandOptions() && s.currentRule.red == RedRule(1, 1, 1)
  {
    AppState(
      Rule(RedRule(1, 1, 1)), InitialTable(), Input([], [], None, []), FocusHand, InitialHandOptions(),
      None, 17, 0, 0,
      [], [], [], [], [], [],
      [], [], [],
      [], [], [], [],
      Watashi, false, None,
      None, None, None, None, None, None,
      [], false, None,
      false, false, false, None, None,
      false, false, None, false, false, false, false, false, false)
  }

  /** `defaultState`: the stored snapshot when there is one, unchecked, else `initialState`. */
  function DefaultState(stored: Option<AppState>): (s: AppState)
    ensures stored.Some? ==> s == stored.value
    ensures stored.None? ==> s == InitialState() && AllTiles(s) == [] && Idle(s) && FlagsClear(s)
  {
    if stored.Some? then stored.value else InitialState()
  }

  // ---------------------------------------------------------------------
  // Seats
  // ---------------------------------------------------------------------

  /** Position in `seatOrder`: watashi, shimocha, toimen, kamicha. */
  function SeatIndex(seat: Seat): (i: int)
    ensures 0 <= i < 4
  {
    match seat
    case Watashi => 0
    case Shimocha => 1
    case Toimen => 2
    case Kamicha => 3
  }

  /** `getNextSeat`: the seat after `seat` in turn order, wrapping from kamicha to watashi. */
  function NextSeat(seat: Seat): (r: Seat)
    ensures SeatIndex(r) == (SeatIndex(seat) + 1) % 4
  {
    match seat
    case Watashi => Shimocha
    case Shimocha => Toimen
    case Toimen => Kamicha
    case Kamicha => Watashi
  }

  /** Turn order is one cycle through all four seats. */
  lemma {:induction false} NextSeatCycles(seat: Seat)
    ensures NextSeat(NextSeat(NextSeat(NextSeat(seat)))) == seat
    ensures NextSeat(seat) != seat && NextSeat(NextSeat(seat)) != seat && NextSeat(NextSeat(NextSeat(seat))) != seat
  {
    assert SeatIndex(NextSeat(NextSeat(NextSeat(NextSeat(seat))))) == SeatIndex(seat);
  }

  // ---------------------------------------------------------------------
  // Call checks
  // ---------------------------------------------------------------------

  /** The seven runs a chi can form. */
  const Runs: seq<seq<int>> := [[1, 2, 3], [2, 3, 4], [3, 4, 5], [4, 5, 6], [5, 6, 7], [6, 7, 8], [7, 8, 9]]

  /** `filter(seq => seq.includes(n))`. */
  function RunsWith(runs: seq<seq<int>>, n: int): (r: seq<seq<int>>)
    ensures forall x :: x in r <==> x in runs && n in x
  {
    if runs == [] then []
    else (if n in runs[0] then [runs[0]] else []) + RunsWith(runs[1..], n)
  }

  /** `hand.some(h => h.type === suit && h.n === n)`. */
  predicate HasKind(hand: seq<Tile>, suit: Suit, n: int)
  {
    KindCount(hand, suit, n) > 0
  }

  /** The run `a, a+1, a+2`. */
  function Run(a: int): seq<int> { [a, a + 1, a + 2] }

  /** Every other number of the run is present in the hand, in the discard's suit. */
  predicate RunFormable(hand: seq<Tile>, t: Tile, run: seq<int>)
  {
    forall m :: m in run && m != t.n ==> HasKind(hand, t.suit, m)
  }

  /** `possibleSeqs.filter(...)` of `call-chi`: the runs through the discard the hand can complete. */
  function ValidSequences(hand: seq<Tile>, t: Tile, runs: seq<seq<int>>): (r: seq<seq<int>>)
    ensures forall x :: x in r <==> x in runs && RunFormable(hand, t, x)
  {
    if runs == [] then []
    else (if RunFormable(hand, t, runs[0]) then [runs[0]] else []) + ValidSequences(hand, t, runs[1..])
  }

  /** `canWatashiChi`: a number tile from 1 to 9 and some run through it the hand can complete. */
  predicate CanWatashiChi(hand: seq<Tile>, t: Tile)
  {
    t.suit != Z && 1 <= t.n <= 9 && ValidSequences(hand, t, RunsWith(Runs, t.n)) != []
  }

  /** The early-return loop of `canWatashiChi`. */
  method CanWatashiChiLoop(hand: seq<Tile>, t: Tile) returns (b: bool)
    ensures b == CanWatashiChi(hand, t)
  {
    if t.suit == Z {
      return false;
    }
    if t.n < 1 || t.n > 9 {
      return false;
    }
    var possible := RunsWith(Runs, t.n);
    var k := 0;
    while k < |possible|
      invariant 0 <= k <= |possible|
      invariant ValidSequences(hand, t, possible) == ValidSequences(hand, t, possible[k..])
    {
      assert possible[k..][1..] == possible[k + 1..];
      if RunFormable(hand, t, possible[k]) {
        return true;
      }
      k := k + 1;
    }
    return false;
  }

  /** The listed runs are `Run(1)` to `Run(7)`, in order. */
  lemma {:induction false} RunsListed(j: int)
    requires 0 <= j < 7
    ensures Runs[j] == Run(j + 1)
  {
    assert Runs == [Run(1), Run(2), Run(3), Run(4), Run(5), Run(6), Run(7)];
  }

  /** A chi check that passes names a run through the discard the hand completes. */
  lemma {:induction false} ChiWitness(hand: seq<Tile>, t: Tile)
    requires CanWatashiChi(hand, t)
    ensures exists a :: 1 <= a <= 7 && a <= t.n <= a + 2 && RunFormable(hand, t, Run(a))
  {
    var vs := ValidSequences(hand, t, RunsWith(Runs, t.n));
    assert vs[0] in vs;
    var run := vs[0];
    assert run in Runs && t.n in run && RunFormable(hand, t, run);
    var j :| 0 <= j < 7 && Runs[j] == run;
    RunsListed(j);
    assert j + 1 <= t.n <= j + 3;
    assert RunFormable(hand, t, Run(j + 1));
  }

  /** A run through the discard the hand completes makes the chi check pass. */
  lemma {:induction false} ChiFromRun(hand: seq<Tile>, t: Tile, a: int)
    requires t.suit != Z && 1 <= a <= 7 && a <= t.n <= a + 2 && RunFormable(hand, t, Run(a))
    ensures CanWatashiChi(hand, t)
  {
    RunsListed(a - 1);
    assert Run(a) in Runs;
    assert t.n == Run(a)[t.n - a];
    assert Run(a) in RunsWith(Runs, t.n);
    assert Run(a) in ValidSequences(hand, t, RunsWith(Runs, t.n));
  }

  /**
   * The chi check means: some run `a, a+1, a+2` (a from 1 to 7) through the
   * discard has its two other numbers in the hand, in the discard's suit.
   */
  lemma {:induction false} ChiMeaning(hand: seq<Tile>, t: Tile)
    ensures CanWatashiChi(hand, t) <==>
              t.suit != Z && exists a :: 1 <= a <= 7 && a <= t.n <= a + 2 && RunFormable(hand, t, Run(a))
  {
    if CanWatashiChi(hand, t) {
      ChiWitness(hand, t);
    }
    if t.suit != Z && exists a :: 1 <= a <= 7 && a <= t.n <= a + 2 && RunFormable(hand, t, Run(a)) {
      var a :| 1 <= a <= 7 && a <= t.n <= a + 2 && RunFormable(hand, t, Run(a));
      ChiFromRun(hand, t, a);
    }
  }

  /** `canWatashiPon`: at least two hand tiles of the discard's type and number. */
  predicate CanWatashiPon(hand: seq<Tile>, t: Tile)
  {
    KindCount(hand, t.suit, t.n) >= 2
  }

  /** `canWatashiOpenKan`: at least three hand tiles of the discard's type and number. */
  predicate CanWatashiOpenKan(hand: seq<Tile>, t: Tile)
  {
    KindCount(hand, t.suit, t.n) >= 3
  }

  // ---------------------------------------------------------------------
  // removePickedTiles
  // ---------------------------------------------------------------------

  /** `findIndex` with the pick rule: the first hand position matching `p`, or -1. */
  function FindPick(hand: seq<Tile>, p: Tile): (i: int)
    ensures -1 <= i < |hand|
    ensures i >= 0 ==> PickMatches(hand[i], p) && forall j :: 0 <= j < i ==> !PickMatches(hand[j], p)
    ensures i < 0 ==> forall j :: 0 <= j < |hand| ==> !PickMatches(hand[j], p)
  {
    if hand == [] then -1
    else if PickMatches(hand[0], p) then 0
    else
      var k := FindPick(hand[1..], p);
      assert forall j :: 1 <= j < |hand| ==> hand[1..][j - 1] == hand[j];
      if k < 0 then -1 else k + 1
  }

  /** One turn of `removePickedTiles`: splice out the first match of `p`, if any. */
  function RemoveOnePick(hand: seq<Tile>, p: Tile): seq<Tile>
  {
    var idx := FindPick(hand, p);
    if idx >= 0 then hand[..idx] + hand[idx + 1..] else hand
  }

  /** `removePickedTiles`: the picks are taken out one after the other, in pick order. */
  function RemovePicked(hand: seq<Tile>, picks: seq<Tile>): seq<Tile>
  {
    if picks == [] then hand
    else RemoveOnePick(RemovePicked(hand, picks[..|picks| - 1]), picks[|picks| - 1])
  }

  /** The loop of `removePickedTiles` over a copy of the hand. */
  method RemovePickedTiles(hand: seq<Tile>, picks: seq<Tile>) returns (result: seq<Tile>)
    ensures result == RemovePicked(hand, picks)
    ensures multiset(result) <= multiset(hand) && |hand| - |picks| <= |result| <= |hand|
  {
    result := hand;
    var k := 0;
    while k < |picks|
      invariant 0 <= k <= |picks|
      invariant result == RemovePicked(hand, picks[..k])
    {
      assert picks[..k + 1][..k] == picks[..k];
      var idx := FindPick(result, picks[k]);
      if idx >= 0 {
        result := result[..idx] + result[idx + 1..];
      }
      k := k + 1;
    }
    assert picks[..k] == picks;
    RemovePickedShrinks(hand, picks);
  }

  /** Splicing out one matching tile removes exactly that tile from the bag. */
  lemma {:induction false} RemoveOnePickBag(hand: seq<Tile>, p: Tile)
    ensures var idx := FindPick(hand, p);
            && (idx >= 0 ==> multiset(RemoveOnePick(hand, p)) == multiset(hand) - multiset{hand[idx]}
                             && |RemoveOnePick(hand, p)| == |hand| - 1)
            && (idx < 0 ==> RemoveOnePick(hand, p) == hand)
  {
    var idx := FindPick(hand, p);
    if idx >= 0 {
      assert hand == hand[..idx] + [hand[idx]] + hand[idx + 1..];
    }
  }

  /** The result is a sub-bag of the hand, shorter by at most one tile per pick. */
  lemma {:induction false} RemovePickedShrinks(hand: seq<Tile>, picks: seq<Tile>)
    ensures multiset(RemovePicked(hand, picks)) <= multiset(hand)
    ensures |hand| - |picks| <= |RemovePicked(hand, picks)| <= |hand|
  {
    if picks != [] {
      var rest := RemovePicked(hand, picks[..|picks| - 1]);
      RemovePickedShrinks(hand, picks[..|picks| - 1]);
      RemoveOnePickBag(rest, picks[|picks| - 1]);
    }
  }

  /**
   * When the picks are well-formed tiles taken from the hand, exactly the
   * picked tiles leave it: one matching tile per pick.
   */
  lemma {:induction false} RemovePickedExact(hand: seq<Tile>, picks: seq<Tile>)
    requires AllWellFormed(hand) && AllWellFormed(picks)
    requires multiset(picks) <= multiset(hand)
    ensures multiset(RemovePicked(hand, picks)) == multiset(hand) - multiset(picks)
    ensures |RemovePicked(hand, picks)| == |hand| - |picks|
  {
    if picks != [] {
      var init := picks[..|picks| - 1];
      var p := picks[|picks| - 1];
      assert picks == init + [p];
      assert multiset(init) <= multiset(hand);
      assert forall i :: 0 <= i < |init| ==> init[i] == picks[i];
      RemovePickedExact(hand, init);
      var rest := RemovePicked(hand, init);
      assert p in multiset(rest);
      var k :| 0 <= k < |rest| && rest[k] == p;
      assert rest[k] in multiset(hand);
      PickMatchesIsEquality(rest[k], p);
      var idx := FindPick(rest, p);
      assert rest[idx] in multiset(hand);
      assert rest[idx] in hand;
      PickMatchesIsEquality(rest[idx], p);
      RemoveOnePickBag(rest, p);
    }
  }

  // ---------------------------------------------------------------------
  // Win checks
  // ---------------------------------------------------------------------

  /** A yakuman, or a yaku other than dora and red dora. */
  predicate RealYaku(y: Yaku)
  {
    y.kind == "yakuman" || (y.kind == "yaku" && y.name != "dora" && y.name != "red-dora")
  }

  predicate HasRealYaku(line: Hora)
  {
    exists i :: 0 <= i < |line.yaku| && RealYaku(line.yaku[i])
  }

  /** The hora lines of a `hora-shanten` result with `hora` info, and nothing otherwise. */
  function HoraLines(result: Option<Outcome>): seq<Hora>
  {
    if result.Some? && result.value.HoraShanten? && result.value.info.HoraInfo? then result.value.info.hora else []
  }

  predicate IsHoraResult(result: Option<Outcome>)
  {
    result.Some? && result.value.HoraShanten? && result.value.info.HoraInfo?
  }

  /** Some line wins on `t` (`agariTiles.some(...)`). */
  predicate WinsOn(lines: seq<Hora>, t: Tile, cmp: Comparator)
  {
    exists i :: 0 <= i < |lines| && cmp(lines[i].horaTile, t) == 0
  }

  /** `canRon`: no furiten flag, a hora result, a line on the tile, and a line on the tile with a real yaku. */
  predicate CanRon(s: AppState, t: Tile, result: Option<Outcome>, cmp: Comparator)
  {
    && !(s.furiten || s.tempFuriten || s.riichiFuriten)
    && IsHoraResult(result)
    && WinsOn(HoraLines(result), t, cmp)
    && exists i :: 0 <= i < |HoraLines(result)| && cmp(HoraLines(result)[i].horaTile, t) == 0
                   && HasRealYaku(HoraLines(result)[i])
  }

  /** The separate winning-tile test is implied by the yaku test: ron needs one line on the tile with a real yaku. */
  lemma {:induction false} CanRonMeaning(s: AppState, t: Tile, result: Option<Outcome>, cmp: Comparator)
    ensures CanRon(s, t, result, cmp) <==>
              && !s.furiten && !s.tempFuriten && !s.riichiFuriten
              && result.Some? && result.value.HoraShanten? && result.value.info.HoraInfo?
              && exists line :: line in result.value.info.hora && cmp(line.horaTile, t) == 0 && HasRealYaku(line)
  {
    if !s.furiten && !s.tempFuriten && !s.riichiFuriten && IsHoraResult(result) {
      var lines := result.value.info.hora;
      if exists line :: line in lines && cmp(line.horaTile, t) == 0 && HasRealYaku(line) {
        var line :| line in lines && cmp(line.horaTile, t) == 0 && HasRealYaku(line);
        var i :| 0 <= i < |lines| && lines[i] == line;
        assert WinsOn(lines, t, cmp);
      }
    }
  }

  /** `canTsumo`: a hora result, a drawn tile, and a line winning on it by tsumo. */
  predicate CanTsumo(drawnTile: Option<Tile>, result: Option<Outcome>, cmp: Comparator)
  {
    && IsHoraResult(result)
    && drawnTile.Some?
    && exists i :: 0 <= i < |HoraLines(result)| && cmp(HoraLines(result)[i].horaTile, drawnTile.value) == 0
                   && HoraLines(result)[i].winBy == ByTsumo
  }
}
