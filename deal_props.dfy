/**
 * Properties of the three deals of `src/lib/store/index.ts`: `new-game`,
 * `custom-new-game` and `new-round`. Each leaves the snapshot holding
 * exactly the tiles of the round set-up, and gives the first turn to the
 * seat holding the east hand. In `new-game` and `custom-new-game` that
 * seat is also the one the layout marks as East; in `new-round`, as
 * written, only when the observed player's new seat wind is east or west.
 */
module DealProperties {
  import opened Tiles
  import opened HandInput
  import opened Store
  import opened Reducer
  import Setup
  import CustomDeal
  import Layout
  import Corrected

  /** A player's concealed hand in a snapshot. */
  function HandAt(r: AppState, p: Seat): seq<Tile>
  {
    match p
    case Watashi => r.input.hand
    case Shimocha => r.shimochaHand
    case Toimen => r.toimenHand
    case Kamicha => r.kamichaHand
  }

  /** Handing the four hands out from any position keeps their tiles together. */
  lemma {:induction false} AssignedBag(i: int, hands: seq<seq<Tile>>)
    requires 0 <= i < 4 && |hands| == 4
    ensures var a := Setup.AssignFrom(i, hands);
            multiset(a.watashi) + multiset(a.shimocha) + multiset(a.toimen) + multiset(a.kamicha)
              == Setup.HandsBag(hands)
  {
    var h := [multiset(hands[0]), multiset(hands[1]), multiset(hands[2]), multiset(hands[3])];
    RotatedBags(i, h);
    assert h[i] == multiset(hands[i]) && h[(i + 1) % 4] == multiset(hands[(i + 1) % 4]);
    assert h[(i + 2) % 4] == multiset(hands[(i + 2) % 4]) && h[(i + 3) % 4] == multiset(hands[(i + 3) % 4]);
  }

  /** Bag arithmetic: a sum of four bags read from any starting point. */
  lemma {:induction false} Rotations(a: multiset<Tile>, b: multiset<Tile>, c: multiset<Tile>, d: multiset<Tile>)
    ensures b + c + d + a == a + b + c + d && c + d + a + b == a + b + c + d && d + a + b + c == a + b + c + d
  {
  }

  /** Four bags read from any starting position add up to the same bag. */
  lemma {:induction false} RotatedBags(i: int, h: seq<multiset<Tile>>)
    requires 0 <= i < 4 && |h| == 4
    ensures h[i] + h[(i + 1) % 4] + h[(i + 2) % 4] + h[(i + 3) % 4] == h[0] + h[1] + h[2] + h[3]
  {
    Rotations(h[0], h[1], h[2], h[3]);
    if i == 0 {
    } else if i == 1 {
      assert (i + 1) % 4 == 2 && (i + 2) % 4 == 3 && (i + 3) % 4 == 0;
    } else if i == 2 {
      assert (i + 1) % 4 == 3 && (i + 2) % 4 == 0 && (i + 3) % 4 == 1;
    } else {
      assert (i + 1) % 4 == 0 && (i + 2) % 4 == 1 && (i + 3) % 4 == 2;
    }
  }

  /** Where each wind sits in the two orders. */
  lemma {:induction false} WindPositions(w: Wind)
    ensures w in SeatWinds && w in NewRoundWinds
    ensures Setup.IndexOf(SeatWinds, w) == match w case East => 0 case South => 1 case West => 2 case North => 3
    ensures Setup.IndexOf(NewRoundWinds, w) == match w case East => 0 case North => 1 case West => 2 case South => 3
  {
    WindsListed(w);
  }

  /** Dealing along the east-first order, the label at east carries the East marker. */
  lemma {:induction false} LabelAtEast(seat: Wind)
    ensures seat in SeatWinds
    ensures Layout.IsEast(seat, Setup.LabelAt(4 - Setup.IndexOf(SeatWinds, seat)))
  {
    WindPositions(seat);
  }

  /** Dealing along the order east, north, west, south, the label at east carries the East marker only for east and west. */
  lemma {:induction false} NewRoundLabelEast(seat: Wind)
    ensures seat in NewRoundWinds
    ensures Layout.IsEast(seat, Setup.LabelAt(4 - Setup.IndexOf(NewRoundWinds, seat))) <==> seat == East || seat == West
  {
    WindPositions(seat);
  }

  /** The tiles of a fresh round, in the order the top bar counts them. */
  lemma {:induction false} DealRoundLayout(s: AppState, table: Table, order: seq<Wind>, seat: Wind,
                                           round: Setup.InitializedRound, seed: string, cmp: Comparator)
    requires |order| == 4 && seat in order
    ensures var a := Setup.AssignHandsAndCurrentTurn(order, seat, RoundHands(round));
            AllTiles(DealRound(s, table, order, seat, round, seed, cmp))
              == round.wall + (round.wanpaiKan + round.wanpaiDora + round.wanpaiUradora)
                 + (SortBy(a.watashi, cmp) + a.kamicha + a.toimen + a.shimocha)
  {
    var a := Setup.AssignHandsAndCurrentTurn(order, seat, RoundHands(round));
    StartRoundGroups(s, table, seed, round, SortBy(a.watashi, cmp), round.wall, round.wanpaiKan, round.wanpaiDora,
                     round.wanpaiUradora, a.kamicha, a.toimen, a.shimocha, a.currentTurn);
  }

  /** The four hands of an assignment, the observed one sorted, hold the assigned tiles. */
  lemma {:induction false} AssignmentBag(a: Setup.Assignment, cmp: Comparator)
    ensures multiset(SortBy(a.watashi, cmp) + a.kamicha + a.toimen + a.shimocha)
            == multiset(a.watashi) + multiset(a.shimocha) + multiset(a.toimen) + multiset(a.kamicha)
  {
  }

  /** A fresh round holds exactly the set-up's tiles. */
  lemma {:induction false} DealRoundBag(s: AppState, table: Table, order: seq<Wind>, seat: Wind,
                                        round: Setup.InitializedRound, seed: string, cmp: Comparator)
    requires |order| == 4 && seat in order
    ensures multiset(AllTiles(DealRound(s, table, order, seat, round, seed, cmp))) == multiset(Setup.RoundTiles(round))
  {
    var hands := RoundHands(round);
    var a := Setup.AssignHandsAndCurrentTurn(order, seat, hands);
    var reserves := round.wanpaiKan + round.wanpaiDora + round.wanpaiUradora;
    var hs := SortBy(a.watashi, cmp) + a.kamicha + a.toimen + a.shimocha;
    DealRoundLayout(s, table, order, seat, round, seed, cmp);
    AssignmentBag(a, cmp);
    AssignedBag(Setup.IndexOf(order, seat), hands);
    Setup.RoundTilesBag(round, hands);
    assert multiset(round.wall + reserves + hs) == multiset(round.wall) + multiset(reserves) + multiset(hs);
  }

  /** A started round seats the given hands at the given table and gives the given label the first turn. */
  lemma {:induction false} StartRoundSeats(s: AppState, table: Table, seed: string, round: Setup.InitializedRound,
                                           hand: seq<Tile>, wall: seq<Tile>, kan: seq<Tile>, dora: seq<Tile>,
                                           uradora: seq<Tile>, kamicha: seq<Tile>, toimen: seq<Tile>,
                                           shimocha: seq<Tile>, turn: Seat)
    ensures var r := StartRound(s, table, seed, round, hand, wall, kan, dora, uradora, kamicha, toimen, shimocha, turn);
            && r.table == table && r.currentTurn == turn && r.input.hand == hand
            && r.kamichaHand == kamicha && r.toimenHand == toimen && r.shimochaHand == shimocha
  {
  }

  /** A state holding an assignment's hands, the observed one sorted, holds at each label that label's tiles. */
  lemma {:induction false} HandAtAssigned(r: AppState, a: Setup.Assignment, cmp: Comparator, p: Seat)
    requires r.input.hand == SortBy(a.watashi, cmp) && r.kamichaHand == a.kamicha
    requires r.toimenHand == a.toimen && r.shimochaHand == a.shimocha
    ensures multiset(HandAt(r, p)) == multiset(Setup.HandOf(a, p))
  {
  }

  /**
   * In a fresh round the observed player gets the hand at its own position
   * of the order, and the turn goes to the label at east, which holds the
   * east hand.
   */
  lemma {:induction false} DealRoundSeats(s: AppState, table: Table, order: seq<Wind>, seat: Wind,
                                          round: Setup.InitializedRound, seed: string, cmp: Comparator)
    requires |order| == 4 && seat in order
    ensures var r := DealRound(s, table, order, seat, round, seed, cmp);
            var i := Setup.IndexOf(order, seat);
            && r.table == table && r.currentTurn == Setup.LabelAt(4 - i)
            && multiset(HandAt(r, r.currentTurn)) == multiset(round.eastHand)
            && multiset(r.input.hand) == multiset(RoundHands(round)[i])
  {
    var hands := RoundHands(round);
    var i := Setup.IndexOf(order, seat);
    var a := Setup.AssignHandsAndCurrentTurn(order, seat, hands);
    var r := DealRound(s, table, order, seat, round, seed, cmp);
    Setup.AssignmentKeepsHands(i, hands);
    StartRoundSeats(s, table, seed, round, SortBy(a.watashi, cmp), round.wall, round.wanpaiKan, round.wanpaiDora,
                    round.wanpaiUradora, a.kamicha, a.toimen, a.shimocha, a.currentTurn);
    HandAtAssigned(r, a, cmp, a.currentTurn);
  }

  /** Dealt along east, south, west, north, the first turn goes to the East-marked player, who holds the east hand. */
  lemma {:induction false} SeatWindsEast(s: AppState, table: Table, seat: Wind, round: Setup.InitializedRound,
                                         seed: string, cmp: Comparator)
    ensures seat in SeatWinds
    ensures var r := DealRound(s, table, SeatWinds, seat, round, seed, cmp);
            Layout.IsEast(seat, r.currentTurn) && multiset(HandAt(r, r.currentTurn)) == multiset(round.eastHand)
  {
    LabelAtEast(seat);
    DealRoundSeats(s, table, SeatWinds, seat, round, seed, cmp);
  }

  /** `new-game` deals the set-up's tiles at the first table of the drawn seat. */
  lemma {:induction false} NewGameTiles(s: AppState, round: Setup.InitializedRound, seed: string, seat: Wind,
                                        cmp: Comparator)
    ensures var r := OnNewGame(s, round, seed, seat, cmp);
            multiset(AllTiles(r)) == multiset(Setup.RoundTiles(round)) && r.table == FirstTable(seat)
  {
    WindsListed(seat);
    DealRoundBag(s, FirstTable(seat), SeatWinds, seat, round, seed, cmp);
  }

  /** `new-game` gives the first turn to the East-marked player, who holds the east hand. */
  lemma {:induction false} NewGameSeats(s: AppState, round: Setup.InitializedRound, seed: string, seat: Wind,
                                        cmp: Comparator)
    ensures var r := OnNewGame(s, round, seed, seat, cmp);
            Layout.IsEast(seat, r.currentTurn) && multiset(HandAt(r, r.currentTurn)) == multiset(round.eastHand)
  {
    SeatWindsEast(s, FirstTable(seat), seat, round, seed, cmp);
  }

  /** `new-round` deals the set-up's tiles at the next table. */
  lemma {:induction false} NewRoundTiles(s: AppState, round: Setup.InitializedRound, seed: string, cmp: Comparator)
    ensures var r := OnNewRound(s, round, seed, cmp);
            multiset(AllTiles(r)) == multiset(Setup.RoundTiles(round)) && r.table == NextTable(s.table)
  {
    WindsListed(NextRoundSeat(s.table.seat));
    DealRoundBag(s, NextTable(s.table), NewRoundWinds, NextRoundSeat(s.table.seat), round, seed, cmp);
  }

  /**
   * `new-round` as written gives the first turn to the holder of the east
   * hand; but the seats are handed out in the order east, north, west,
   * south, so that player is the one the layout marks as East only when
   * the new seat wind is east or west.
   */
  lemma {:induction false} NewRoundSeats(s: AppState, round: Setup.InitializedRound, seed: string, cmp: Comparator)
    ensures var r := OnNewRound(s, round, seed, cmp);
            var next := NextRoundSeat(s.table.seat);
            && multiset(HandAt(r, r.currentTurn)) == multiset(round.eastHand)
            && (Layout.IsEast(next, r.currentTurn) <==> next == East || next == West)
  {
    var next := NextRoundSeat(s.table.seat);
    NewRoundLabelEast(next);
    DealRoundSeats(s, NextTable(s.table), NewRoundWinds, next, round, seed, cmp);
  }

  /**
   * After a round in the west seat the observed player sits south: the
   * East marker is on kamicha, but shimocha is dealt the east hand and
   * moves first.
   */
  lemma {:induction false} NewRoundFromWest(s: AppState, round: Setup.InitializedRound, seed: string, cmp: Comparator)
    requires s.table.seat == West
    ensures var r := OnNewRound(s, round, seed, cmp);
            && r.table.seat == South && r.currentTurn == Shimocha
            && Layout.IsEast(South, Kamicha) && !Layout.IsEast(South, Shimocha)
  {
    var next := NextRoundSeat(s.table.seat);
    NewRoundSouth();
    DealRoundSeats(s, NextTable(s.table), NewRoundWinds, next, round, seed, cmp);
  }

  /** The seat after west is south; dealing from south along the new-round order puts shimocha at east. */
  lemma {:induction false} NewRoundSouth()
    ensures NextRoundSeat(West) == South && South in NewRoundWinds
    ensures Setup.LabelAt(4 - Setup.IndexOf(NewRoundWinds, South)) == Shimocha
    ensures Layout.IsEast(South, Kamicha) && !Layout.IsEast(South, Shimocha)
  {
    WindPositions(West);
    WindPositions(South);
  }

  /** The corrected `new-round` deals the same tiles at the same table. */
  lemma {:induction false} NewRoundFixedTiles(s: AppState, round: Setup.InitializedRound, seed: string, cmp: Comparator)
    ensures var r := Corrected.OnNewRoundFixed(s, round, seed, cmp);
            multiset(AllTiles(r)) == multiset(Setup.RoundTiles(round)) && r.table == NextTable(s.table)
  {
    WindsListed(NextRoundSeat(s.table.seat));
    DealRoundBag(s, NextTable(s.table), SeatWinds, NextRoundSeat(s.table.seat), round, seed, cmp);
  }

  /** The corrected `new-round` always gives the first turn and the east hand to the East-marked player. */
  lemma {:induction false} NewRoundFixedSeats(s: AppState, round: Setup.InitializedRound, seed: string, cmp: Comparator)
    ensures var r := Corrected.OnNewRoundFixed(s, round, seed, cmp);
            Layout.IsEast(NextRoundSeat(s.table.seat), r.currentTurn)
            && multiset(HandAt(r, r.currentTurn)) == multiset(round.eastHand)
  {
    SeatWindsEast(s, NextTable(s.table), NextRoundSeat(s.table.seat), round, seed, cmp);
  }

  // ---------------------------------------------------------------------
  // The custom deal
  // ---------------------------------------------------------------------

  /** A list laid out as one sequence. */
  lemma {:induction false} FlatCons(x: seq<Tile>, ls: seq<seq<Tile>>)
    ensures Setup.Flat([x] + ls) == x + Setup.Flat(ls)
  {
    Setup.FlatAppend([x], ls);
    assert [x][..0] == [];
    Setup.FlatPrefix([x], 0);
  }

  /** Cutting a sequence as long as the lists at the lists' lengths and laying the pieces out again gives it back. */
  lemma {:induction false} UnflattenCovers(xs: seq<Tile>, ls: seq<seq<Tile>>)
    requires |xs| == |Setup.Flat(ls)|
    ensures Setup.Flat(Unflatten(xs, Lengths(ls))) == xs
    decreases |ls|
  {
    if ls == [] {
      assert Unflatten(xs, Lengths(ls)) == [];
    } else {
      Setup.FlatSplitAt(ls, 0);
      assert ls[..0] == [];
      var k := |ls[0]|;
      assert Lengths(ls)[1..] == Lengths(ls[1..]);
      assert Unflatten(xs, Lengths(ls)) == [xs[..k]] + Unflatten(xs[k..], Lengths(ls[1..]));
      UnflattenCovers(xs[k..], ls[1..]);
      FlatCons(xs[..k], Unflatten(xs[k..], Lengths(ls[1..])));
      assert xs == xs[..k] + xs[k..];
    }
  }

  /** Before any trade, the observed hand and the searched lists hold the set-up's tiles. */
  lemma {:induction false} CustomStartBag(round: Setup.InitializedRound, seat: Wind)
    ensures CustomDeal.Bag(CustomStart(round, seat)) == multiset(Setup.RoundTiles(round))
  {
    WindsListed(seat);
    var a := GameSeats(round, seat);
    var ls := SearchedLists(round, a);
    Setup.FlatSevenBag(ls);
    AssignedBag(Setup.IndexOf(SeatWinds, seat), RoundHands(round));
    Setup.RoundTilesBag(round, RoundHands(round));
  }

  /** A round started from seven pieces and a hand lays them out in the top bar's order. */
  lemma {:induction false} StartRoundLayout(s: AppState, table: Table, seed: string, round: Setup.InitializedRound,
                                            h: seq<Tile>, ls: seq<seq<Tile>>, turn: Seat)
    requires |ls| == 7
    ensures AllTiles(StartRound(s, table, seed, round, h, ls[0], ls[1], ls[2], ls[3], ls[4], ls[5], ls[6], turn))
              == ls[0] + ls[1] + ls[2] + ls[3] + (h + ls[4] + ls[5] + ls[6])
  {
  }

  /** A started round lays out its wall, its reserves and its hands, in the top bar's order. */
  lemma {:induction false} StartRoundGroups(s: AppState, table: Table, seed: string, round: Setup.InitializedRound,
                                            hand: seq<Tile>, wall: seq<Tile>, kan: seq<Tile>, dora: seq<Tile>,
                                            uradora: seq<Tile>, kamicha: seq<Tile>, toimen: seq<Tile>,
                                            shimocha: seq<Tile>, turn: Seat)
    ensures AllTiles(StartRound(s, table, seed, round, hand, wall, kan, dora, uradora, kamicha, toimen, shimocha, turn))
              == wall + (kan + dora + uradora) + (hand + kamicha + toimen + shimocha)
  {
  }

  /** The round a deal is cut back into: the pieces in the top bar's order and the deal's hand, sorted. */
  lemma {:induction false} CustomRoundLayout(s: AppState, d: CustomDeal.Deal, round: Setup.InitializedRound, seed: string,
                                             seat: Wind, cmp: Comparator, ls: seq<seq<Tile>>)
    requires ls == Unflatten(d.rest, Lengths(SearchedLists(round, GameSeats(round, seat))))
    ensures |ls| == 7
    ensures AllTiles(CustomRound(s, d, round, seed, seat, cmp))
              == ls[0] + ls[1] + ls[2] + ls[3] + (SortBy(d.hand, cmp) + ls[4] + ls[5] + ls[6])
  {
    StartRoundLayout(s, FirstTable(seat), seed, round, SortBy(d.hand, cmp), ls, GameSeats(round, seat).currentTurn);
  }

  /** The round a deal is cut back into is the first hand of a game, with the deal's hand sorted. */
  lemma {:induction false} CustomRoundHand(s: AppState, d: CustomDeal.Deal, round: Setup.InitializedRound, seed: string,
                                           seat: Wind, cmp: Comparator)
    ensures var r := CustomRound(s, d, round, seed, seat, cmp);
            r.input.hand == SortBy(d.hand, cmp) && r.table == FirstTable(seat)
  {
  }

  /** Bag arithmetic: seven pieces and a hand, in the top bar's order. */
  lemma {:induction false} PiecesBag(ls: seq<seq<Tile>>, h: seq<Tile>)
    requires |ls| == 7
    ensures multiset(ls[0] + ls[1] + ls[2] + ls[3] + (h + ls[4] + ls[5] + ls[6])) == multiset(h) + multiset(Setup.Flat(ls))
  {
    Setup.FlatSevenBag(ls);
  }

  /** The round a deal is cut back into holds the deal's tiles, and the observed hand is the deal's, sorted. */
  lemma {:induction false} CustomRoundBag(s: AppState, d: CustomDeal.Deal, round: Setup.InitializedRound, seed: string,
                                          seat: Wind, cmp: Comparator)
    requires |d.rest| == |CustomStart(round, seat).rest|
    ensures var r := CustomRound(s, d, round, seed, seat, cmp);
            && multiset(AllTiles(r)) == CustomDeal.Bag(d) && r.input.hand == SortBy(d.hand, cmp)
            && r.table == FirstTable(seat)
  {
    var lists := SearchedLists(round, GameSeats(round, seat));
    var ls := Unflatten(d.rest, Lengths(lists));
    UnflattenCovers(d.rest, lists);
    CustomRoundLayout(s, d, round, seed, seat, cmp, ls);
    CustomRoundHand(s, d, round, seed, seat, cmp);
    PiecesBag(ls, SortBy(d.hand, cmp));
  }

  /** Whatever the trades, the custom game starts with the East-marked player, who holds the east hand. */
  lemma {:induction false} CustomRoundTurn(s: AppState, d: CustomDeal.Deal, round: Setup.InitializedRound, seed: string,
                                           seat: Wind, cmp: Comparator)
    ensures var r := CustomRound(s, d, round, seed, seat, cmp);
            Layout.IsEast(seat, r.currentTurn)
  {
    LabelAtEast(seat);
  }

  /** `custom-new-game` as written: every tile of the set-up is still in the round, once. */
  lemma {:induction false} CustomNewGameKeepsTiles(s: AppState, custom: seq<Tile>, round: Setup.InitializedRound,
                                                   seed: string, seat: Wind, cmp: Comparator)
    ensures var r := OnCustomNewGame(s, custom, round, seed, seat, cmp);
            && multiset(AllTiles(r)) == multiset(Setup.RoundTiles(round)) && r.table == FirstTable(seat)
            && Layout.IsEast(seat, r.currentTurn)
  {
    var start := CustomStart(round, seat);
    var d := CustomDeal.Swapped(custom, |custom|, start);
    CustomDeal.SwappedKeepsTiles(custom, |custom|, start);
    CustomStartBag(round, seat);
    CustomRoundBag(s, d, round, seed, seat, cmp);
    CustomRoundTurn(s, d, round, seed, seat, cmp);
  }

  /** Tiles drawn from a bag of well-formed tiles are well formed. */
  lemma {:induction false} WellFormedSub(x: seq<Tile>, y: seq<Tile>)
    requires multiset(x) <= multiset(y) && AllWellFormed(y)
    ensures AllWellFormed(x)
  {
    forall i | 0 <= i < |x|
      ensures WellFormed(x[i])
    {
      assert x[i] in multiset(x);
      assert x[i] in y;
      var j :| 0 <= j < |y| && y[j] == x[i];
    }
  }

  /**
   * The corrected `custom-new-game`: a request of the hand's length that
   * the set-up's tiles can cover is dealt to the observed player exactly,
   * sorted, and every tile of the set-up is still in the round, once.
   */
  lemma {:induction false} CustomNewGameFixedDelivers(s: AppState, custom: seq<Tile>, round: Setup.InitializedRound,
                                                      seed: string, seat: Wind, cmp: Comparator)
    requires |custom| == |CustomStart(round, seat).hand|
    requires AllWellFormed(custom) && AllWellFormed(Setup.RoundTiles(round))
    requires multiset(custom) <= multiset(Setup.RoundTiles(round))
    ensures var r := Corrected.OnCustomNewGameFixed(s, custom, round, seed, seat, cmp);
            && r.input.hand == SortBy(custom, cmp)
            && multiset(AllTiles(r)) == multiset(Setup.RoundTiles(round))
            && Layout.IsEast(seat, r.currentTurn)
  {
    var start := CustomStart(round, seat);
    var d := CustomDeal.SwappedFixed(custom, |custom|, start);
    CustomStartBag(round, seat);
    WellFormedSub(start.hand, Setup.RoundTiles(round));
    WellFormedSub(start.rest, Setup.RoundTiles(round));
    CustomDeal.SwappedFixedDelivers(custom, start);
    CustomDeal.SwappedFixedKeepsTiles(custom, |custom|, start);
    CustomRoundBag(s, d, round, seed, seat, cmp);
    CustomRoundTurn(s, d, round, seed, seat, cmp);
  }
}
