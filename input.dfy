/**
 * The hand description shared by the reducer and the result orchestrator
 * (`Input`, `Meld`, `HandOptions`), the table context (`Table`, `Wind`) and
 * the part of the rule set the core reads (the red-five allowance).
 */
module HandInput {
  import opened Wrappers
  import opened Tiles

  /** A called triplet: `tiles` holds the three tiles, `discardIndex` the rotated one. */
  datatype Meld =
    | Pon(tiles: seq<Tile>, discardIndex: Option<int>)
    | Chii(tiles: seq<Tile>)
    | Kan(tiles: seq<Tile>, discardIndex: Option<int>, closed: bool, shouminkan: Option<bool>)

  /**
   * The size and shape invariants the declarations state in their comments.
   * A pon's rotation index may also be -1, the value `select-pon-tile` writes
   * when the discarder is not one of the other three seats.
   */
  predicate ValidMeld(m: Meld)
  {
    match m
    case Pon(tiles, di) => |tiles| == 3 && (di.Some? ==> -1 <= di.value < |tiles|)
    case Chii(tiles) => |tiles| == 3 && forall i :: 0 <= i < 3 ==> IsSuited(tiles[i])
    case Kan(tiles, di, _, _) => |tiles| == 4 && (di.Some? ==> 0 <= di.value < |tiles|)
  }

  /** All tiles held in a list of melds, meld by meld. */
  function MeldTiles(melds: seq<Meld>): (r: seq<Tile>)
    ensures (forall i :: 0 <= i < |melds| ==> ValidMeld(melds[i])) ==> 3 * |melds| <= |r| <= 4 * |melds|
  {
    if melds == [] then []
    else MeldTiles(melds[..|melds| - 1]) + melds[|melds| - 1].tiles
  }

  lemma {:induction false} MeldTilesAppend(melds: seq<Meld>, m: Meld)
    ensures MeldTiles(melds + [m]) == MeldTiles(melds) + m.tiles
  {
    assert (melds + [m])[..|melds + [m]| - 1] == melds;
  }

  /** The observed player's hand: concealed tiles, at most one drawn tile, melds, revealed dora. */
  datatype Input = Input(dora: seq<Tile>, hand: seq<Tile>, drawnTile: Option<Tile>, melds: seq<Meld>)

  /** Concealed tiles plus the drawn tile, in that order (`combinedHand`/`fullHand`). */
  function FullHand(input: Input): (r: seq<Tile>)
    ensures |r| == |input.hand| + (if input.drawnTile.Some? then 1 else 0)
  {
    if input.drawnTile.Some? then input.hand + [input.drawnTile.value] else input.hand
  }

  datatype RiichiLevel = NoRiichi | Riichi | DoubleRiichi

  /**
   * Win-condition flags. `tenho` is the declared field; the tsumo transition
   * writes a differently spelled `tenhou` property, kept as its own field.
   */
  datatype HandOptions = HandOptions(
    riichi: RiichiLevel, ron: bool, tsumo: bool, ippatsu: bool, rinshan: bool,
    chankan: bool, haitei: bool, tenho: bool, tenhou: bool)

  /** The `initialHandOptions` record. */
  function InitialHandOptions(): (h: HandOptions)
    ensures h.riichi == NoRiichi && !h.ron && !h.tsumo && !h.ippatsu && !h.rinshan
    ensures !h.chankan && !h.haitei && !h.tenho && !h.tenhou
  {
    HandOptions(NoRiichi, false, false, false, false, false, false, false, false)
  }

  predicate InRiichi(h: HandOptions) { h.riichi == Riichi || h.riichi == DoubleRiichi }

  datatype InputFocus = FocusHand | FocusDora | FocusDrawnTile | FocusMeld(i: int)

  datatype Wind = East | South | West | North

  /** The four seats of the store, seen from the observed player (`Seat` in `state.ts`). */
  datatype Seat = Watashi | Shimocha | Toimen | Kamicha

  datatype Table = Table(
    round: Wind, seat: Wind, roundCount: int, honba: bool, riichiLastGame: bool,
    continuation: int, deposit: int)

  /** Red fives allowed per number suit (`rule.red`). */
  datatype RedRule = RedRule(m: int, p: int, s: int)

  function RedAllowance(red: RedRule, suit: Suit): int
  {
    match suit
    case M => red.m
    case P => red.p
    case S => red.s
    case Z => 0
  }

  /** The rule set; scoring options beyond the red allowance are not part of this model. */
  datatype Rule = Rule(red: RedRule)
}
