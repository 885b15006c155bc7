/**
 * The hand-outcome orchestrator `generateResult` of `src/lib/result.ts`.
 *
 * A hand (concealed tiles plus the drawn tile) is classified by its length
 * modulo 3: a multiple of 3, or more than 18 tiles, has no result; a length
 * of the form 3k + 1 is asked of the shanten and hora collaborators
 * directly; a length of the form 3k + 2 is evaluated by removing one tile
 * and recursing, once for the last (or drawn) tile and once for every
 * distinct candidate, keeping every candidate tied at the best score.
 *
 * The shanten search, the hora generators, the tile-availability counter and
 * the tile comparator live in modules that are not part of this model; they
 * are the fields of `Collaborators`, and the table, hand options and rule
 * they are given are folded into them (the orchestrator only passes them on).
 */
module HandResult {
  import opened Wrappers
  import opened Tiles
  import opened HandInput

  // ---------------------------------------------------------------------
  // Result values
  // ---------------------------------------------------------------------

  /** How a hora line wins: on another player's discard or on the own draw. */
  datatype WinBy = ByRon | ByTsumo

  /** One scoring element of a line: its `type` (`yaku`, `yakuman`, ...) and its name. */
  datatype Yaku = Yaku(kind: string, name: string)

  /**
   * One hora line. The orchestrator reads only the winning tile; the reducer
   * also reads how the line wins and its yaku.
   */
  datatype Hora = Hora(horaTile: Tile, winBy: WinBy, yaku: seq<Yaku>)

  /** A tile still obtainable and how many copies are left (`null` allowed, as the counter may return it). */
  datatype TileAvailability = TileAvailability(tile: Tile, count: Option<int>)

  datatype Info =
    | HoraInfo(hora: seq<Hora>)
    | ShantenInfo(shanten: int, tileAvailabilities: seq<TileAvailability>)

  /** The `Result` union without `null` (which is `None` of `Option<Outcome>`). */
  datatype Outcome =
    | HoraShanten(info: Info)
    | DiscardShanten(discards: seq<Discard>)
    | Tempai(tileAvailabilities: seq<TileAvailability>)
    | JustHora

  datatype Discard = Discard(tile: Tile, next: Outcome)

  /** The outcomes of a hand of length 3k + 1: `hora-shanten` or `tempai`. */
  predicate Settled(o: Outcome)
  {
    o.HoraShanten? || o.Tempai?
  }

  // ---------------------------------------------------------------------
  // Collaborators from modules outside the model
  // ---------------------------------------------------------------------

  /**
   * `minShanten` returns the regular shanten number and an opaque search
   * result (`results`), which the hora generator and the tile finders take
   * back. Hands are passed as tile lists rather than count vectors.
   */
  datatype Collaborators = Collaborators(
    minShanten: (seq<Tile>, int) -> (int, nat),
    countChitoitsuShanten: seq<Tile> -> int,
    countKokushiShanten: seq<Tile> -> int,
    generateHora: (nat, Input) -> seq<Hora>,
    generateChitoitsuHora: (seq<Tile>, seq<Tile>) -> seq<Hora>,
    generateKokushiHora: seq<Tile> -> seq<Hora>,
    uniqueHoras: seq<Hora> -> seq<Hora>,
    shantenTiles: (nat, seq<Tile>, int) -> seq<Tile>,
    chitoitsuShantenTiles: seq<Tile> -> seq<Tile>,
    kokushiShantenTiles: seq<Tile> -> seq<Tile>,
    waitingTiles: (nat, seq<Tile>) -> seq<Tile>,
    tileAvailableCount: (seq<Tile>, Tile) -> Option<int>,
    compareTiles: Comparator)

  // ---------------------------------------------------------------------
  // List helpers (`uniqueSorted`, `minsBy`, `filter`, `findIndex`)
  // ---------------------------------------------------------------------

  /** `uniqueSorted(xs, eq)`: drops every element equal (under `cmp`) to the element kept just before it. */
  function UniqueSorted<T>(xs: seq<T>, cmp: (T, T) -> int): (r: seq<T>)
    ensures |r| <= |xs| && (|xs| > 0 ==> |r| > 0)
  {
    if xs == [] then []
    else
      var u := UniqueSorted(xs[..|xs| - 1], cmp);
      if |u| > 0 && cmp(u[|u| - 1], xs[|xs| - 1]) == 0 then u else u + [xs[|xs| - 1]]
  }

  /** Every kept element comes from the input. */
  lemma {:induction false} UniqueSortedFrom<T>(xs: seq<T>, cmp: (T, T) -> int)
    ensures forall y :: y in UniqueSorted(xs, cmp) ==> y in xs
  {
    if xs != [] {
      UniqueSortedFrom(xs[..|xs| - 1], cmp);
    }
  }

  /** A total preorder puts every element level with itself. */
  lemma PreorderReflexive<T(!new)>(cmp: (T, T) -> int)
    requires IsTotalPreorder(cmp)
    ensures forall x :: cmp(x, x) == 0
  {
    forall x
      ensures cmp(x, x) == 0
    {
      assert !(cmp(x, x) < 0) && !(cmp(x, x) > 0);
    }
  }

  /** Every input element has an equal element kept. */
  lemma {:induction false} UniqueSortedCovers<T>(xs: seq<T>, cmp: (T, T) -> int)
    requires forall x :: cmp(x, x) == 0
    ensures forall x :: x in xs ==> exists y :: y in UniqueSorted(xs, cmp) && cmp(y, x) == 0
  {
    if xs != [] {
      var init := xs[..|xs| - 1];
      UniqueSortedCovers(init, cmp);
      var u := UniqueSorted(init, cmp);
      var last := xs[|xs| - 1];
      forall x | x in xs
        ensures exists y :: y in UniqueSorted(xs, cmp) && cmp(y, x) == 0
      {
        if x in init {
          var y :| y in u && cmp(y, x) == 0;
          assert y in UniqueSorted(xs, cmp);
        } else {
          assert x == last;
          if |u| > 0 && cmp(u[|u| - 1], last) == 0 {
            assert u[|u| - 1] in UniqueSorted(xs, cmp);
          } else {
            assert last in UniqueSorted(xs, cmp);
          }
        }
      }
    }
  }

  /** Strictly ascending: sorted with no two equal entries. */
  predicate StrictlySortedBy<T>(s: seq<T>, cmp: (T, T) -> int)
  {
    forall i, j :: 0 <= i < j < |s| ==> cmp(s[i], s[j]) < 0
  }

  /** Appending an entry above the last keeps a list strictly ascending. */
  lemma {:induction false} StrictSnoc<T(!new)>(u: seq<T>, last: T, cmp: (T, T) -> int)
    requires IsTotalPreorder(cmp) && StrictlySortedBy(u, cmp)
    requires |u| > 0 ==> cmp(u[|u| - 1], last) < 0
    ensures StrictlySortedBy(u + [last], cmp)
  {
    var r := u + [last];
    forall i, j | 0 <= i < j < |r|
      ensures cmp(r[i], r[j]) < 0
    {
      if j == |u| && i < |u| - 1 {
        var top := u[|u| - 1];
        assert cmp(u[i], top) < 0 && cmp(top, u[i]) > 0;
      }
    }
  }

  /** On a sorted list `uniqueSorted` leaves no two equal entries. */
  lemma {:induction false} UniqueSortedStrict<T(!new)>(xs: seq<T>, cmp: (T, T) -> int)
    requires IsTotalPreorder(cmp) && SortedBy(xs, cmp)
    ensures StrictlySortedBy(UniqueSorted(xs, cmp), cmp)
  {
    if xs != [] {
      var init := xs[..|xs| - 1];
      var last := xs[|xs| - 1];
      assert SortedBy(init, cmp);
      UniqueSortedStrict(init, cmp);
      UniqueSortedFrom(init, cmp);
      var u := UniqueSorted(init, cmp);
      if !(|u| > 0 && cmp(u[|u| - 1], last) == 0) {
        if |u| > 0 {
          var top := u[|u| - 1];
          assert top in init;
          var k :| 0 <= k < |init| && init[k] == top;
          assert cmp(xs[k], xs[|xs| - 1]) <= 0;
        }
        StrictSnoc(u, last, cmp);
      }
    }
  }

  /** The score `minsBy` ranks discards by: 0 for tempai or hora, otherwise the shanten number. */
  function Score(d: Discard): int
  {
    match d.next
    case Tempai(_) => 0
    case HoraShanten(HoraInfo(_)) => 0
    case HoraShanten(ShantenInfo(s, _)) => s
    case _ => 0
  }

  /** The lowest score in a non-empty list of discards. */
  function MinScore(ds: seq<Discard>): (m: int)
    requires |ds| > 0
    ensures forall i :: 0 <= i < |ds| ==> m <= Score(ds[i])
    ensures exists i :: 0 <= i < |ds| && m == Score(ds[i])
  {
    if |ds| == 1 then Score(ds[0])
    else
      var m := MinScore(ds[..|ds| - 1]);
      var last := Score(ds[|ds| - 1]);
      assert forall i :: 0 <= i < |ds| - 1 ==> ds[..|ds| - 1][i] == ds[i];
      if last < m then last else m
  }

  /** The discards with score `m`, in order. */
  function WithScore(ds: seq<Discard>, m: int): (r: seq<Discard>)
    ensures forall d :: d in r <==> d in ds && Score(d) == m
  {
    if ds == [] then []
    else WithScore(ds[..|ds| - 1], m) + (if Score(ds[|ds| - 1]) == m then [ds[|ds| - 1]] else [])
  }

  /** `minsBy(discards, score)[1]`: every discard at the lowest score, in order. */
  function MinsBy(ds: seq<Discard>): (r: seq<Discard>)
    requires |ds| > 0
  {
    WithScore(ds, MinScore(ds))
  }

  /** `minsBy` keeps exactly the discards no other discard beats, and at least one. */
  lemma {:induction false} MinsByKeepsTies(ds: seq<Discard>)
    requires |ds| > 0
    ensures |MinsBy(ds)| > 0
    ensures forall d :: d in MinsBy(ds) <==> d in ds && forall e :: e in ds ==> Score(d) <= Score(e)
  {
    var m := MinScore(ds);
    var i :| 0 <= i < |ds| && m == Score(ds[i]);
    assert ds[i] in MinsBy(ds);
    forall d | d in ds && (forall e :: e in ds ==> Score(d) <= Score(e))
      ensures d in MinsBy(ds)
    {
      assert Score(d) <= Score(ds[i]);
      var k :| 0 <= k < |ds| && ds[k] == d;
      assert m <= Score(ds[k]);
    }
    forall d | d in MinsBy(ds)
      ensures forall e :: e in ds ==> Score(d) <= Score(e)
    {
      forall e | e in ds
        ensures Score(d) <= Score(e)
      {
        var k :| 0 <= k < |ds| && ds[k] == e;
        assert m <= Score(ds[k]);
      }
    }
  }

  /** `hora.filter(h => compareTiles(h.horaTile, t) === 0)`. */
  function HorasOn(hs: seq<Hora>, t: Tile, cmp: Comparator): (r: seq<Hora>)
    ensures forall h :: h in r <==> h in hs && cmp(h.horaTile, t) == 0
  {
    if hs == [] then []
    else HorasOn(hs[..|hs| - 1], t, cmp) + (if cmp(hs[|hs| - 1].horaTile, t) == 0 then [hs[|hs| - 1]] else [])
  }

  /** `tiles.filter(x => compareTiles(x, t) !== 0)`. */
  function OtherThan(ts: seq<Tile>, t: Tile, cmp: Comparator): (r: seq<Tile>)
    ensures forall x :: x in r <==> x in ts && cmp(x, t) != 0
  {
    if ts == [] then []
    else OtherThan(ts[..|ts| - 1], t, cmp) + (if cmp(ts[|ts| - 1], t) != 0 then [ts[|ts| - 1]] else [])
  }

  /** `findIndex(h => compareTiles(h, t) === 0)`: the first match, or -1. */
  function FindIndex(hand: seq<Tile>, t: Tile, cmp: Comparator): (i: int)
    ensures -1 <= i < |hand|
    ensures i >= 0 ==> cmp(hand[i], t) == 0 && forall j :: 0 <= j < i ==> cmp(hand[j], t) != 0
    ensures i < 0 ==> forall j :: 0 <= j < |hand| ==> cmp(hand[j], t) != 0
  {
    if hand == [] then -1
    else if cmp(hand[0], t) == 0 then 0
    else
      var k := FindIndex(hand[1..], t, cmp);
      assert forall j :: 1 <= j < |hand| ==> hand[1..][j - 1] == hand[j];
      if k < 0 then -1 else k + 1
  }

  /**
   * `hand.splice(hand.findIndex(...), 1)`: removes the first matching tile;
   * with no match the index is -1, and `splice(-1, 1)` removes the last tile.
   */
  function RemoveFirstMatch(hand: seq<Tile>, t: Tile, cmp: Comparator): (r: seq<Tile>)
    requires |hand| > 0
    ensures |r| == |hand| - 1
  {
    var i := FindIndex(hand, t, cmp);
    if i >= 0 then hand[..i] + hand[i + 1..] else hand[..|hand| - 1]
  }

  /** The candidates for which `findIndex` finds a tile (the `if (idx < 0) continue` filter). */
  function Found(ts: seq<Tile>, hand: seq<Tile>, cmp: Comparator): (r: seq<Tile>)
    ensures forall x :: x in r <==> x in ts && FindIndex(hand, x, cmp) >= 0
  {
    if ts == [] then []
    else Found(ts[..|ts| - 1], hand, cmp) + (if FindIndex(hand, ts[|ts| - 1], cmp) >= 0 then [ts[|ts| - 1]] else [])
  }

  // ---------------------------------------------------------------------
  // Tile availabilities
  // ---------------------------------------------------------------------

  /** The row of one red flag of a suited five: dropped when the counter returns `null`. */
  function RedRow(c: Collaborators, all: seq<Tile>, t: Tile, red: bool): seq<TileAvailability>
  {
    var t' := t.(red := red);
    match c.tileAvailableCount(all, t')
    case None => []
    case Some(n) => [TileAvailability(t', Some(n))]
  }

  /** `tileCountsIndexToTileAvailabilities`: a suited five gives a non-red and a red row, any other tile one row. */
  function AvailabilityRows(c: Collaborators, all: seq<Tile>, t: Tile): seq<TileAvailability>
  {
    if t.suit != Z && t.n == 5 then RedRow(c, all, t, false) + RedRow(c, all, t, true)
    else [TileAvailability(t, c.tileAvailableCount(all, t))]
  }

  /** The rows of a shape, tile by tile (`flatMap`). */
  function Rows(c: Collaborators, all: seq<Tile>, ts: seq<Tile>): seq<TileAvailability>
  {
    if ts == [] then [] else Rows(c, all, ts[..|ts| - 1]) + AvailabilityRows(c, all, ts[|ts| - 1])
  }

  /**
   * The rows of one tile: a suited five has one row per red flag the counter
   * knows, non-red first, each with its count; any other tile has exactly
   * one row, kept even when its count is `null`.
   */
  lemma {:induction false} AvailabilityRowsShape(c: Collaborators, all: seq<Tile>, t: Tile)
    ensures var rows := AvailabilityRows(c, all, t);
            if t.suit != Z && t.n == 5 then
              && |rows| <= 2
              && (forall a :: a in rows ==> a.tile == t.(red := a.tile.red) && a.count.Some?
                                            && a.count == c.tileAvailableCount(all, a.tile))
              && ((TileAvailability(t.(red := false), c.tileAvailableCount(all, t.(red := false))) in rows)
                    <==> c.tileAvailableCount(all, t.(red := false)).Some?)
              && ((TileAvailability(t.(red := true), c.tileAvailableCount(all, t.(red := true))) in rows)
                    <==> c.tileAvailableCount(all, t.(red := true)).Some?)
              && (|rows| == 2 ==> !rows[0].tile.red && rows[1].tile.red)
            else rows == [TileAvailability(t, c.tileAvailableCount(all, t))]
  {
  }

  /** Every row of a shape belongs to one of its tiles, with the counter's count. */
  lemma {:induction false} RowsFrom(c: Collaborators, all: seq<Tile>, ts: seq<Tile>)
    ensures forall a :: a in Rows(c, all, ts) ==>
              exists t :: t in ts && a.tile.suit == t.suit && a.tile.n == t.n && a.count == c.tileAvailableCount(all, a.tile)
  {
    if ts != [] {
      RowsFrom(c, all, ts[..|ts| - 1]);
      var t := ts[|ts| - 1];
      forall a | a in Rows(c, all, ts)
        ensures exists t :: t in ts && a.tile.suit == t.suit && a.tile.n == t.n && a.count == c.tileAvailableCount(all, a.tile)
      {
        if a in Rows(c, all, ts[..|ts| - 1]) {
          var u :| u in ts[..|ts| - 1] && a.tile.suit == u.suit && a.tile.n == u.n && a.count == c.tileAvailableCount(all, a.tile);
          assert u in ts;
        } else {
          assert a in AvailabilityRows(c, all, t);
          assert t in ts;
        }
      }
    }
  }

  // ---------------------------------------------------------------------
  // The orchestrator
  // ---------------------------------------------------------------------

  /** The guard: no result for a length that is a multiple of 3 or above 18. */
  predicate NoResult(len: int)
  {
    len % 3 == 0 || len > 18
  }

  /** `countBy(melds, m => m.tiles.length > 0)`. */
  function NonEmptyMelds(melds: seq<Meld>): (n: nat)
    ensures n <= |melds|
  {
    if melds == [] then 0
    else NonEmptyMelds(melds[..|melds| - 1]) + (if |melds[|melds| - 1].tiles| > 0 then 1 else 0)
  }

  /** Every tile the availability counter is told about: hand, melds, dora indicators, all discards. */
  function AllInputTiles(input: Input, allDiscards: seq<Tile>): seq<Tile>
  {
    FullHand(input) + MeldTiles(input.melds) + input.dora + allDiscards
  }

  /** Compares availability rows by their tiles. */
  function ByTile(cmp: Comparator): (TileAvailability, TileAvailability) -> int
  {
    (a: TileAvailability, b: TileAvailability) => cmp(a.tile, b.tile)
  }

  lemma {:induction false} ByTilePreorder(cmp: Comparator)
    requires IsTotalPreorder(cmp)
    ensures IsTotalPreorder(ByTile(cmp))
  {
    var f := ByTile(cmp);
    forall a, b
      ensures f(a, b) < 0 <==> f(b, a) > 0
    {
      assert f(a, b) == cmp(a.tile, b.tile) && f(b, a) == cmp(b.tile, a.tile);
    }
    forall a, b, d | f(a, b) <= 0 && f(b, d) <= 0
      ensures f(a, d) <= 0
    {
      assert f(a, b) == cmp(a.tile, b.tile) && f(b, d) == cmp(b.tile, d.tile) && f(a, d) == cmp(a.tile, d.tile);
    }
  }

  /** The three shanten counts of a 13-tile hand: regular, seven pairs, thirteen orphans. */
  function ShantenCounts(c: Collaborators, input: Input): (int, int, int)
  {
    var combined := FullHand(input);
    (c.minShanten(combined, 0).0, c.countChitoitsuShanten(combined), c.countKokushiShanten(combined))
  }

  function Min3(a: int, b: int, d: int): (m: int)
    ensures m <= a && m <= b && m <= d && (m == a || m == b || m == d)
  {
    if a <= b && a <= d then a else if b <= d then b else d
  }

  /** The hora lines of a 13-tile hand: the lines of each shape at zero shanten, concatenated. */
  function ThirteenHoras(c: Collaborators, input: Input): seq<Hora>
  {
    var combined := FullHand(input);
    var (s, chi, ko) := ShantenCounts(c, input);
    (if s == 0 then c.generateHora(c.minShanten(combined, 0).1, input) else [])
    + (if chi == 0 then c.generateChitoitsuHora(combined, input.dora) else [])
    + (if ko == 0 then c.generateKokushiHora(combined) else [])
  }

  /** The availability rows of a 13-tile hand: the rows of each shape at the minimum, concatenated. */
  function ThirteenRows(c: Collaborators, input: Input, allDiscards: seq<Tile>): seq<TileAvailability>
  {
    var combined := FullHand(input);
    var all := AllInputTiles(input, allDiscards);
    var (s, chi, ko) := ShantenCounts(c, input);
    var min := Min3(s, chi, ko);
    (if s == min then Rows(c, all, c.shantenTiles(c.minShanten(combined, 0).1, combined + MeldTiles(input.melds), 0)) else [])
    + (if chi == min then Rows(c, all, c.chitoitsuShantenTiles(combined)) else [])
    + (if ko == min then Rows(c, all, c.kokushiShantenTiles(combined)) else [])
  }

  /** The `% 3 === 1` branch: asks the collaborators directly, never recursing. */
  function SettledResult(c: Collaborators, input: Input, allDiscards: seq<Tile>): (o: Outcome)
    requires |FullHand(input)| % 3 == 1
    ensures Settled(o)
  {
    var combined := FullHand(input);
    var all := AllInputTiles(input, allDiscards);
    var handAndMelds := combined + MeldTiles(input.melds);
    var k := (14 - |combined| - 1) / 3;
    var (shanten, results) := c.minShanten(combined, k);
    if |combined| == 13 then
      var (_, chi, ko) := ShantenCounts(c, input);
      if shanten == 0 || chi == 0 || ko == 0 then
        HoraShanten(HoraInfo(c.uniqueHoras(ThirteenHoras(c, input))))
      else
        HoraShanten(ShantenInfo(Min3(shanten, chi, ko),
          UniqueSorted(SortBy(ThirteenRows(c, input, allDiscards), ByTile(c.compareTiles)), ByTile(c.compareTiles))))
    else if |combined| + NonEmptyMelds(input.melds) * 3 == 13 then
      if shanten == 0 then HoraShanten(HoraInfo(c.uniqueHoras(c.generateHora(results, input))))
      else HoraShanten(ShantenInfo(shanten, Rows(c, all, c.shantenTiles(results, handAndMelds, |input.melds|))))
    else if shanten == 0 then
      Tempai(Rows(c, all, c.waitingTiles(results, handAndMelds)))
    else
      HoraShanten(ShantenInfo(shanten, Rows(c, all, c.shantenTiles(results, handAndMelds, k))))
  }

  /**
   * `generateResult`. `None` is `null`. Each recursive call removes exactly
   * one tile from a hand of length 3k + 2, so it lands in the 3k + 1 branch,
   * which never recurses: the recursion is one level deep, and the `throw`s
   * of the source are the `assert`s below, all of which hold.
   */
  function GenerateResult(c: Collaborators, input: Input, allDiscards: seq<Tile>): (r: Option<Outcome>)
    ensures r.None? <==> NoResult(|FullHand(input)|)
    ensures !NoResult(|FullHand(input)|) && |FullHand(input)| % 3 == 1 ==> Settled(r.value)
    ensures !NoResult(|FullHand(input)|) && |FullHand(input)| % 3 == 2 ==>
              (r.value.HoraShanten? && r.value.info.HoraInfo?) || r.value.JustHora? || r.value.DiscardShanten?
    decreases |FullHand(input)|, 4
  {
    var combined := FullHand(input);
    if NoResult(|combined|) then None
    else if |combined| % 3 == 1 then Some(SettledResult(c, input, allDiscards))
    else if |input.hand| % 3 == 2 && input.drawnTile.None? then Some(WithoutDrawnResult(c, input, allDiscards))
    else if |combined| % 3 == 2 && input.drawnTile.Some? then Some(WithDrawnResult(c, input, allDiscards))
    else assert false; None
  }

  /** What discarding the last (or drawn) tile leaves: the baseline of both 3k + 2 branches. */
  function Baseline(c: Collaborators, input: Input, allDiscards: seq<Tile>): (o: Outcome)
    requires |FullHand(input)| % 3 == 1 && |FullHand(input)| <= 17
    ensures Settled(o)
    decreases |FullHand(input)|, 5
  {
    var r := GenerateResult(c, input, allDiscards);
    assert r.Some? && Settled(r.value);
    r.value
  }

  /**
   * The short-circuits shared by both 3k + 2 branches: a baseline hora whose
   * lines win on the removed tile returns just those lines; a baseline tempai
   * waiting on it is `just-hora`; otherwise `None`, and the candidates decide.
   */
  function ShortCircuit(base: Outcome, last: Tile, cmp: Comparator): Option<Outcome>
  {
    if base.HoraShanten? && base.info.HoraInfo? && |HorasOn(base.info.hora, last, cmp)| > 0 then
      Some(HoraShanten(HoraInfo(HorasOn(base.info.hora, last, cmp))))
    else if base.Tempai? && exists i :: 0 <= i < |base.tileAvailabilities| && cmp(base.tileAvailabilities[i].tile, last) == 0 then
      Some(JustHora)
    else None
  }

  /** The candidates without a drawn tile: distinct tiles of the hand without its last, other than the last. */
  function CandidatesWithoutDrawn(hand: seq<Tile>, cmp: Comparator): seq<Tile>
    requires |hand| > 0
  {
    OtherThan(UniqueSorted(hand[..|hand| - 1], cmp), hand[|hand| - 1], cmp)
  }

  /** The candidates with a drawn tile: distinct tiles of the hand that `findIndex` finds. */
  function CandidatesWithDrawn(hand: seq<Tile>, cmp: Comparator): seq<Tile>
  {
    Found(UniqueSorted(hand, cmp), hand, cmp)
  }

  /** The hand left after discarding candidate `t`: one matching copy spliced out, the drawn tile kept. */
  function Without(input: Input, t: Tile, cmp: Comparator): Input
    requires |input.hand| > 0
  {
    input.(hand := RemoveFirstMatch(input.hand, t, cmp))
  }

  /** Candidate `t` with the result of discarding one copy of it, a hand of length 3k + 1. */
  function DiscardOf(c: Collaborators, input: Input, allDiscards: seq<Tile>, t: Tile): (d: Discard)
    requires |input.hand| > 0 && |FullHand(input)| % 3 == 2 && |FullHand(input)| <= 18
    ensures d.tile == t && Settled(d.next)
    decreases |FullHand(input)|, 0
  {
    var rest := Without(input, t, c.compareTiles);
    assert |FullHand(rest)| == |FullHand(input)| - 1;
    var r := GenerateResult(c, rest, allDiscards);
    Discard(t, r.value)
  }

  /** Each candidate with the result of discarding one copy of it (`candidates.map`). */
  function Evaluate(c: Collaborators, input: Input, allDiscards: seq<Tile>, cands: seq<Tile>): (ds: seq<Discard>)
    requires |input.hand| > 0 && |FullHand(input)| % 3 == 2 && |FullHand(input)| <= 18
    ensures |ds| == |cands|
    ensures forall i :: 0 <= i < |ds| ==> ds[i] == DiscardOf(c, input, allDiscards, cands[i])
    decreases |FullHand(input)|, 1, |cands|
  {
    if cands == [] then []
    else Evaluate(c, input, allDiscards, cands[..|cands| - 1]) + [DiscardOf(c, input, allDiscards, cands[|cands| - 1])]
  }

  /** All discard options without a drawn tile: the candidates, then the last tile with the baseline. */
  function OptionsWithoutDrawn(c: Collaborators, input: Input, allDiscards: seq<Tile>): (ds: seq<Discard>)
    requires input.drawnTile.None? && |input.hand| % 3 == 2 && |input.hand| <= 18
    ensures |ds| > 0
    decreases |FullHand(input)|, 2
  {
    var hand := input.hand;
    Evaluate(c, input, allDiscards, CandidatesWithoutDrawn(hand, c.compareTiles))
    + [Discard(hand[|hand| - 1], Baseline(c, input.(hand := hand[..|hand| - 1]), allDiscards))]
  }

  /** All discard options with a drawn tile: the candidates, then the drawn tile with the baseline. */
  function OptionsWithDrawn(c: Collaborators, input: Input, allDiscards: seq<Tile>): (ds: seq<Discard>)
    requires input.drawnTile.Some? && |FullHand(input)| % 3 == 2 && |FullHand(input)| <= 18
    ensures |ds| > 0
    decreases |FullHand(input)|, 2
  {
    Evaluate(c, input, allDiscards, CandidatesWithDrawn(input.hand, c.compareTiles))
    + [Discard(input.drawnTile.value, Baseline(c, input.(drawnTile := None), allDiscards))]
  }

  /** The `% 3 === 2` branch without a drawn tile: the last tile of the hand plays the drawn tile. */
  function WithoutDrawnResult(c: Collaborators, input: Input, allDiscards: seq<Tile>): (o: Outcome)
    requires input.drawnTile.None? && |input.hand| % 3 == 2 && |input.hand| <= 18
    ensures (o.HoraShanten? && o.info.HoraInfo?) || o.JustHora? || o.DiscardShanten?
    decreases |FullHand(input)|, 3
  {
    var hand := input.hand;
    var base := Baseline(c, input.(hand := hand[..|hand| - 1]), allDiscards);
    match ShortCircuit(base, hand[|hand| - 1], c.compareTiles)
    case Some(o) => o
    case None => DiscardShanten(MinsBy(OptionsWithoutDrawn(c, input, allDiscards)))
  }

  /** The `% 3 === 2` branch with a drawn tile. */
  function WithDrawnResult(c: Collaborators, input: Input, allDiscards: seq<Tile>): (o: Outcome)
    requires input.drawnTile.Some? && |FullHand(input)| % 3 == 2 && |FullHand(input)| <= 18
    ensures (o.HoraShanten? && o.info.HoraInfo?) || o.JustHora? || o.DiscardShanten?
    decreases |FullHand(input)|, 3
  {
    var base := Baseline(c, input.(drawnTile := None), allDiscards);
    match ShortCircuit(base, input.drawnTile.value, c.compareTiles)
    case Some(o) => o
    case None => DiscardShanten(MinsBy(OptionsWithDrawn(c, input, allDiscards)))
  }

  // ---------------------------------------------------------------------
  // Properties
  // ---------------------------------------------------------------------

  /** `splice(findIndex(...), 1)` takes out exactly one tile level with `t`, or the last tile when none is. */
  lemma {:induction false} RemoveFirstMatchRemovesOne(hand: seq<Tile>, t: Tile, cmp: Comparator)
    requires |hand| > 0
    ensures var r := RemoveFirstMatch(hand, t, cmp);
            var i := FindIndex(hand, t, cmp);
            && (i >= 0 ==> cmp(hand[i], t) == 0 && multiset(r) + multiset{hand[i]} == multiset(hand))
            && (i < 0 ==> r == hand[..|hand| - 1] && forall x :: x in hand ==> cmp(x, t) != 0)
  {
    var i := FindIndex(hand, t, cmp);
    if i >= 0 {
      assert hand == hand[..i] + [hand[i]] + hand[i + 1..];
    }
  }

  /** Every candidate in the list is found in the hand, so `Found` keeps them all. */
  lemma {:induction false} FoundAll(ts: seq<Tile>, hand: seq<Tile>, cmp: Comparator)
    requires forall x :: x in ts ==> FindIndex(hand, x, cmp) >= 0
    ensures Found(ts, hand, cmp) == ts
  {
    if ts != [] {
      FoundAll(ts[..|ts| - 1], hand, cmp);
      assert ts[..|ts| - 1] + [ts[|ts| - 1]] == ts;
    }
  }

  /** Every tile of the hand is found in it: the `idx < 0` guard of the drawn-tile branch never skips a candidate. */
  lemma {:induction false} CandidatesWithDrawnAllFound(hand: seq<Tile>, cmp: Comparator)
    requires IsTotalPreorder(cmp)
    ensures CandidatesWithDrawn(hand, cmp) == UniqueSorted(hand, cmp)
  {
    UniqueSortedFrom(hand, cmp);
    forall x | x in UniqueSorted(hand, cmp)
      ensures FindIndex(hand, x, cmp) >= 0
    {
      assert x in hand;
      assert !(cmp(x, x) < 0) && !(cmp(x, x) > 0);
    }
    FoundAll(UniqueSorted(hand, cmp), hand, cmp);
  }

  /** Two tiles level with a third are level with each other. */
  lemma LevelTransitive(cmp: Comparator, x: Tile, y: Tile, z: Tile)
    requires IsTotalPreorder(cmp) && cmp(x, y) == 0 && cmp(y, z) == 0
    ensures cmp(x, z) == 0
  {
    assert cmp(x, z) <= 0;
    assert !(cmp(z, y) < 0) && !(cmp(z, y) > 0);
    assert !(cmp(y, x) < 0) && !(cmp(y, x) > 0);
    assert cmp(z, x) <= 0;
  }

  /**
   * The candidates with a drawn tile: each is a tile of the hand, and every
   * tile of the hand is level with one of them.
   */
  lemma {:induction false} CandidatesWithDrawnCover(hand: seq<Tile>, cmp: Comparator)
    requires IsTotalPreorder(cmp)
    ensures var cands := CandidatesWithDrawn(hand, cmp);
            && (forall t :: t in cands ==> t in hand)
            && (forall x :: x in hand ==> exists t :: t in cands && cmp(t, x) == 0)
  {
    CandidatesWithDrawnAllFound(hand, cmp);
    UniqueSortedFrom(hand, cmp);
    PreorderReflexive(cmp);
    UniqueSortedCovers(hand, cmp);
  }

  /** A tile of the rest not level with `last` is level with a kept candidate. */
  lemma CandidateCovers(init: seq<Tile>, last: Tile, x: Tile, cmp: Comparator)
    requires IsTotalPreorder(cmp) && x in init && cmp(x, last) != 0
    ensures exists t :: t in OtherThan(UniqueSorted(init, cmp), last, cmp) && cmp(t, x) == 0
  {
    PreorderReflexive(cmp);
    UniqueSortedCovers(init, cmp);
    var y :| y in UniqueSorted(init, cmp) && cmp(y, x) == 0;
    if cmp(y, last) == 0 {
      assert !(cmp(x, y) < 0) && !(cmp(x, y) > 0);
      LevelTransitive(cmp, x, y, last);
    }
    assert y in OtherThan(UniqueSorted(init, cmp), last, cmp);
  }

  /**
   * The candidates without a drawn tile: each is a tile of the hand before
   * its last, not level with the last, and every tile of the hand not level
   * with the last is level with one of them.
   */
  lemma {:induction false} CandidatesWithoutDrawnCover(hand: seq<Tile>, cmp: Comparator)
    requires |hand| > 0 && IsTotalPreorder(cmp)
    ensures var cands := CandidatesWithoutDrawn(hand, cmp);
            var last := hand[|hand| - 1];
            && (forall t :: t in cands ==> t in hand[..|hand| - 1] && cmp(t, last) != 0)
            && (forall x :: x in hand && cmp(x, last) != 0 ==> exists t :: t in cands && cmp(t, x) == 0)
  {
    var init := hand[..|hand| - 1];
    var last := hand[|hand| - 1];
    UniqueSortedFrom(init, cmp);
    forall x | x in hand && cmp(x, last) != 0
      ensures exists t :: t in CandidatesWithoutDrawn(hand, cmp) && cmp(t, x) == 0
    {
      assert hand == init + [last];
      CandidateCovers(init, last, x, cmp);
    }
  }

  /** In a strictly ascending list every entry before the last is below it. */
  lemma BelowLast(ts: seq<Tile>, x: Tile, cmp: Comparator)
    requires |ts| > 0 && StrictlySortedBy(ts, cmp) && x in ts[..|ts| - 1]
    ensures cmp(x, ts[|ts| - 1]) < 0
  {
    var i :| 0 <= i < |ts| - 1 && ts[i] == x;
  }

  /** Filtering out the tiles level with `t` keeps a list strictly ascending. */
  lemma {:induction false} OtherThanStrict(ts: seq<Tile>, t: Tile, cmp: Comparator)
    requires IsTotalPreorder(cmp) && StrictlySortedBy(ts, cmp)
    ensures StrictlySortedBy(OtherThan(ts, t, cmp), cmp)
  {
    if ts != [] {
      var init := ts[..|ts| - 1];
      var last := ts[|ts| - 1];
      assert StrictlySortedBy(init, cmp) by {
        forall i, j | 0 <= i < j < |init|
          ensures cmp(init[i], init[j]) < 0
        {
          assert init[i] == ts[i] && init[j] == ts[j];
        }
      }
      OtherThanStrict(init, t, cmp);
      var u := OtherThan(init, t, cmp);
      if cmp(last, t) != 0 {
        if |u| > 0 {
          assert u[|u| - 1] in u;
          BelowLast(ts, u[|u| - 1], cmp);
        }
        StrictSnoc(u, last, cmp);
      }
    }
  }

  /**
   * On a sorted hand (the store keeps watashi's hand sorted by `compareTiles`)
   * the candidates without a drawn tile are strictly ascending: each kind is
   * evaluated once.
   */
  lemma {:induction false} CandidatesWithoutDrawnDistinct(hand: seq<Tile>, cmp: Comparator)
    requires |hand| > 0 && IsTotalPreorder(cmp) && SortedBy(hand, cmp)
    ensures StrictlySortedBy(CandidatesWithoutDrawn(hand, cmp), cmp)
  {
    var init := hand[..|hand| - 1];
    assert SortedBy(init, cmp);
    UniqueSortedStrict(init, cmp);
    OtherThanStrict(UniqueSorted(init, cmp), hand[|hand| - 1], cmp);
  }

  /** On a sorted hand the candidates with a drawn tile are strictly ascending: each kind is evaluated once. */
  lemma {:induction false} CandidatesWithDrawnDistinct(hand: seq<Tile>, cmp: Comparator)
    requires IsTotalPreorder(cmp) && SortedBy(hand, cmp)
    ensures StrictlySortedBy(CandidatesWithDrawn(hand, cmp), cmp)
  {
    CandidatesWithDrawnAllFound(hand, cmp);
    UniqueSortedStrict(hand, cmp);
  }

  /**
   * The short-circuits: a baseline hora whose lines win on the removed tile
   * yields exactly those lines; otherwise a baseline tempai waiting on it
   * yields `just-hora`; otherwise neither applies.
   */
  lemma {:induction false} ShortCircuitMeaning(base: Outcome, last: Tile, cmp: Comparator)
    requires Settled(base)
    ensures var s := ShortCircuit(base, last, cmp);
            var wins := base.HoraShanten? && base.info.HoraInfo? && exists h :: h in base.info.hora && cmp(h.horaTile, last) == 0;
            var waits := base.Tempai? && exists a :: a in base.tileAvailabilities && cmp(a.tile, last) == 0;
            && (s.None? <==> !wins && !waits)
            && (wins ==> s.value.HoraShanten? && s.value.info.HoraInfo? && |s.value.info.hora| > 0
                         && forall h :: h in s.value.info.hora <==> h in base.info.hora && cmp(h.horaTile, last) == 0)
            && (waits ==> s == Some(JustHora))
  {
    if base.HoraShanten? && base.info.HoraInfo? && exists h :: h in base.info.hora && cmp(h.horaTile, last) == 0 {
      var h :| h in base.info.hora && cmp(h.horaTile, last) == 0;
      assert h in HorasOn(base.info.hora, last, cmp);
    } else if base.HoraShanten? && base.info.HoraInfo? && |HorasOn(base.info.hora, last, cmp)| > 0 {
      assert HorasOn(base.info.hora, last, cmp)[0] in HorasOn(base.info.hora, last, cmp);
    }
    if base.Tempai? {
      var avail := base.tileAvailabilities;
      if exists a :: a in avail && cmp(a.tile, last) == 0 {
        var a :| a in avail && cmp(a.tile, last) == 0;
        var i :| 0 <= i < |avail| && avail[i] == a;
      } else {
        assert forall i :: 0 <= i < |avail| ==> avail[i] in avail;
      }
    }
  }

  /**
   * With a drawn tile: a short-circuit wins when one applies; otherwise the
   * result lists exactly the discard options that no option beats.
   */
  lemma {:induction false} WithDrawnResultBest(c: Collaborators, input: Input, allDiscards: seq<Tile>)
    requires input.drawnTile.Some? && |FullHand(input)| % 3 == 2 && |FullHand(input)| <= 18
    ensures var o := WithDrawnResult(c, input, allDiscards);
            var s := ShortCircuit(Baseline(c, input.(drawnTile := None), allDiscards), input.drawnTile.value, c.compareTiles);
            var ds := OptionsWithDrawn(c, input, allDiscards);
            && (s.Some? ==> o == s.value)
            && (s.None? ==>
                  && o.DiscardShanten? && |o.discards| > 0
                  && forall d :: d in o.discards <==> d in ds && forall e :: e in ds ==> Score(d) <= Score(e))
  {
    MinsByKeepsTies(OptionsWithDrawn(c, input, allDiscards));
  }

  /**
   * Without a drawn tile: a short-circuit on the last tile wins when one
   * applies; otherwise the result lists exactly the options no option beats.
   */
  lemma {:induction false} WithoutDrawnResultBest(c: Collaborators, input: Input, allDiscards: seq<Tile>)
    requires input.drawnTile.None? && |input.hand| % 3 == 2 && |input.hand| <= 18
    ensures var o := WithoutDrawnResult(c, input, allDiscards);
            var hand := input.hand;
            var s := ShortCircuit(Baseline(c, input.(hand := hand[..|hand| - 1]), allDiscards), hand[|hand| - 1], c.compareTiles);
            var ds := OptionsWithoutDrawn(c, input, allDiscards);
            && (s.Some? ==> o == s.value)
            && (s.None? ==>
                  && o.DiscardShanten? && |o.discards| > 0
                  && forall d :: d in o.discards <==> d in ds && forall e :: e in ds ==> Score(d) <= Score(e))
  {
    MinsByKeepsTies(OptionsWithoutDrawn(c, input, allDiscards));
  }

  /**
   * A hand of length 3k + 1: `tempai` is reported exactly for a hand at zero
   * shanten that is neither 13 tiles nor completed to 13 by its melds; a
   * hora report needs a shape at zero shanten; a shanten report never
   * reports zero.
   */
  lemma {:induction false} SettledResultMeaning(c: Collaborators, input: Input, allDiscards: seq<Tile>)
    requires |FullHand(input)| % 3 == 1
    ensures var o := SettledResult(c, input, allDiscards);
            var combined := FullHand(input);
            var shanten := c.minShanten(combined, (14 - |combined| - 1) / 3).0;
            var (_, chi, ko) := ShantenCounts(c, input);
            && (o.Tempai? <==> |combined| != 13 && |combined| + 3 * NonEmptyMelds(input.melds) != 13 && shanten == 0)
            && (o.HoraShanten? && o.info.HoraInfo? ==> shanten == 0 || (|combined| == 13 && (chi == 0 || ko == 0)))
            && (o.HoraShanten? && o.info.ShantenInfo? ==> o.info.shanten != 0)
  {
  }

  /** `uniqueSorted(rows.sort(byTile), byTile)` is strictly ascending by tile. */
  lemma {:induction false} SortedRowsStrict(rows: seq<TileAvailability>, cmp: Comparator)
    requires IsTotalPreorder(cmp)
    ensures StrictlySortedBy(UniqueSorted(SortBy(rows, ByTile(cmp)), ByTile(cmp)), ByTile(cmp))
  {
    var f := ByTile(cmp);
    ByTilePreorder(cmp);
    SortBySorted(rows, f);
    UniqueSortedStrict(SortBy(rows, f), f);
  }

  /** Every entry of `uniqueSorted(rows.sort(byTile), byTile)` is a row, and every row is level with an entry. */
  lemma {:induction false} SortedRowsCover(rows: seq<TileAvailability>, cmp: Comparator)
    requires forall t :: cmp(t, t) == 0
    ensures var out := UniqueSorted(SortBy(rows, ByTile(cmp)), ByTile(cmp));
            && (forall a :: a in out ==> a in rows)
            && (forall a :: a in rows ==> exists b :: b in out && cmp(b.tile, a.tile) == 0)
  {
    var f := ByTile(cmp);
    var sorted := SortBy(rows, f);
    var out := UniqueSorted(sorted, f);
    assert forall a :: f(a, a) == cmp(a.tile, a.tile);
    UniqueSortedFrom(sorted, f);
    UniqueSortedCovers(sorted, f);
    forall a | a in rows
      ensures exists b :: b in out && cmp(b.tile, a.tile) == 0
    {
      assert a in multiset(sorted);
      assert a in sorted;
      var b :| b in out && f(b, a) == 0;
      assert f(b, a) == cmp(b.tile, a.tile);
    }
    forall a | a in out
      ensures a in rows
    {
      assert a in multiset(rows);
    }
  }

  /**
   * A 13-tile hand: hora exactly when one of the three shapes is complete;
   * otherwise the lowest of the three shanten numbers, with availabilities
   * in strictly ascending tile order, each drawn from the shapes at that
   * minimum and together covering every tile those shapes list.
   */
  lemma {:induction false} ThirteenTileResult(c: Collaborators, input: Input, allDiscards: seq<Tile>)
    requires |FullHand(input)| == 13 && IsTotalPreorder(c.compareTiles)
    ensures var o := SettledResult(c, input, allDiscards);
            var (s, chi, ko) := ShantenCounts(c, input);
            var rows := ThirteenRows(c, input, allDiscards);
            && o.HoraShanten?
            && (o.info.HoraInfo? <==> s == 0 || chi == 0 || ko == 0)
            && (o.info.ShantenInfo? ==>
                  && o.info.shanten == Min3(s, chi, ko)
                  && StrictlySortedBy(o.info.tileAvailabilities, ByTile(c.compareTiles))
                  && (forall a :: a in o.info.tileAvailabilities ==> a in rows)
                  && (forall a :: a in rows ==> exists b :: b in o.info.tileAvailabilities && c.compareTiles(b.tile, a.tile) == 0))
  {
    SortedRowsStrict(ThirteenRows(c, input, allDiscards), c.compareTiles);
    PreorderReflexive(c.compareTiles);
    SortedRowsCover(ThirteenRows(c, input, allDiscards), c.compareTiles);
  }
}
