# Riichi-mahjong trainer: round engine, set-up, hand outcome, notation parser, generator

This project models the core of a single-player riichi-mahjong trainer and
proves properties of it in Dafny. The observed player is "watashi". The other
three seats are played automatically and are named by where they sit relative
to watashi: shimocha (right), toimen (across) and kamicha (left).

- **Turn and call reducer** (`src/lib/store/index.ts`, modules `Store`,
  `Reducer`, `ReducerProperties`, `ClaimProperties`, `DealProperties`,
  `CustomDeal`). The reducer is the pure function `Reducer.Reduce` from a
  snapshot and an action to a new snapshot, with one function per action kind.
  It covers:
  - drawing;
  - the automatic discard of the other seats and the reaction window;
  - chi, pon and the four kan paths, each with its dead-wall bookkeeping;
  - riichi and the restricted riichi discard;
  - the furiten flags;
  - ron and tsumo;
  - the end of a round or of the game;
  - new game, custom new game and new round.

  The imperative helpers keep their loops: `Store.RemovePickedTiles`,
  `Store.CanWatashiChiLoop`, `Reducer.FindFourOfAKind` and the in-place swaps
  of the custom deal (`CustomDeal.SwapInCustomHand`). Conservation is stated
  on `ReducerProperties.Tally`, the bag of every tile the snapshot holds: the
  live wall, the four dead-wall reserves, the four hands with melds and held
  tile, and the four discard piles.
- **Wall and deal initializer** (`src/lib/setup.ts`, module `Setup`).
  - The 136-tile deck with the red fives per suit.
  - The Fisher–Yates shuffle on an `array`.
  - Four walls of 17 two-tile stacks.
  - The dice, and the seven dead-wall stacks taken from the break.
  - Unwinding the remaining stacks into the live wall.
  - Dealing four 13-tile hands.
  - Handing the hands out to the seats.
- **Hand-outcome orchestrator** (`generateResult` in `src/lib/result.ts`,
  module `HandResult`). The shanten, hora, tile-comparison and availability
  functions it calls are fields of the `HandResult.Collaborators` datatype and
  are left uninterpreted.
- **Tile-notation parser** (`parseHandInput` in
  `src/components/CustomHandPopup.tsx`, module `HandParse`).
- **The 32-bit generator** (`src/lib/xorshift128plus.ts`, modules `Xorshift`
  and `Rotation`). It is a class over an `array<bv32>` state that `Next` and
  `SetSeed` overwrite in place.
- **Action routing** of the main layout (`src/components/MahjongLayout.tsx`,
  modules `Layout` and `LayoutProperties`): the Next button, the two tile-click
  handlers and the East marker.
- **Snapshot and input types** (`src/lib/store/state.ts` and
  `src/lib/input.ts`, modules `Store`, `HandInput` and `Tiles`).

Randomness is an oracle. The reducer's `new-game` takes the drawn seat and the
finished round set-up as action parameters. `Setup.InitializeRound` takes the
stream of generator values, each in [0, 1).

## Model

| member | source | states |
|---|---|---|
| Tiles.PickMatchesIsEquality | src/lib/store/index.ts:84-96 | For well-formed tiles, the pick-matching rule (suit and number, with the red flag compared only when both are suited fives) is plain equality |
| Tiles.SortBy | src/lib/store/index.ts:557 | `hand.sort(compareTiles)` yields a permutation of the hand |
| Tiles.SortBySorted | src/lib/store/index.ts:557 | Under a total preorder the sorted hand is ordered by the comparator |
| HandInput.MeldTiles | src/lib/input.ts:4-23 | With every meld well shaped (pon 3 tiles, chii 3 number tiles, kan 4 tiles, discard index inside the meld, or -1 for a pon), the melds hold between 3 and 4 tiles each |
| HandInput.FullHand | src/lib/input.ts:25-30 | The full hand is the hand plus at most one held tile |
| HandInput.InitialHandOptions | src/lib/store/index.ts:185-195 | Riichi is none and every win flag is false |
| Store.InitialTable | src/lib/store/state.ts:149-157 | Round count 1, no continuation, no deposit, no honba, no riichi stick carried |
| Store.InitialState | src/lib/store/state.ts:176-222 | Every wall, reserve, opponent hand and pile is empty; no discard check, selection or riichi offer is pending; every flag is false; hand options are the initial ones; the red allowance is 1 per suit |
| Store.DefaultState | src/lib/store/state.ts:228-233 | A stored snapshot is returned verbatim; without one the initial snapshot is returned |
| Store.NextSeat | src/lib/store/index.ts:16-21 | The next seat is one further in the order watashi, shimocha, toimen, kamicha, cyclically |
| Store.NextSeatCycles | src/lib/store/index.ts:16-21 | Four steps return to the same seat, and no fewer do |
| Store.ValidSequences | src/lib/store/index.ts:29-46 | The filtered runs are exactly the listed runs the hand can complete with the discard |
| Store.CanWatashiChiLoop | src/lib/store/index.ts:23-49 | The early-return loop answers exactly `CanWatashiChi` |
| Store.ChiMeaning | src/lib/store/index.ts:23-49 | Chi is possible if and only if the discard is a number tile and some run a..a+2 (1 ≤ a ≤ 7) through it has its other two numbers in the hand |
| Store.FindPick | src/lib/store/index.ts:84-96 | The first position matching a pick, or -1 when none matches |
| Store.RemovePickedTiles | src/lib/store/index.ts:80-104 | The splice loop equals removing one first match per pick in order; the result is a sub-multiset of the hand, shorter by at most the number of picks |
| Store.RemoveOnePickBag | src/lib/store/index.ts:98-100 | A matched pick removes exactly the matched tile; an unmatched pick changes nothing |
| Store.RemovePickedShrinks | src/lib/store/index.ts:80-104 | The result is a sub-multiset of the hand, and its length is between the hand's length minus the number of picks and the hand's length |
| Store.RemovePickedExact | src/lib/store/index.ts:80-104 | When the picks are a sub-multiset of the hand, exactly the picks are removed |
| Store.CanRonMeaning | src/lib/store/index.ts:106-154 | Ron is possible if and only if no furiten flag is set and the result is a hora with a line on that tile that has a yakuman or a yaku other than dora and red dora |
| Reducer.StartRound | src/lib/store/index.ts:249-339 | A dealt round starts idle in the tenhou phase, with no melds, no held tile, empty piles and every furiten, phase and end flag false; its tiles are the wall, the three reserves and the four hands |
| Reducer.FirstTable | src/lib/store/index.ts:250-258 | The first table is the east round at the drawn seat, round count 1, with nothing carried over |
| Reducer.NextTable | src/lib/store/index.ts:494-555 | The seat advances in the order east, north, west, south; the round count goes up by one; the continuation grows only after a drawn round and the deposit only after riichi, otherwise both reset |
| Reducer.RemoveAt | src/lib/store/index.ts:733-736 | Taking the tile at a position out of the full hand removes exactly that tile |
| Reducer.RevealDora | src/lib/store/index.ts:1283-1287 | The next reserve dora indicator is revealed when one remains, otherwise nothing |
| Reducer.FindPon | src/lib/store/index.ts:1245-1252 | The first pon of the held tile's kind, or -1 when there is none |
| Reducer.FindFourOfAKind | src/lib/store/index.ts:1335-1356 | The counting loop finds four of a kind if and only if some kind occurs four times in the hand |
| Reducer.NoFourFromKeys | src/lib/store/index.ts:1338-1349 | When no counted key reaches four, the hand has no four of a kind |
| Reducer.RiichiDiscards | src/lib/store/index.ts:1614-1625 | At most one tile is offered per discard option |
| Reducer.RonRefusal | src/lib/store/index.ts:1760-1800 | Ron is refused exactly unless a discard is pending in the reaction window and ron is possible on it |
| Reducer.TsumoRefusal | src/lib/store/index.ts:1844-1870 | Tsumo is refused exactly unless it is watashi's turn and a tile is held that has a tsumo hora line |
| ReducerProperties.PilesPush | src/lib/store/index.ts:671-690 | Appending to one seat's pile adds exactly that tile to the piles |
| ReducerProperties.PilesPop | src/lib/store/index.ts:1040-1052 | Taking the last tile of a pile removes exactly that tile from the piles |
| ReducerProperties.DrawTileDraws | src/lib/store/index.ts:616-646 | On watashi's turn, with a non-empty wall and nothing held, the wall's last tile becomes the held tile, the wall loses exactly that tile, and temporary furiten and the discard check are cleared |
| ReducerProperties.DrawTileIdle | src/lib/store/index.ts:616-626 | Otherwise draw-tile changes nothing |
| ReducerProperties.DrawTileKeepsTiles | src/lib/store/index.ts:616-646 | Drawing creates and loses no tile |
| ReducerProperties.StoreWallTileSpec | src/lib/store/index.ts:660-712 | The wall's last tile goes onto the discarding seat's pile; the other piles and watashi's hand stay; in the reaction window the turn stays and the discard is recorded, otherwise the turn passes |
| ReducerProperties.StoreDiscardSpec | src/lib/store/index.ts:648-712 | store-discard changes nothing on watashi's turn; the model also ignores it with an empty wall, where the source reads an undefined tile; otherwise the wall's last tile is discarded and the reaction window opens if and only if a reaction is possible |
| ReducerProperties.RiichiReactsOnlyToRon | src/lib/store/index.ts:23-78 | In riichi the only reaction considered is ron |
| ReducerProperties.StoreDiscardKeepsTiles | src/lib/store/index.ts:648-712 | The automatic discard creates and loses no tile |
| ReducerProperties.DiscardFromHandSpec | src/lib/store/index.ts:715-756 | Discarding position i of the full hand puts that tile on watashi's pile, leaves the rest in the hand with nothing held, passes the turn and clears the discard obligation |
| ReducerProperties.DiscardFromHandKeepsTiles | src/lib/store/index.ts:715-756 | That discard creates and loses no tile |
| ReducerProperties.RemoveHandTileSpec | src/lib/store/index.ts:715-756 | In riichi the hand is locked (only the message changes); otherwise a position of the full hand is discarded; the model ignores a position outside the full hand, where the source discards an undefined tile |
| ReducerProperties.RemoveHandTileKeepsTiles | src/lib/store/index.ts:715-756 | remove-hand-tile creates and loses no tile |
| ReducerProperties.DiscardDrawnTileSpec | src/lib/store/index.ts:757-782 | Without a held tile nothing changes; otherwise the held tile goes onto watashi's pile and the turn passes |
| ReducerProperties.DiscardDrawnTileKeepsTiles | src/lib/store/index.ts:757-782 | discard-drawn-tile creates and loses no tile |
| ReducerProperties.RoundOverSpec | src/lib/store/index.ts:783-822 | Without a result nothing changes; otherwise the round ends, with honba if and only if nobody won by ron or tsumo and the result is not a hora, and the riichi stick carried if and only if watashi is in riichi |
| ReducerProperties.RoundThenNextTable | src/lib/store/index.ts:488-555 | After round-over, the next table's continuation and deposit follow the drawn-round and riichi outcome of the round just ended |
| ReducerProperties.GameOverSpec | src/lib/store/index.ts:823-829 | game-over raises only the game-over flag |
| ReducerProperties.PassDiscardSpec | src/lib/store/index.ts:898-955 | Outside a reaction window nothing changes; otherwise the window closes, the turn passes, riichi furiten rises if and only if it was set or the passed tile won while in riichi, temporary furiten likewise without riichi, and furiten is unchanged |
| ReducerProperties.PassedWinBlocksRon | src/lib/store/index.ts:898-955 | After passing a winning discard, no ron is possible on any tile |
| ReducerProperties.CheckFuritenSpec | src/lib/store/index.ts:1733-1758 | Furiten is set if and only if it was set or a winning tile of the hora result is among watashi's discards |
| ReducerProperties.CheckFuritenFrame | src/lib/store/index.ts:1733-1758 | check-furiten moves no tile and leaves the other furiten flags and the turn alone |
| ReducerProperties.OwnDiscardBlocksRon | src/lib/store/index.ts:1733-1758 | Once a winning tile is among watashi's discards, no ron is possible |
| ReducerProperties.RiichiDiscardsMeaning | src/lib/store/index.ts:1614-1625 | A tile is offered for riichi if and only if discarding it leads to a hora result |
| ReducerProperties.CallRiichiRefused | src/lib/store/index.ts:1589-1612 | Unless it is watashi's turn, a tile is held, the wall has at least five tiles, riichi is none, no selection is open, every meld is a closed kan and the result is discard-shanten, an error is shown and selection, offers, hand options and tiles stay |
| ReducerProperties.CallRiichiWithoutWait | src/lib/store/index.ts:1626-1633 | With no discard leading to hora, no selection opens and an error is shown |
| ReducerProperties.CallRiichiOffers | src/lib/store/index.ts:1634-1643 | Otherwise exactly the discards leading to hora are offered, and a discard becomes due |
| ReducerProperties.CallRiichiKeepsTiles | src/lib/store/index.ts:1589-1644 | call-riichi moves no tile |
| ReducerProperties.DeclareRiichiSpec | src/lib/store/index.ts:1680-1731 | The approved tile is discarded; double riichi if and only if watashi had not discarded before; ippatsu starts; the riichi discard index is the old discard count; the turn passes |
| ReducerProperties.DeclareRiichiKeepsTiles | src/lib/store/index.ts:1680-1731 | Declaring riichi creates and loses no tile |
| ReducerProperties.SelectRiichiTileDeclares | src/lib/store/index.ts:1645-1731 | An approved tile declares riichi |
| ReducerProperties.SelectRiichiTileIgnored | src/lib/store/index.ts:1645-1660 | Without a selection, or with an index outside the full hand, an error is shown and selection, riichi, turn and tiles stay |
| ReducerProperties.SelectRiichiTileUnoffered | src/lib/store/index.ts:1661-1679 | An unapproved tile closes the selection and leaves hand and riichi level unchanged |
| ReducerProperties.RiichiDiscardWaits | src/lib/store/index.ts:1614-1679 | Every approved riichi discard leads to hora |
| ReducerProperties.RiichiLocksHand | src/lib/store/index.ts:715-725 | After riichi, remove-hand-tile no longer changes the hand, the piles or the turn |
| ReducerProperties.StoreWallTilePending | src/lib/store/index.ts:660-712 | After an automatic discard, the discard check's tile is the last tile of the discarder's pile |
| ReducerProperties.CallRonWins | src/lib/store/index.ts:1760-1843 | A pending winning discard wins by ron |
| ReducerProperties.CallRonRefused | src/lib/store/index.ts:1760-1800 | Otherwise an error is shown and no tile, end flag, hand option or reaction window changes |
| ReducerProperties.RonRefusalOrder | src/lib/store/index.ts:1770-1800 | Riichi furiten is reported first, then temporary furiten, then furiten from own discards |
| ReducerProperties.WinByRonSpec | src/lib/store/index.ts:1801-1843 | The discard joins the hand and leaves the discarder's pile; the game ends if and only if the round count is 4, otherwise the round ends |
| ReducerProperties.WinByRonKeepsTiles | src/lib/store/index.ts:1801-1843 | A ron creates and loses no tile |
| ReducerProperties.CallTsumoWins | src/lib/store/index.ts:1844-1899 | A held tile with a tsumo hora line wins by tsumo on watashi's turn |
| ReducerProperties.CallTsumoRefused | src/lib/store/index.ts:1844-1870 | Otherwise an error is shown and no tile, end flag, hand option or turn changes |
| ReducerProperties.WinByTsumoSpec | src/lib/store/index.ts:1871-1899 | The held tile joins the hand; the game ends if and only if the round count is 4, otherwise the round ends; the tenhou flag records the tenhou phase |
| ReducerProperties.WinByTsumoKeepsTiles | src/lib/store/index.ts:1871-1899 | A tsumo creates and loses no tile |
| ReducerProperties.ClearErrorMessageSpec | src/lib/store/index.ts:1900-1911 | All six messages are cleared and no selection, turn or tile changes |
| ReducerProperties.EscapeRiichiSelection | src/lib/store/index.ts:1915-1924 | An open riichi selection is closed and the discard obligation dropped |
| ReducerProperties.EscapeClaimSelection | src/lib/store/index.ts:1926-1941 | Otherwise an open chi, pon or kan selection is closed and the turn passes |
| ReducerProperties.EscapeNothingOpen | src/lib/store/index.ts:1943-1945 | With nothing open, escape changes nothing |
| ReducerProperties.EscapeKeepsTiles | src/lib/store/index.ts:1912-1946 | Escape moves no tile |
| ClaimProperties.TakePicks | src/lib/store/index.ts:80-104 | Picks taken from distinct hand positions are removed exactly |
| ClaimProperties.CallChiOpens | src/lib/store/index.ts:836-897 | When a kamicha discard can complete a run outside riichi, chi opens a selection offering exactly the listed runs through the discard that the hand can complete, and moves no tile |
| ClaimProperties.CallChiInRiichi | src/lib/store/index.ts:836-897 | In riichi the hand is locked and no selection opens |
| ClaimProperties.CallChiWithoutRun | src/lib/store/index.ts:836-897 | Without a completable run, an error is shown and no selection opens |
| ClaimProperties.SelectChiTileIgnored | src/lib/store/index.ts:957-981 | No open selection, no discard tile or a repeated index changes nothing; the model also ignores a pick outside the hand, which the source records as an undefined pick |
| ClaimProperties.SelectChiTileRecords | src/lib/store/index.ts:976-990 | The first pick is recorded |
| ClaimProperties.SelectChiTileRejects | src/lib/store/index.ts:991-1010 | A second pick that does not make a valid run closes the selection and the reaction window with an error, moving no tile |
| ClaimProperties.SelectChiTileForms | src/lib/store/index.ts:1011-1055 | A valid second pick removes the two picks from the hand and the discard from kamicha's pile, adds one chii of those three tiles (discard first), and makes watashi discard next |
| ClaimProperties.SelectChiTileKeepsTiles | src/lib/store/index.ts:1011-1055 | Completing a chi creates and loses no tile |
| ClaimProperties.ChiIsRun | src/lib/store/index.ts:991-1010 | An accepted chii is three tiles of the discard's suit whose numbers form a run through the discard |
| ClaimProperties.CallPonOpens | src/lib/store/index.ts:1058-1107 | Pon on a discard the hand holds two of opens a selection for that discard |
| ClaimProperties.CallPonInRiichi | src/lib/store/index.ts:1058-1107 | In riichi the hand is locked and no selection opens |
| ClaimProperties.CallPonIgnored | src/lib/store/index.ts:1058-1075 | Without a pending discard, or with fewer than two copies, nothing changes |
| ClaimProperties.SelectPonTileIgnored | src/lib/store/index.ts:1108-1125 | A pick outside the hand, a repeated index or no open selection changes nothing |
| ClaimProperties.SelectPonTileRecords | src/lib/store/index.ts:1126-1140 | The first pick is recorded |
| ClaimProperties.SelectPonTileRejects | src/lib/store/index.ts:1141-1160 | Picks not of the discard's kind close the selection and the window with an error, moving no tile |
| ClaimProperties.SelectPonTileForms | src/lib/store/index.ts:1161-1228 | A valid pon adds one 3-tile pon of the discard's kind ending with the discard, its discard index set by the discarder's seat; the discard leaves its pile and watashi must discard next |
| ClaimProperties.SelectPonTileKeepsTiles | src/lib/store/index.ts:1161-1228 | Completing a pon creates and loses no tile |
| ClaimProperties.KanDrawSpec | src/lib/store/index.ts:1273-1307 | A kan draws the first kan replacement, moves the front tile of the wall to the end of the haitei reserve and reveals the next dora indicator when one remains |
| ClaimProperties.KanDrawMoves | src/lib/store/index.ts:1273-1307 | The kan draw loses exactly the previously held tile, if any, and nothing else |
| ClaimProperties.UpgradePonSpec | src/lib/store/index.ts:1245-1307 | A held tile of a pon's kind turns that pon into an open shouminkan (keeping its rotation) at the end of the melds; the round ends if and only if five dora indicators show |
| ClaimProperties.UpgradePonKeepsTiles | src/lib/store/index.ts:1245-1307 | The shouminkan creates and loses no tile |
| ClaimProperties.CallKanDrawnUpgrades | src/lib/store/index.ts:1234-1307 | On watashi's turn the first upgradable pon is upgraded |
| ClaimProperties.CallKanDrawnOffersHeld | src/lib/store/index.ts:1309-1333 | Otherwise, with three of the held tile's kind in hand, a kan selection on the held tile opens |
| ClaimProperties.CallKanDrawnOffersConcealed | src/lib/store/index.ts:1335-1364 | Otherwise a concealed kan selection opens if and only if the hand has four of a kind |
| ClaimProperties.CallKanDrawnNotYourTurn | src/lib/store/index.ts:1234-1240 | Off watashi's turn nothing changes |
| ClaimProperties.CallKanDiscardOpens | src/lib/store/index.ts:1365-1406 | A discard the hand holds three of opens a kan selection from its discarder |
| ClaimProperties.CallKanDiscardInRiichi | src/lib/store/index.ts:1365-1406 | In riichi the hand is locked |
| ClaimProperties.CallKanDiscardIgnored | src/lib/store/index.ts:1365-1380 | Without a pending discard or three copies, nothing changes |
| ClaimProperties.SelectKanTileIgnored | src/lib/store/index.ts:1407-1425 | No open selection or a repeated index changes nothing; the model also ignores a pick outside the hand, which the source records as an undefined pick |
| ClaimProperties.SelectKanTileRecords | src/lib/store/index.ts:1426-1440 | Picks short of the required number are recorded |
| ClaimProperties.SelectKanTileRejects | src/lib/store/index.ts:1441-1465 | Four tiles not all of one kind close the selection with an error, moving no tile |
| ClaimProperties.SelectKanTileForms | src/lib/store/index.ts:1466-1583 | Four tiles of one kind form the kan |
| ClaimProperties.FormKanMeld | src/lib/store/index.ts:1466-1540 | The kan adds one 4-tile meld, closed if and only if it came from no discard, and removes the picks from the hand |
| ClaimProperties.FormKanDraw | src/lib/store/index.ts:1543-1583 | The kan draws the first kan replacement, starts the rinshan phase, ends ippatsu, and leaves the round over exactly when it already was or five dora indicators show |
| ClaimProperties.FormKanOpenKeeps | src/lib/store/index.ts:1466-1583 | A kan on a discard creates and loses no tile |
| ClaimProperties.FormKanBareKeeps | src/lib/store/index.ts:1466-1583 | A concealed kan made with nothing held creates and loses no tile |
| ClaimProperties.FormKanUsesHeld | src/lib/store/index.ts:1309-1333 | A kan on the held tile creates and loses no tile |
| ClaimProperties.FormKanLosesHeld | src/lib/store/index.ts:1478-1481 | A concealed kan made while a tile is held loses exactly that tile |
| ClaimProperties.FormKanKeepingHeldKeepsTiles | src/lib/store/index.ts:1466-1583 | The corrected kan keeps every tile on every path |
| ClaimProperties.FormKanKeepingHeldHand | src/lib/store/index.ts:1559 | The corrected kan returns the unused held tile to the hand |
| ClaimProperties.SelectKanTileFixedAgrees | src/lib/store/index.ts:1407-1583 | The corrected select-kan-tile agrees with the original on every path except a concealed kan with a tile held |
| DealProperties.NewGameTiles | src/lib/store/index.ts:212-341 | new-game deals exactly the set-up's tiles at the first table of the drawn seat |
| DealProperties.NewGameSeats | src/lib/store/index.ts:235-247 | new-game gives the first turn to the seat the layout marks East, who holds the east hand |
| DealProperties.NewRoundTiles | src/lib/store/index.ts:488-615 | new-round deals exactly the set-up's tiles at the next table |
| DealProperties.NewRoundSeats | src/lib/store/index.ts:494-523 | new-round gives the first turn to the holder of the east hand, whom the layout marks East if and only if the new seat is east or west |
| DealProperties.NewRoundFromWest | src/lib/store/index.ts:494-523 | After a round in the west seat, shimocha moves first while kamicha carries the East marker |
| DealProperties.NewRoundFixedTiles | src/lib/store/index.ts:488-615 | The corrected new-round deals the same tiles at the same table |
| DealProperties.NewRoundFixedSeats | src/lib/store/index.ts:494-523 | The corrected new-round always gives the first turn and the east hand to the East-marked seat |
| DealProperties.CustomNewGameKeepsTiles | src/lib/store/index.ts:342-487 | The custom deal only moves tiles: the snapshot holds exactly the set-up's tiles |
| DealProperties.CustomNewGameFixedDelivers | src/lib/store/index.ts:387-415 | When the requested hand is available among the dealt tiles, the corrected custom deal hands watashi exactly that hand, sorted |
| CustomDeal.FindMatch | src/lib/store/index.ts:403-405 | The first position matching the requested tile, or -1 |
| CustomDeal.SwapInCustomHand | src/lib/store/index.ts:387-415 | The in-place swap loops equal the trade-by-position function and keep every list's length |
| CustomDeal.TradeFirstMatch | src/lib/store/index.ts:400-414 | One position trades with the first match in the searched lists, in list order |
| CustomDeal.SwappedKeepsTiles | src/lib/store/index.ts:387-415 | The trades only exchange tiles |
| CustomDeal.SwapMissesTilesInHand | src/lib/store/index.ts:400-402 | Hand [1m, 2m], lists [3m] and request [2m, 3m] end with the hand [1m, 3m], although the request was available |
| CustomDeal.SwappedFixedDelivers | src/lib/store/index.ts:387-415 | The corrected trades always deliver the request when it is available among all the tiles |
| Setup.Deck | src/lib/setup.ts:53-69 | The deck has 136 tiles |
| Setup.DeckCounts | src/lib/setup.ts:53-69 | Four copies of each of the 34 kinds and nothing else; the red fives of a number suit are its allowance clamped to 0..4 |
| Setup.DeckWellFormed | src/lib/setup.ts:53-69 | Only suited fives are red |
| Setup.ScaledFloor | src/lib/setup.ts:28 | The scaled index of a value in [0, 1) is below the bound |
| Setup.FisherYatesPermutes | src/lib/setup.ts:24-31 | The swaps keep length and multiset |
| Setup.Shuffle | src/lib/setup.ts:24-31 | The copy is shuffled in place from the last position down; the result is a fresh array with the same multiset, and the argument is untouched |
| Setup.CutStacks | src/lib/setup.ts:72-80 | A 34-tile section becomes 17 two-tile stacks in order |
| Setup.SplitWalls | src/lib/setup.ts:72-80 | Four walls of 17 stacks whose tiles, wall by wall, are the shuffled deck |
| Setup.Die | src/lib/setup.ts:82-83 | Each die is in 1..6 |
| Setup.StartingWallIndex | src/lib/setup.ts:85-88 | The dice count reaches wall (sum - 1) mod 4 |
| Setup.CollectDeadWall | src/lib/setup.ts:93-125 | Exactly seven stacks are lifted, counted on from the break; 61 stacks remain; the cut is 10 for a break up to 10 and 27 minus the break otherwise; no tile is lost |
| Setup.SplitDeadWall | src/lib/setup.ts:127-154 | Four kan tiles, five dora and five ura-dora |
| Setup.SplitDeadWallPermutes | src/lib/setup.ts:127-154 | The reserves hold exactly the dead wall's 14 tiles |
| Setup.SeekNonEmpty | src/lib/setup.ts:160-175 | Walking back from a wall reaches a non-empty wall, and stays put when the wall is non-empty |
| Setup.TakeStack | src/lib/setup.ts:176-195 | One stack moves to the front of the wall as upper tile after lower tile |
| Setup.Unwind | src/lib/setup.ts:157-199 | The loop ends and the wall holds exactly the tiles of every remaining stack |
| Setup.DealtHand | src/lib/setup.ts:201-224 | Each hand gets 13 tiles |
| Setup.Deal | src/lib/setup.ts:201-224 | Each hand is the dealt hand of its seat (three blocks of four, then one tile), the wall keeps the tiles after the first 52, and hands plus wall are the old wall |
| Setup.DealPermutes | src/lib/setup.ts:201-224 | The deal hands out exactly the first 52 tiles |
| Setup.ShuffledWalls | src/lib/setup.ts:48-80 | The walls hold the Fisher–Yates shuffle of the deck under the oracle's swap indices |
| Setup.LiftDeadWall | src/lib/setup.ts:82-154 | The reserves are 4+5+5 tiles; the cut is 10 for a dice sum of 7 or more and 10 plus the sum otherwise; nothing is lost |
| Setup.InitializeRound | src/lib/setup.ts:39-245 | The dice come from the two values after the shuffle and set the cut; 70 live tiles, 4+5+5 reserves with the first dora shown, and four hands of 13; everything together is the deck (136 tiles) |
| Setup.RoundFromWalls | src/lib/setup.ts:82-245 | For given dice, the set-up after the shuffle has the same shape and keeps every tile |
| Setup.IndexOf | src/lib/setup.ts:269 | `indexOf` returns the first position of the wind, or -1 |
| Setup.AssignHandsAndCurrentTurn | src/lib/setup.ts:256-299 | Position i of watashi's wind gives hands[i] to watashi, hands[i+1 mod 4] to shimocha, then toimen and kamicha; the turn goes to the seat 4 - i steps round |
| Setup.AssignmentRotates | src/lib/setup.ts:290-296 | The handed-out hands are the rotation of the list to watashi's position |
| Setup.AssignmentKeepsHands | src/lib/setup.ts:278-296 | The seat with the turn holds the east hand, and the four outputs are a permutation of the inputs |
| HandResult.UniqueSortedCovers | src/lib/result.ts:178-182 | De-duplication keeps a representative of every entry |
| HandResult.UniqueSortedStrict | src/lib/result.ts:178-182 | De-duplicating a sorted list leaves it strictly sorted |
| HandResult.MinsByKeepsTies | src/lib/result.ts:315-317 | The kept candidates are exactly those at the minimum score, and there is at least one |
| HandResult.MinScore | src/lib/result.ts:60-65 | The minimum score is attained by a candidate and is at most every candidate's score |
| HandResult.AvailabilityRowsShape | src/lib/result.ts:96-114 | A suited five gives a non-red row and a red row, each kept if and only if its count is known; any other tile gives exactly one row |
| HandResult.GenerateResult | src/lib/result.ts:73-442 | No result exactly when the combined length is a multiple of 3 or above 18; a length of 1 mod 3 gives hora-shanten or tempai; a length of 2 mod 3 gives a hora, just-hora or discard-shanten |
| HandResult.SettledResultMeaning | src/lib/result.ts:122-243 | Tempai if and only if the hand is neither 13 tiles nor 13 counting melds and the regular count is 0; a hora needs a zero count (chitoitsu or kokushi also count at 13 tiles); a shanten result is non-zero |
| HandResult.ThirteenTileResult | src/lib/result.ts:129-185 | With 13 tiles: hora if and only if one of the regular, chitoitsu or kokushi counts is 0; otherwise the shanten is their minimum and the availability list is strictly sorted, drawn from the rows and covers them |
| HandResult.ShortCircuitMeaning | src/lib/result.ts:265-290 | The baseline's hora lines on the last tile are returned when there are any; otherwise just-hora when the baseline waits on it; otherwise no short-circuit |
| HandResult.CandidatesWithoutDrawnCover | src/lib/result.ts:292-304 | Without a held tile, every candidate is a hand tile before the last and not level with it, and every such hand tile is level with a candidate |
| HandResult.CandidatesWithDrawnCover | src/lib/result.ts:392-404 | With a held tile, every candidate is a hand tile and every hand tile is level with a candidate |
| HandResult.CandidatesWithoutDrawnDistinct | src/lib/result.ts:292-295 | On a sorted hand the candidates without a held tile are strictly ascending, so each kind is evaluated once |
| HandResult.CandidatesWithDrawnDistinct | src/lib/result.ts:396-399 | On a sorted hand the candidates with a held tile are strictly ascending, so each kind is evaluated once |
| HandResult.WithoutDrawnResultBest | src/lib/result.ts:251-324 | Without a held tile, the result is the short-circuit when it applies, otherwise discard-shanten with exactly the candidates tied at the minimum score |
| HandResult.WithDrawnResultBest | src/lib/result.ts:326-440 | With a held tile, likewise |
| HandResult.RemoveFirstMatchRemovesOne | src/lib/result.ts:404-412 | Exactly one copy of the first matching tile is removed; when nothing matches, the last tile is dropped |
| HandParse.GroupTiles | src/components/CustomHandPopup.tsx:41-55 | A suit letter emits one tile per buffered digit, in order |
| HandParse.ScanTiles | src/components/CustomHandPopup.tsx:33-56 | The character loop with its digit buffer computes the scan |
| HandParse.ScanWellFormed | src/components/CustomHandPopup.tsx:48-52 | Every scanned tile is well formed (only suited fives are red) and its number is a single digit, with no range check on it |
| HandParse.LeftoverDigitsDropped | src/components/CustomHandPopup.tsx:33-56 | Digits left in the buffer at the end emit nothing |
| HandParse.ScanIgnoresOthers | src/components/CustomHandPopup.tsx:33-56 | Characters other than digits and m, p, s, z are ignored |
| HandParse.ScanPrint | src/components/CustomHandPopup.tsx:33-56 | Printing tiles in notation and scanning the text gives back the tiles |
| HandParse.CountTiles | src/components/CustomHandPopup.tsx:68-85 | The counting loop builds the per-kind and per-suit red tables, kinds in first-seen order |
| HandParse.ParseHandInput | src/components/CustomHandPopup.tsx:28-96 | The imperative parser returns the specification's result |
| HandParse.ParseSucceeds | src/components/CustomHandPopup.tsx:59-95 | Success if and only if the count is 13 (or preview), no kind has more than 4 tiles with red and plain fives together, and no suit has more red fives than allowed; the tiles come back in input order |
| HandParse.ParseErrors | src/components/CustomHandPopup.tsx:59-93 | Fewer than 13 gives "Need 13", more gives "Too many tiles"; a copies error names the first overfull kind in first-seen order; a red error names an over-allowance suit |
| HandParse.PreviewSkipsCount | src/components/CustomHandPopup.tsx:59-66 | Preview skips only the count check |
| Rotation.RotlInverse | src/lib/xorshift128plus.ts:33-35 | Rotating left by k and then by 32 - k gives back the word |
| Xorshift.Xoshiro128Plus.constructor | src/lib/xorshift128plus.ts:4-10 | A four-word seed is copied into a fresh state; otherwise the state comes from the entropy |
| Xorshift.Xoshiro128Plus.GetSeed | src/lib/xorshift128plus.ts:20-22 | A fresh copy equal to the state |
| Xorshift.Xoshiro128Plus.SetSeed | src/lib/xorshift128plus.ts:25-30 | Fails exactly when the seed is not four words, leaving the state; otherwise the state becomes the seed |
| Xorshift.Xoshiro128Plus.Next | src/lib/xorshift128plus.ts:38-53 | The output is word 0 plus word 3 of the old state, mod 2^32, and the state becomes the xor-shift-rotate update of the old state |
| Xorshift.Draw | src/lib/xorshift128plus.ts:38-53 | n calls give the first n outputs of the state sequence |
| Xorshift.SameSeedSameOutputs | src/lib/xorshift128plus.ts:56-66 | Two generators built from the same seed give the same outputs, even when the seed array is changed afterwards |
| Layout.OneEast | src/components/MahjongLayout.tsx:184-196 | Exactly one seat is marked East for any table seat |
| Layout.ObservedEast | src/components/MahjongLayout.tsx:184-196 | Watashi is marked East if and only if the table seat is east |
| Layout.NextButton | src/components/MahjongLayout.tsx:1017-1058 | Nothing is sent exactly when the game is over |
| Layout.NextPress | src/components/MahjongLayout.tsx:1229-1235 | The Next button does nothing while a discard is due |
| Layout.DrawnTileClick | src/components/MahjongLayout.tsx:438-457 | Nothing is sent exactly when no tile is held |
| LayoutProperties.NextStartsRound | src/components/MahjongLayout.tsx:1024-1027 | After a round, Next starts the next round at the next table with all the set-up's tiles |
| LayoutProperties.NextDraws | src/components/MahjongLayout.tsx:1044-1052 | A Next draw moves the last wall tile to the held slot and keeps every tile |
| LayoutProperties.NextHeldIgnored | src/components/MahjongLayout.tsx:1044-1052 | On watashi's turn with a tile held, Next asks for a draw that the reducer ignores |
| LayoutProperties.NextStoreDiscards | src/components/MahjongLayout.tsx:1053-1058 | Otherwise Next moves the last wall tile onto the moving seat's pile and keeps every tile |
| LayoutProperties.NextStoreDiscardEmptyWall | src/components/MahjongLayout.tsx:1030-1058 | With an empty wall and a tile held, Next still asks another seat to discard; the model's reducer ignores that request, where the source reads an undefined tile |
| LayoutProperties.RiichiClicksCoverFullHand | src/components/MahjongLayout.tsx:397-457 | In the riichi flow, hand clicks and the held-tile click select every position of the full hand |
| LayoutProperties.TileClickDiscards | src/components/MahjongLayout.tsx:397-436 | Outside selections and riichi, a hand click with a tile held discards that position |
| LayoutProperties.DrawnTileClickDiscards | src/components/MahjongLayout.tsx:438-457 | Outside the riichi flow, clicking the held tile discards it |

## Left out

- Persistence: the `localStorage` write in the exported reducer and the read in `defaultState` are I/O. The stored snapshot is an optional input of `Store.DefaultState`.
- Logging: every `console.log`/`console.error`, including the 136-tile check in the set-up. `Setup.InitializeRound` proves the total instead.
- Randomness and seeding are parameters:
  - `seedrandom` and the `Date.now()` seed become the oracle stream `rs` of `Setup.InitializeRound`.
  - The drawn seat of `new-game` is an action parameter.
  - The seed string is carried but never interpreted.
- `Xoshiro128Plus.seedFromCrypto` becomes the `entropy` argument of the constructor. The example run at the end of the file is not modelled. The float scaling of `next()` is left out: `Next` returns the 32-bit word.
- `log-shanten` and the shanten history compute float averages for display. The model's `LogShanten` case returns the snapshot unchanged.
- Modules not part of this model: `./hora`, `./tile/shanten`, `./tile`, `./util` and `./rule`.
  - The functions of `./hora`, `./tile/shanten` and `./tile` are the fields of `HandResult.Collaborators`, or comparator parameters, and are left uninterpreted. The orchestrator assumes only what it uses: reflexivity or a total preorder of the comparator.
  - The three helpers of `./util` are given concrete definitions, on assumed semantics:
    - `uniqueSorted(xs, eq)` (`HandResult.UniqueSorted`) keeps an element unless it is equal to the element kept just before it, so it removes only consecutive duplicates.
    - `minsBy(xs, f)` (`HandResult.MinsBy`) returns the minimum score and every element at that score, in input order.
    - `countBy(xs, p)` (`HandResult.NonEmptyMelds`) counts the elements satisfying `p`.
  - `HandResult.UniqueSortedCovers`, `HandResult.UniqueSortedStrict`, `HandResult.MinsByKeepsTies`, `HandResult.WithDrawnResultBest` and `HandResult.WithoutDrawnResultBest` hold for these definitions.
- Rendering, layout measurement, timers, keyboard listeners and every component other than the four routing functions. `PlayerHand.tsx` is an unused copy of the routing.
- The React state, hotkeys and dispatch of `CustomHandPopup.tsx`. Only `parseHandInput` is modelled; its `setErrorMessage` call becomes the `ParseError` failure.
- The actions `set-agari-flag` and `reset-agari-flag` are not in `Reducer.Action`. In the source they fall to the reducer's default case, which returns the snapshot unchanged.
- Screen, settings, app-config and saved-rule fields of the snapshot are not modelled. Only `set-current-rule`'s red-five allowance is.
- Furiten monotonicity: that `furiten` and `riichiFuriten` are cleared only by `new-game`, `custom-new-game` and `new-round` is not proved as one lemma over all cases.
  - `ReducerProperties.PassDiscardSpec` and `ReducerProperties.CheckFuritenSpec` prove it for the two cases that raise the flags.
  - `Reducer.StartRound` proves the reset for the three dealing cases.
  - The frame lemmas of the other cases state which fields they keep.
- ReducerProperties.StoreDiscardSpec: the reaction predicate `CanReact` is stated with the same structure as the source. Its chi part asks `CanWatashiChi`, which `Store.ChiMeaning` characterises.
- Reducer.RiichiDiscards: the contract bounds the offered list. Its meaning, that exactly the discards leading to hora are offered, is `ReducerProperties.RiichiDiscardsMeaning`.
- HandResult.GenerateResult: the tie-keeping is stated in `HandResult.WithDrawnResultBest` and `HandResult.WithoutDrawnResultBest`, not in its own contract.
- Out-of-range reads: the model ignores an action whose index or tile read would be `undefined` in the source. Only `select-pon-tile` and `select-riichi-tile` guard their index in the source; the other cases are listed below by member.
- RemoveHandTileSpec (`ReducerProperties.RemoveHandTileSpec`): for a position outside the full hand the model changes nothing. The source (index.ts:726-754) appends `undefined` to watashi's discards, sorts the held tile into the hand and passes the turn.
- SelectChiTileIgnored (`ClaimProperties.SelectChiTileIgnored`): for a pick outside the hand the model changes nothing. The source (index.ts:975-984) records an `undefined` pick.
- SelectKanTileIgnored (`ClaimProperties.SelectKanTileIgnored`): for a pick outside the hand the model changes nothing. The source (index.ts:1419-1427) records an `undefined` pick.
- StoreDiscardSpec (`ReducerProperties.StoreDiscardSpec`): with an empty wall the model changes nothing. The source (index.ts:652-684) has no wall check and reads an `undefined` tile. Outside riichi, `canWatashiPon` then fails with a TypeError; in riichi without a win it appends `undefined` to the pile and passes the turn.
- NextStoreDiscardEmptyWall (`LayoutProperties.NextStoreDiscardEmptyWall`): the Next button does send `store-discard` with an empty wall, a tile held and another seat to move (MahjongLayout.tsx:1030-1058). The lemma states that the model's reducer ignores it, which the source's reducer does not (see StoreDiscardSpec above).
- KanDraw (`Reducer.KanDraw`): with an empty wall the model moves no tile to the haitei reserve, and with no kan reserve left it holds no tile. The source (index.ts:1278-1280, 1544-1550) pushes `undefined` into `wanpaiHaitei` in the first case and holds `undefined` in the second. Its dora reveal is guarded in the source as in the model.
- CandidatesWithoutDrawnDistinct, CandidatesWithDrawnDistinct: each kind is evaluated once only on a sorted hand, because `uniqueSorted` removes only consecutive duplicates. The store keeps watashi's hand sorted by `compareTiles` (index.ts:263, 432, 557, 736, 1695); that invariant is not proved across all reducer cases.
- SwapStep (`CustomDeal.SwapStep`): a custom-hand position beyond watashi's 13 dealt tiles is skipped by the model. The source (index.ts:376-377, 390-394) calls `tilesMatch(watashi[i], customTile)` with `watashi[i]` undefined, so reading `a.type` throws a TypeError and a custom hand of more than 13 tiles aborts `custom-new-game`. `Reducer.OnCustomNewGame` puts no bound on the custom hand's length; the popup's `parseHandInput` outside preview only lets exactly 13 tiles through.
- Setup.Unwind: the wall is proved to hold exactly the remaining stacks' tiles, 122 of them. The exact order of the unwound wall is stated one stack at a time (`Setup.TakeStack`), not as a closed form.

## Findings

| source | as written | input that shows it | evidently intended | confidence | as-written member | corrected member |
|---|---|---|---|---|---|---|
| src/lib/store/index.ts:400-414 | the custom deal trades each requested tile only with the wall, reserves and opponent hands, never with a later position of watashi's own hand | hand [1m, 2m], other tiles [3m], request [2m, 3m] ends with hand [1m, 3m] | watashi ends with exactly the requested hand whenever its tiles are dealt somewhere | not executed | CustomDeal.SwapMissesTilesInHand | CustomDeal.SwappedFixedDelivers |
| src/lib/store/index.ts:1478-1481, 1559 | a concealed kan made while a tile is held sets the kan replacement as the held tile, overwriting the old one | concealed kan of four 1m while holding 9p: the 9p leaves the game and 135 tiles remain | the unused held tile returns to the hand, keeping all 136 tiles | not executed | ClaimProperties.FormKanLosesHeld | ClaimProperties.FormKanKeepingHeldKeepsTiles |
| src/lib/store/index.ts:494-523 | new-round hands out the seats with the order east, north, west, south, while the East marker counts east, south, west, north | after a round in the west seat (next seat south), shimocha moves first with the east hand but kamicha is marked East | the first turn and the east hand go to the seat marked East | not executed | DealProperties.NewRoundFromWest | DealProperties.NewRoundFixedSeats |
