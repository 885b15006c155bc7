/**
 * The custom-hand notation parser `parseHandInput` of
 * `src/components/CustomHandPopup.tsx`.
 *
 * Digits accumulate in a buffer; a suit letter `m`, `p`, `s` or `z` turns
 * every buffered digit into one tile of that suit, in order, and empties the
 * buffer (`0` before `m`/`p`/`s` is a red five). Other characters are
 * skipped. The parsed hand is then checked: exactly 13 tiles (outside
 * preview), at most 4 tiles of a kind, at most the rule's red fives per
 * suit. The error message the component displays becomes the error value.
 */
module HandParse {
  import opened Wrappers
  import opened Tiles
  import opened HandInput

  // ---------------------------------------------------------------------
  // Notation
  // ---------------------------------------------------------------------

  predicate IsDigit(c: char) { '0' <= c <= '9' }

  predicate AllDigits(s: string) { forall i :: 0 <= i < |s| ==> IsDigit(s[i]) }

  /** The suit a letter names (`/[mpsz]/`). */
  function SuitLetter(c: char): Option<Suit>
  {
    if c == 'm' then Some(M)
    else if c == 'p' then Some(P)
    else if c == 's' then Some(S)
    else if c == 'z' then Some(Z)
    else None
  }

  function LetterOf(suit: Suit): char
  {
    match suit
    case M => 'm'
    case P => 'p'
    case S => 's'
    case Z => 'z'
  }

  /** The tile one buffered digit becomes: `0` of a number suit is its red five; any other digit is taken as is. */
  function DigitTile(d: char, suit: Suit): Tile
    requires IsDigit(d)
  {
    if d == '0' && suit != Z then Tile(suit, 5, true) else Tile(suit, d as int - '0' as int, false)
  }

  /** The tiles a suit letter emits: one per buffered digit, in order. */
  function GroupTiles(digits: string, suit: Suit): (ts: seq<Tile>)
    requires AllDigits(digits)
    ensures |ts| == |digits|
    ensures forall i :: 0 <= i < |ts| ==> ts[i] == DigitTile(digits[i], suit)
  {
    if digits == [] then []
    else GroupTiles(digits[..|digits| - 1], suit) + [DigitTile(digits[|digits| - 1], suit)]
  }

  /** The state of the scan after a prefix of the input: the tiles emitted and the digits still buffered. */
  function Scan(s: string): (r: (seq<Tile>, string))
    ensures AllDigits(r.1)
  {
    if s == [] then ([], [])
    else
      var (hand, digits) := Scan(s[..|s| - 1]);
      var c := s[|s| - 1];
      if IsDigit(c) then (hand, digits + [c])
      else if SuitLetter(c).Some? then (hand + GroupTiles(digits, SuitLetter(c).value), [])
      else (hand, digits)
  }

  /** The tile-producing characters of `s`: digits and suit letters, in order. */
  function Notation(s: string): (r: string)
    ensures |r| <= |s|
  {
    if s == [] then []
    else
      var c := s[|s| - 1];
      Notation(s[..|s| - 1]) + (if IsDigit(c) || SuitLetter(c).Some? then [c] else [])
  }

  function DigitCount(s: string): nat
  {
    if s == [] then 0 else DigitCount(s[..|s| - 1]) + (if IsDigit(s[|s| - 1]) then 1 else 0)
  }

  // ---------------------------------------------------------------------
  // Checks
  // ---------------------------------------------------------------------

  /** A `tileCounts` key: type and number, red flag ignored. */
  type Kind = (Suit, int)

  function KindOf(t: Tile): Kind { (t.suit, t.n) }

  /** The keys of `tileCounts` in insertion order: each kind once, at its first occurrence. */
  function Kinds(hand: seq<Tile>): (ks: seq<Kind>)
    ensures forall k :: k in ks <==> KindCount(hand, k.0, k.1) > 0
  {
    if hand == [] then []
    else
      var ks := Kinds(hand[..|hand| - 1]);
      var k := KindOf(hand[|hand| - 1]);
      if k in ks then ks else ks + [k]
  }

  /** The first key (in `ks` order) with more than 4 tiles. */
  function FirstOverfull(ks: seq<Kind>, hand: seq<Tile>): (r: Option<Kind>)
    ensures r.None? <==> forall k :: k in ks ==> KindCount(hand, k.0, k.1) <= 4
    ensures r.Some? ==> exists j :: 0 <= j < |ks| && ks[j] == r.value && KindCount(hand, r.value.0, r.value.1) > 4
                                    && forall i :: 0 <= i < j ==> KindCount(hand, ks[i].0, ks[i].1) <= 4
  {
    if ks == [] then None
    else if KindCount(hand, ks[0].0, ks[0].1) > 4 then Some(ks[0])
    else
      var r := FirstOverfull(ks[1..], hand);
      assert forall k :: k in ks ==> k == ks[0] || k in ks[1..];
      if r.Some? then
        var j :| 0 <= j < |ks[1..]| && ks[1..][j] == r.value && KindCount(hand, r.value.0, r.value.1) > 4
                 && forall i :: 0 <= i < j ==> KindCount(hand, ks[1..][i].0, ks[1..][i].1) <= 4;
        assert ks[j + 1] == r.value;
        assert forall i :: 1 <= i < j + 1 ==> ks[i] == ks[1..][i - 1];
        r
      else r
  }

  /** The red fives a suit has, with the `|| 0` default of a missing `redCounts` entry. */
  function RedsOf(reds: map<Suit, int>, suit: Suit): int
  {
    if suit in reds then reds[suit] else 0
  }

  /** The first suit (in `suits` order) with more red fives than the rule allows. */
  function FirstOverRed(suits: seq<Suit>, hand: seq<Tile>, red: RedRule): (r: Option<Suit>)
    ensures r.None? <==> forall s :: s in suits ==> RedCount(hand, s) <= RedAllowance(red, s)
    ensures r.Some? ==> r.value in suits && RedCount(hand, r.value) > RedAllowance(red, r.value)
  {
    if suits == [] then None
    else if RedCount(hand, suits[0]) > RedAllowance(red, suits[0]) then Some(suits[0])
    else
      assert forall s :: s in suits ==> s == suits[0] || s in suits[1..];
      FirstOverRed(suits[1..], hand, red)
  }

  /** The three error messages the component shows. */
  datatype ParseError =
    | NeedThirteen
    | TooManyTiles
    | TooManyCopies(suit: Suit, n: int)
    | TooManyRed(suit: Suit, allowed: int)

  function NatText(n: nat): string
  {
    if n < 10 then [('0' as int + n) as char] else NatText(n / 10) + [('0' as int + n % 10) as char]
  }

  function IntText(n: int): string
  {
    if n < 0 then "-" + NatText(-n) else NatText(n)
  }

  /** The text of an error, as the component displays it. */
  function Message(e: ParseError): string
  {
    match e
    case NeedThirteen => "Need 13 total tiles."
    case TooManyTiles => "Too many tiles."
    case TooManyCopies(suit, n) =>
      "Too many copies of tile " + [LetterOf(suit)] + "-" + IntText(n) + ". Maximum allowed is 4."
    case TooManyRed(suit, allowed) =>
      "Too many red fives for suit " + [LetterOf(suit)] + ". Maximum allowed is " + IntText(allowed) + "."
  }

  /** What `parseHandInput` returns: the parsed hand, or the first check it fails. */
  function Parse(input: string, isPreview: bool, red: RedRule): Result<seq<Tile>, ParseError>
  {
    var hand := Scan(input).0;
    if !isPreview && |hand| != 13 then Failure(if |hand| < 13 then NeedThirteen else TooManyTiles)
    else
      match FirstOverfull(Kinds(hand), hand)
      case Some(k) => Failure(TooManyCopies(k.0, k.1))
      case None =>
        match FirstOverRed([M, P, S], hand, red)
        case Some(s) => Failure(TooManyRed(s, RedAllowance(red, s)))
        case None => Success(hand)
  }

  // ---------------------------------------------------------------------
  // The parser
  // ---------------------------------------------------------------------

  /** The character loop: reads the input once, emitting the buffered digits at each suit letter. */
  method ScanTiles(input: string) returns (hand: seq<Tile>)
    ensures hand == Scan(input).0
  {
    hand := [];
    var digits: string := [];
    var i := 0;
    while i < |input|
      invariant 0 <= i <= |input|
      invariant (hand, digits) == Scan(input[..i])
    {
      var c := input[i];
      assert input[..i + 1][..i] == input[..i];
      if IsDigit(c) {
        digits := digits + [c];
      } else if SuitLetter(c).Some? {
        var suit := SuitLetter(c).value;
        var hand0 := hand;
        var j := 0;
        while j < |digits|
          invariant 0 <= j <= |digits|
          invariant hand == hand0 + GroupTiles(digits[..j], suit)
        {
          assert digits[..j + 1][..j] == digits[..j];
          hand := hand + [DigitTile(digits[j], suit)];
          j := j + 1;
        }
        assert digits[..j] == digits;
        digits := [];
      }
      i := i + 1;
    }
    assert input[..i] == input;
  }

  /** `tileCounts` holds exactly the keys `keys`, each with its kind's count in `hand`. */
  ghost predicate Counted(counts: map<Kind, int>, keys: seq<Kind>, hand: seq<Tile>)
  {
    && (forall k :: k in counts <==> k in keys)
    && (forall k :: k in counts ==> counts[k] == KindCount(hand, k.0, k.1))
  }

  /** `redCounts` holds each suit's red fives in `hand` (a missing entry read as 0). */
  ghost predicate RedCounted(reds: map<Suit, int>, hand: seq<Tile>)
  {
    forall s :: RedsOf(reds, s) == RedCount(hand, s)
  }

  /** One turn of the counting loop keeps `tileCounts` exact and its keys in first-occurrence order. */
  lemma KindsStep(hand: seq<Tile>, i: nat, keys: seq<Kind>, counts: map<Kind, int>)
    requires i < |hand|
    requires keys == Kinds(hand[..i]) && Counted(counts, keys, hand[..i])
    ensures var key := KindOf(hand[i]);
            var keys' := if key in counts then keys else keys + [key];
            var counts' := counts[key := (if key in counts then counts[key] else 0) + 1];
            keys' == Kinds(hand[..i + 1]) && Counted(counts', keys', hand[..i + 1])
  {
    var t := hand[i];
    var key := KindOf(t);
    assert hand[..i + 1][..i] == hand[..i];
    var counts' := counts[key := (if key in counts then counts[key] else 0) + 1];
    forall k | k in counts'
      ensures counts'[k] == KindCount(hand[..i + 1], k.0, k.1)
    {
      if k != key {
        assert counts'[k] == counts[k];
      } else if key !in counts {
        assert key !in keys;
      }
    }
  }

  /** One turn of the counting loop keeps `redCounts` exact. */
  lemma RedsStep(hand: seq<Tile>, i: nat, reds: map<Suit, int>)
    requires i < |hand| && WellFormed(hand[i])
    requires RedCounted(reds, hand[..i])
    ensures var t := hand[i];
            var reds' := if t.suit != Z && t.n == 5 && t.red then reds[t.suit := RedsOf(reds, t.suit) + 1] else reds;
            RedCounted(reds', hand[..i + 1])
  {
    var t := hand[i];
    assert hand[..i + 1][..i] == hand[..i];
    var reds' := if t.suit != Z && t.n == 5 && t.red then reds[t.suit := RedsOf(reds, t.suit) + 1] else reds;
    forall s
      ensures RedsOf(reds', s) == RedCount(hand[..i + 1], s)
    {
      assert RedCount(hand[..i + 1], s) == RedCount(hand[..i], s) + (if t.suit == s && t.red then 1 else 0);
    }
  }

  /** The key list after one more tile: its kind is appended when it is not yet a key. */
  function NextKeys(keys: seq<Kind>, counts: map<Kind, int>, t: Tile): seq<Kind>
  {
    if KindOf(t) in counts then keys else keys + [KindOf(t)]
  }

  /** `tileCounts[key] = (tileCounts[key] || 0) + 1`. */
  function NextCounts(counts: map<Kind, int>, t: Tile): map<Kind, int>
  {
    counts[KindOf(t) := (if KindOf(t) in counts then counts[KindOf(t)] else 0) + 1]
  }

  /** `redCounts[type] = (redCounts[type] || 0) + 1` for a red five. */
  function NextReds(reds: map<Suit, int>, t: Tile): map<Suit, int>
  {
    if t.suit != Z && t.n == 5 && t.red then reds[t.suit := RedsOf(reds, t.suit) + 1] else reds
  }

  /** `tileCounts` after counting `hand`: each kind's entry goes up by one per tile. */
  function CountTable(hand: seq<Tile>): map<Kind, int>
  {
    if hand == [] then map[]
    else
      NextCounts(CountTable(hand[..|hand| - 1]), hand[|hand| - 1])
  }

  /** `redCounts` after counting `hand`: a suit's entry goes up by one per red five. */
  function RedTable(hand: seq<Tile>): map<Suit, int>
  {
    if hand == [] then map[]
    else
      NextReds(RedTable(hand[..|hand| - 1]), hand[|hand| - 1])
  }

  /** `tileCounts` has exactly the kinds of the hand as keys, each with its number of tiles. */
  lemma {:induction false} CountTableExact(hand: seq<Tile>)
    ensures Counted(CountTable(hand), Kinds(hand), hand)
  {
    if hand != [] {
      var init := hand[..|hand| - 1];
      CountTableExact(init);
      KindsStep(hand, |hand| - 1, Kinds(init), CountTable(init));
      assert hand[..|hand|] == hand;
    }
  }

  /** `redCounts` holds each suit's number of red fives. */
  lemma {:induction false} RedTableExact(hand: seq<Tile>)
    requires AllWellFormed(hand)
    ensures RedCounted(RedTable(hand), hand)
  {
    if hand != [] {
      var init := hand[..|hand| - 1];
      RedTableExact(init);
      RedsStep(hand, |hand| - 1, RedTable(init));
      assert hand[..|hand|] == hand;
    }
  }

  /** A kind is a key of `tileCounts` exactly when it is among the kinds of the hand. */
  lemma {:induction false} CountKey(hand: seq<Tile>, key: Kind)
    ensures key in CountTable(hand) <==> key in Kinds(hand)
  {
    if hand != [] {
      CountKey(hand[..|hand| - 1], key);
    }
  }

  /** The three tables after one more tile. */
  lemma TablesStep(hand: seq<Tile>, i: nat, keys: seq<Kind>, counts: map<Kind, int>, reds: map<Suit, int>)
    requires i < |hand|
    requires keys == Kinds(hand[..i]) && counts == CountTable(hand[..i]) && reds == RedTable(hand[..i])
    ensures Kinds(hand[..i + 1]) == NextKeys(keys, counts, hand[i])
    ensures CountTable(hand[..i + 1]) == NextCounts(counts, hand[i])
    ensures RedTable(hand[..i + 1]) == NextReds(reds, hand[i])
  {
    assert hand[..i + 1][..i] == hand[..i];
    CountKey(hand[..i], KindOf(hand[i]));
  }

  /** The counting loop: `tileCounts` (with its key order) and `redCounts`. */
  method CountTiles(hand: seq<Tile>) returns (keys: seq<Kind>, counts: map<Kind, int>, reds: map<Suit, int>)
    ensures keys == Kinds(hand)
    ensures counts == CountTable(hand)
    ensures reds == RedTable(hand)
  {
    keys, counts, reds := [], map[], map[];
    var i := 0;
    while i < |hand|
      invariant 0 <= i <= |hand|
      invariant keys == Kinds(hand[..i])
      invariant counts == CountTable(hand[..i])
      invariant reds == RedTable(hand[..i])
    {
      TablesStep(hand, i, keys, counts, reds);
      keys := NextKeys(keys, counts, hand[i]);
      counts := NextCounts(counts, hand[i]);
      reds := NextReds(reds, hand[i]);
      i := i + 1;
    }
    assert hand[..i] == hand;
  }

  /** The `for (const key in tileCounts)` loop: the first key, in insertion order, with more than 4 tiles. */
  method FindOverfull(keys: seq<Kind>, counts: map<Kind, int>, hand: seq<Tile>) returns (r: Option<Kind>)
    requires Counted(counts, keys, hand)
    ensures r == FirstOverfull(keys, hand)
  {
    var j := 0;
    while j < |keys|
      invariant 0 <= j <= |keys|
      invariant FirstOverfull(keys[j..], hand) == FirstOverfull(keys, hand)
    {
      assert keys[j] in counts;
      if counts[keys[j]] > 4 {
        return Some(keys[j]);
      }
      assert keys[j..][1..] == keys[j + 1..];
      j := j + 1;
    }
    return None;
  }

  /** The loop over `m`, `p`, `s`: the first suit with more red fives than the rule allows. */
  method FindOverRed(reds: map<Suit, int>, hand: seq<Tile>, red: RedRule) returns (r: Option<Suit>)
    requires RedCounted(reds, hand)
    ensures r == FirstOverRed([M, P, S], hand, red)
  {
    var suits := [M, P, S];
    var q := 0;
    while q < |suits|
      invariant 0 <= q <= |suits|
      invariant FirstOverRed(suits[q..], hand, red) == FirstOverRed(suits, hand, red)
    {
      var suit := suits[q];
      if RedsOf(reds, suit) > RedAllowance(red, suit) {
        return Some(suit);
      }
      assert suits[q..][1..] == suits[q + 1..];
      q := q + 1;
    }
    return None;
  }

  /** `parseHandInput(input, isPreview)` under a rule allowing `red` red fives per suit. */
  method ParseHandInput(input: string, isPreview: bool, red: RedRule) returns (r: Result<seq<Tile>, ParseError>)
    ensures r == Parse(input, isPreview, red)
  {
    var hand := ScanTiles(input);
    if !isPreview && |hand| != 13 {
      if |hand| < 13 {
        return Failure(NeedThirteen);
      } else {
        return Failure(TooManyTiles);
      }
    }
    var keys, counts, reds := CountTiles(hand);
    ScanWellFormed(input);
    CountTableExact(hand);
    RedTableExact(hand);
    var overfull := FindOverfull(keys, counts, hand);
    if overfull.Some? {
      return Failure(TooManyCopies(overfull.value.0, overfull.value.1));
    }
    var overRed := FindOverRed(reds, hand, red);
    if overRed.Some? {
      return Failure(TooManyRed(overRed.value, RedAllowance(red, overRed.value)));
    }
    return Success(hand);
  }

  // ---------------------------------------------------------------------
  // Properties of the scan
  // ---------------------------------------------------------------------

  /** Parsed tiles are well formed: numbers are digits, and only a number suit's five is ever red. */
  lemma {:induction false} ScanWellFormed(s: string)
    ensures AllWellFormed(Scan(s).0)
    ensures forall t :: t in Scan(s).0 ==> 0 <= t.n <= 9
  {
    if s != [] {
      ScanWellFormed(s[..|s| - 1]);
    }
  }

  /** Every digit read is either emitted as a tile or still buffered. */
  lemma {:induction false} ScanCountsDigits(s: string)
    ensures |Scan(s).0| + |Scan(s).1| == DigitCount(s)
  {
    if s != [] {
      ScanCountsDigits(s[..|s| - 1]);
    }
  }

  /** Digits left in the buffer at the end emit nothing. */
  lemma {:induction false} LeftoverDigitsDropped(s: string, ds: string)
    requires AllDigits(ds)
    ensures Scan(s + ds) == (Scan(s).0, Scan(s).1 + ds)
  {
    if ds != [] {
      var init := ds[..|ds| - 1];
      LeftoverDigitsDropped(s, init);
      assert (s + ds)[..|s + ds| - 1] == s + init;
      assert Scan(s).1 + init + [ds[|ds| - 1]] == Scan(s).1 + ds;
    } else {
      assert s + ds == s && Scan(s).1 + ds == Scan(s).1;
    }
  }

  /** Characters other than digits and suit letters are skipped: the scan sees only the notation. */
  lemma {:induction false} ScanIgnoresOthers(s: string)
    ensures Scan(Notation(s)) == Scan(s)
  {
    if s != [] {
      var init := s[..|s| - 1];
      var c := s[|s| - 1];
      ScanIgnoresOthers(init);
      if IsDigit(c) || SuitLetter(c).Some? {
        assert (Notation(init) + [c])[..|Notation(init) + [c]| - 1] == Notation(init);
      } else {
        assert Notation(s) == Notation(init) + [] == Notation(init);
        assert Scan(s) == Scan(init);
      }
    }
  }

  /** Reading `b` after an input that leaves the buffer empty appends `b`'s tiles: tiles keep input order. */
  lemma {:induction false} ScanConcat(a: string, b: string)
    requires Scan(a).1 == []
    ensures Scan(a + b) == (Scan(a).0 + Scan(b).0, Scan(b).1)
  {
    if b == [] {
      assert a + b == a && Scan(a).0 + [] == Scan(a).0;
    } else {
      var init := b[..|b| - 1];
      ScanConcat(a, init);
      assert (a + b)[..|a + b| - 1] == a + init;
      assert (a + b)[|a + b| - 1] == b[|b| - 1];
      var c := b[|b| - 1];
      if SuitLetter(c).Some? && !IsDigit(c) {
        assert Scan(a).0 + Scan(init).0 + GroupTiles(Scan(init).1, SuitLetter(c).value)
            == Scan(a).0 + (Scan(init).0 + GroupTiles(Scan(init).1, SuitLetter(c).value));
      }
    }
  }

  // ---------------------------------------------------------------------
  // Printing: the inverse of the scan
  // ---------------------------------------------------------------------

  /** Tiles the notation can write: a digit number, and a number suit's `0` only as its red five. */
  predicate Printable(t: Tile)
  {
    WellFormed(t) && 0 <= t.n <= 9 && (t.suit != Z ==> t.n != 0)
  }

  /** The digit of a tile: `0` for a red five, otherwise its number. */
  function DigitOf(t: Tile): char
    requires Printable(t)
  {
    if t.red then '0' else ('0' as int + t.n) as char
  }

  /** One tile as a digit and its suit letter, a red five as `0`. */
  function TileText(t: Tile): string
    requires Printable(t)
  {
    [DigitOf(t), LetterOf(t.suit)]
  }

  function Print(hand: seq<Tile>): string
    requires forall t :: t in hand ==> Printable(t)
  {
    if hand == [] then [] else Print(hand[..|hand| - 1]) + TileText(hand[|hand| - 1])
  }

  /** The digit a printable tile is written with reads back as that tile. */
  lemma DigitOfTile(t: Tile)
    requires Printable(t)
    ensures IsDigit(DigitOf(t)) && DigitTile(DigitOf(t), t.suit) == t
  {
  }

  /** A suit's letter is no digit and names that suit. */
  lemma LetterNamesSuit(suit: Suit)
    ensures !IsDigit(LetterOf(suit)) && SuitLetter(LetterOf(suit)) == Some(suit)
  {
  }

  /** A digit followed by a suit letter emits one tile and leaves the buffer empty. */
  lemma ScanPair(d: char, l: char)
    requires IsDigit(d) && !IsDigit(l) && SuitLetter(l).Some?
    ensures Scan([d, l]) == ([DigitTile(d, SuitLetter(l).value)], [])
  {
    assert [d, l][..1] == [d];
    assert [d][..0] == [];
    assert Scan([d]) == (Scan([]).0, Scan([]).1 + [d]);
    assert Scan([]).1 + [d] == [d];
    assert GroupTiles([d], SuitLetter(l).value) == [DigitTile(d, SuitLetter(l).value)];
  }

  lemma ScanTileText(t: Tile)
    requires Printable(t)
    ensures Scan(TileText(t)) == ([t], [])
  {
    DigitOfTile(t);
    LetterNamesSuit(t.suit);
    ScanPair(DigitOf(t), LetterOf(t.suit));
  }

  /** Parsing a printed hand gives the hand back, with nothing left in the buffer. */
  lemma {:induction false} ScanPrint(hand: seq<Tile>)
    requires forall t :: t in hand ==> Printable(t)
    ensures Scan(Print(hand)) == (hand, [])
  {
    if hand != [] {
      var init := hand[..|hand| - 1];
      var t := hand[|hand| - 1];
      var p := Print(init);
      var tt := TileText(t);
      assert Print(hand) == p + tt;
      ScanPrint(init);
      ScanTileText(t);
      ScanConcat(p, tt);
      assert init + [t] == hand;
    }
  }

  // ---------------------------------------------------------------------
  // Properties of the checks
  // ---------------------------------------------------------------------

  /** Each kind is a key of `tileCounts` once. */
  lemma {:induction false} KindsDistinct(hand: seq<Tile>)
    ensures forall i, j :: 0 <= i < j < |Kinds(hand)| ==> Kinds(hand)[i] != Kinds(hand)[j]
  {
    if hand != [] {
      var init := hand[..|hand| - 1];
      KindsDistinct(init);
      var ks := Kinds(init);
      var k := KindOf(hand[|hand| - 1]);
      if k !in ks {
        var r := ks + [k];
        assert Kinds(hand) == r;
        forall i, j | 0 <= i < j < |r|
          ensures r[i] != r[j]
        {
          if j == |ks| {
            assert r[i] == ks[i] && ks[i] in ks;
          } else {
            assert r[i] == ks[i] && r[j] == ks[j];
          }
        }
      } else {
        assert Kinds(hand) == ks;
      }
    }
  }

  /** `tileCounts` keys appear in first-occurrence order: the keys of a prefix of the hand are a prefix of the keys. */
  lemma {:induction false} KindsPrefix(hand: seq<Tile>, i: nat)
    requires i <= |hand|
    ensures Kinds(hand[..i]) <= Kinds(hand)
    decreases |hand| - i
  {
    if i < |hand| {
      KindsPrefix(hand, i + 1);
      assert hand[..i + 1][..i] == hand[..i];
    } else {
      assert hand[..i] == hand;
    }
  }

  /** The four-of-a-kind check passes exactly when no kind has more than 4 tiles. */
  lemma {:induction false} KindsWithinLimit(hand: seq<Tile>)
    ensures (forall s, n :: KindCount(hand, s, n) <= 4) <==> FirstOverfull(Kinds(hand), hand).None?
  {
    var ks := Kinds(hand);
    var r := FirstOverfull(ks, hand);
    if r.Some? {
      assert KindCount(hand, r.value.0, r.value.1) > 4;
    } else {
      forall s, n
        ensures KindCount(hand, s, n) <= 4
      {
        if KindCount(hand, s, n) > 0 {
          assert (s, n) in ks;
        }
      }
    }
  }

  /** The red-five check passes exactly when no number suit has more red fives than the rule allows. */
  lemma {:induction false} RedsWithinLimit(hand: seq<Tile>, red: RedRule)
    ensures (forall s :: s != Z ==> RedCount(hand, s) <= RedAllowance(red, s)) <==> FirstOverRed([M, P, S], hand, red).None?
  {
    assert forall s :: s in [M, P, S] <==> s != Z;
  }

  /**
   * The parser succeeds exactly when the count check (outside preview), the
   * four-of-a-kind limit and the red-five allowance all pass, and then
   * returns the scanned tiles in input order.
   */
  lemma {:induction false} ParseSucceeds(input: string, isPreview: bool, red: RedRule)
    ensures var hand := Scan(input).0;
            var r := Parse(input, isPreview, red);
            && (r.Success? <==>
                  && (isPreview || |hand| == 13)
                  && (forall s, n :: KindCount(hand, s, n) <= 4)
                  && (forall s :: s != Z ==> RedCount(hand, s) <= RedAllowance(red, s)))
            && (r.Success? ==> r.value == hand)
  {
    KindsWithinLimit(Scan(input).0);
    RedsWithinLimit(Scan(input).0, red);
  }

  /** Each error names the check that failed, and the earlier checks passed. */
  lemma {:induction false} ParseErrors(input: string, isPreview: bool, red: RedRule)
    ensures var hand := Scan(input).0;
            var r := Parse(input, isPreview, red);
            && (r == Failure(NeedThirteen) <==> !isPreview && |hand| < 13)
            && (r == Failure(TooManyTiles) <==> !isPreview && |hand| > 13)
            && (r.Failure? && r.error.TooManyCopies? ==>
                  && (isPreview || |hand| == 13)
                  && KindCount(hand, r.error.suit, r.error.n) > 4
                  && exists j :: 0 <= j < |Kinds(hand)| && Kinds(hand)[j] == (r.error.suit, r.error.n)
                                 && forall i :: 0 <= i < j ==> KindCount(hand, Kinds(hand)[i].0, Kinds(hand)[i].1) <= 4)
            && (r.Failure? && r.error.TooManyRed? ==>
                  && (isPreview || |hand| == 13)
                  && (forall s, n :: KindCount(hand, s, n) <= 4)
                  && r.error.suit != Z
                  && r.error.allowed == RedAllowance(red, r.error.suit)
                  && RedCount(hand, r.error.suit) > r.error.allowed)
  {
    KindsWithinLimit(Scan(input).0);
  }

  /** Preview mode skips the 13-tile check and nothing else. */
  lemma {:induction false} PreviewSkipsCount(input: string, red: RedRule)
    ensures var hand := Scan(input).0;
            Parse(input, false, red) == (if |hand| == 13 then Parse(input, true, red)
                                         else Failure(if |hand| < 13 then NeedThirteen else TooManyTiles))
  {
  }
}
