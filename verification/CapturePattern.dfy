/** The calibration picture: a permutation of 256 colours, and how a captured row of it is placed. */
module CapturePattern {
  import opened Bitwise

  const COLUMNS := 256
  const ROWS := 4
  const SAMPLES := 1024
  const COLOURS := 256

  /** A captured pixel word, whatever the bus returned */
  type Pixel = p: int | 0 <= p < 0x1_0000_0000

  function Red(pen: nat): nat { (pen * 197 + 101) % 256 }

  function Green(r: nat): (g: nat)
    ensures g < 256
  {
    XorByteBound((r * 8 + r / 32) % 256, 0x5a);
    Xor((r * 8 + r / 32) % 256, 0x5a)
  }

  function Blue(r: nat): (b: nat)
    ensures b < 256
  {
    XorByteBound((r * 32 + r / 8) % 256, 0xa5);
    Xor((r * 32 + r / 8) % 256, 0xa5)
  }

  /** The colour with a given red value */
  function Colour(r: nat): (p: Pixel)
    requires r < 256
    ensures p / 65536 == r
  {
    r * 65536 + (Green(r) * 256 + Blue(r))
  }

  /** What the 256 red values look like in full: their own red in the third byte. */
  type Palette = nat -> Pixel

  ghost predicate RedOnTop(palette: Palette) {
    forall r: nat {:trigger palette(r)} :: r < 256 ==> palette(r) / 65536 == r
  }

  /** zz_capture_pattern_rgb */
  function PatternRgb(palette: Palette, pen: nat): Pixel { palette(Red(pen)) }

  /** The pen a red value names: 13 inverts 197 modulo 256 */
  function PenOfRed(r: nat): (pen: nat)
    ensures pen < 256
  {
    (r as int - 101) * 13 % 256
  }

  function PenOf(pixel: Pixel): (pen: nat)
    ensures pen < 256
  {
    PenOfRed(pixel / 65536)
  }

  /** (pen - x) & 255 */
  function OriginFor(pen: nat, x: nat): (o: nat)
    ensures o < 256
  {
    (pen as int - x) % 256
  }

  lemma ModShift(a: int, k: int)
    ensures (a + 256 * k) % 256 == a % 256
  {
  }

  lemma Inverse(pen: nat)
    ensures PenOfRed(Red(pen)) == pen % 256
  {
    var q := (pen * 197 + 101) / 256;
    var r := Red(pen);
    assert r == pen * 197 + 101 - 256 * q;
    var k: int := 10 * (pen as int) - 13 * q;
    assert (r as int - 101) * 13 == pen + 256 * k;
    ModShift(pen, k);
  }

  lemma RedPeriodic(pen: nat)
    ensures Red(pen) == Red(pen % 256)
  {
    var k := pen / 256;
    assert pen * 197 + 101 == pen % 256 * 197 + 101 + 256 * (197 * k);
    ModShift(pen % 256 * 197 + 101, 197 * k);
  }

  /** Every colour of the permutation is a different one. */
  lemma PatternInjective(palette: Palette, p: nat, q: nat)
    requires RedOnTop(palette) && p < 256 && q < 256 && PatternRgb(palette, p) == PatternRgb(palette, q)
    ensures p == q
  {
    Inverse(p);
    Inverse(q);
    SmallMod(p);
    SmallMod(q);
    assert palette(Red(p)) / 65536 == Red(p) && palette(Red(q)) / 65536 == Red(q);
  }

  lemma SmallMod(p: nat)
    requires p < 256
    ensures p % 256 == p
  {
  }

  predicate Matches(palette: Palette, pixel: Pixel, origin: nat, x: nat) { pixel == PatternRgb(palette, origin + x) }

  predicate VotesFor(palette: Palette, pixel: Pixel, origin: nat, x: nat) {
    pixel == PatternRgb(palette, PenOf(pixel)) && OriginFor(PenOf(pixel), x) == origin
  }

  /** The vote a pixel casts is for the one origin at which it is exactly the pattern, if there is one. */
  lemma VoteIsMatch(palette: Palette, pixel: Pixel, x: nat, origin: nat)
    requires RedOnTop(palette) && origin < 256
    ensures Matches(palette, pixel, origin, x) <==> VotesFor(palette, pixel, origin, x)
  {
    RedPeriodic(origin + x);
    if Matches(palette, pixel, origin, x) {
      Inverse(origin + x);
      SameOrigin(origin, x, PenOf(pixel));
    } else if VotesFor(palette, pixel, origin, x) {
      SamePen(origin, x, PenOf(pixel));
    }
  }

  lemma SameOrigin(origin: nat, x: nat, pen: nat)
    requires origin < 256 && pen == (origin + x) % 256
    ensures OriginFor(pen, x) == origin
  {
    var k := (origin + x) / 256;
    assert pen as int - x == origin - 256 * k;
    ModShift(origin, -k);
  }

  lemma SamePen(origin: nat, x: nat, pen: nat)
    requires pen < 256 && OriginFor(pen, x) == origin
    ensures (origin + x) % 256 == pen
  {
    var k := (pen as int - x) / 256;
    assert origin + x == pen - 256 * k;
    ModShift(pen, -k);
  }

  // ---- voting ----

  /** Pixels among the first n that match the pattern at an origin */
  function Score(palette: Palette, pixels: seq<Pixel>, origin: nat, n: nat): (s: nat)
    requires n <= |pixels|
    ensures s <= n
  {
    if n == 0 then 0
    else Score(palette, pixels, origin, n - 1) + if Matches(palette, pixels[n - 1], origin, n - 1) then 1 else 0
  }

  function Mismatches(palette: Palette, pixels: seq<Pixel>, origin: nat): nat {
    |pixels| - Score(palette, pixels, origin, |pixels|)
  }

  /** The votes cast by the first n pixels */
  ghost predicate Voted(palette: Palette, votes: seq<nat>, pixels: seq<Pixel>, n: nat) {
    |votes| == COLOURS && n <= |pixels| && forall o :: 0 <= o < COLOURS ==> votes[o] == Score(palette, pixels, o, n)
  }

  lemma VoteCounts(palette: Palette, votes: seq<nat>, pixels: seq<Pixel>, n: nat, votes': seq<nat>)
    requires RedOnTop(palette) && n < |pixels| && Voted(palette, votes, pixels, n)
    requires var pen := PenOf(pixels[n]);
             var o := OriginFor(pen, n);
             votes' == if pixels[n] == PatternRgb(palette, pen) then votes[o := votes[o] + 1] else votes
    ensures Voted(palette, votes', pixels, n + 1)
  {
    forall o | 0 <= o < COLOURS ensures votes'[o] == Score(palette, pixels, o, n + 1) {
      VoteIsMatch(palette, pixels[n], n, o);
    }
  }

  /** How many of the first n origins have the given score */
  function TieCount(votes: seq<nat>, best: nat, n: nat): (t: nat)
    requires n <= |votes|
    ensures t <= n
  {
    if n == 0 then 0 else TieCount(votes, best, n - 1) + if votes[n - 1] == best then 1 else 0
  }

  lemma {:induction false} NoTies(votes: seq<nat>, best: nat, n: nat)
    requires n <= |votes| && forall o :: 0 <= o < n ==> votes[o] != best
    ensures TieCount(votes, best, n) == 0
  {
    if n > 0 {
      assert votes[n - 1] != best;
      NoTies(votes, best, n - 1);
    }
  }

  lemma {:induction false} OneTie(votes: seq<nat>, best: nat, n: nat, o: nat, p: nat)
    requires n <= |votes| && o < n && p < n && votes[o] == best && votes[p] == best && TieCount(votes, best, n) == 1
    ensures o == p
  {
    if o < n - 1 && p < n - 1 {
      SomeTie(votes, best, n - 1, o);
      OneTie(votes, best, n - 1, o, p);
    } else if o < n - 1 {
      SomeTie(votes, best, n - 1, o);
    } else if p < n - 1 {
      SomeTie(votes, best, n - 1, p);
    }
  }

  lemma {:induction false} SomeTie(votes: seq<nat>, best: nat, n: nat, o: nat)
    requires n <= |votes| && o < n && votes[o] == best
    ensures TieCount(votes, best, n) >= 1
  {
    if o < n - 1 {
      SomeTie(votes, best, n - 1, o);
    }
  }

  /** The row's residual: the fewest mismatches at any origin, how many origins reach it, which one does
      if only one; and then in how many bits the row differs from the pattern there, and in which. */
  datatype Analysis = Analysis(origin: int, ties: nat, residual: nat, bits: nat, mask: nat)

  /** What zz_capture_analyze_row reports, in terms of mismatches at all 256 origins. */
  ghost predicate Places(palette: Palette, a: Analysis, pixels: seq<Pixel>) {
    && (forall o: nat :: o < COLOURS ==> a.residual <= Mismatches(palette, pixels, o))
    && (exists o: nat :: o < COLOURS && a.residual == Mismatches(palette, pixels, o))
    && (a.origin == -1 || 0 <= a.origin < COLOURS)
    && (forall o: nat :: o < COLOURS ==>
          (a.origin == o <==> a.ties == 1 && Mismatches(palette, pixels, o) == a.residual))
    && (a.ties == 1 <==> a.origin != -1) && a.ties == Minimisers(palette, pixels, a.residual, COLOURS)
  }

  /** Bits in which the first n pixels differ from the pattern at an origin */
  function BitErrors(palette: Palette, pixels: seq<Pixel>, origin: nat, n: nat): nat
    requires n <= |pixels|
  {
    if n == 0 then 0
    else BitErrors(palette, pixels, origin, n - 1) + Ones(Xor(pixels[n - 1], PatternRgb(palette, origin + (n - 1))))
  }

  /** Some pixel among the first n differs in bit k. */
  ghost predicate Differs(palette: Palette, pixels: seq<Pixel>, origin: nat, n: nat, k: nat)
    requires n <= |pixels|
  {
    exists x: nat :: x < n && BitAt(pixels[x], k) != BitAt(PatternRgb(palette, origin + x), k)
  }

  /** What the report says of bits: only for a unique origin, and then there */
  ghost predicate BitsReported(palette: Palette, a: Analysis, pixels: seq<Pixel>) {
    if a.origin < 0 then a.bits == 0 && a.mask == 0
    else a.bits == BitErrors(palette, pixels, a.origin, |pixels|) && (a.bits == 0 <==> a.residual == 0)
         && forall k: nat :: BitAt(a.mask, k) <==> Differs(palette, pixels, a.origin, |pixels|, k)
  }

  /** No bit differs exactly when no pixel does. */
  lemma {:induction false} BitErrorsMatch(palette: Palette, pixels: seq<Pixel>, origin: nat, n: nat)
    requires n <= |pixels|
    ensures BitErrors(palette, pixels, origin, n) == 0 <==> Score(palette, pixels, origin, n) == n
  {
    if n > 0 {
      BitErrorsMatch(palette, pixels, origin, n - 1);
      var bits := Xor(pixels[n - 1], PatternRgb(palette, origin + (n - 1)));
      XorZero(pixels[n - 1], PatternRgb(palette, origin + (n - 1)));
      NoOnes(bits);
    }
  }

  lemma MaskNext(palette: Palette, pixels: seq<Pixel>, origin: nat, n: nat, mask: nat, bits: nat)
    requires n < |pixels| && bits == Xor(pixels[n], PatternRgb(palette, origin + n))
    requires forall k: nat :: BitAt(mask, k) <==> Differs(palette, pixels, origin, n, k)
    ensures forall k: nat :: BitAt(Or(mask, bits), k) <==> Differs(palette, pixels, origin, n + 1, k)
  {
    forall k: nat ensures BitAt(Or(mask, bits), k) <==> Differs(palette, pixels, origin, n + 1, k) {
      OrBit(mask, bits, k);
      XorBit(pixels[n], PatternRgb(palette, origin + n), k);
      DiffersNext(palette, pixels, origin, n, k);
    }
  }

  lemma DiffersNext(palette: Palette, pixels: seq<Pixel>, origin: nat, n: nat, k: nat)
    requires n < |pixels|
    ensures Differs(palette, pixels, origin, n + 1, k) <==>
            Differs(palette, pixels, origin, n, k) || BitAt(pixels[n], k) != BitAt(PatternRgb(palette, origin + n), k)
  {
  }

  /** The last loop of zz_capture_analyze_row */
  method CountBits(palette: Palette, pixels: seq<Pixel>, origin: nat) returns (count: nat, mask: nat)
    ensures count == BitErrors(palette, pixels, origin, |pixels|)
    ensures forall k: nat :: BitAt(mask, k) <==> Differs(palette, pixels, origin, |pixels|, k)
  {
    count, mask := 0, 0;
    forall k: nat ensures !BitAt(mask, k) {
      ZeroBits(k);
    }
    for x := 0 to |pixels|
      invariant count == BitErrors(palette, pixels, origin, x)
      invariant forall k: nat :: BitAt(mask, k) <==> Differs(palette, pixels, origin, x, k)
    {
      var bits := Xor(pixels[x], PatternRgb(palette, origin + x));
      MaskNext(palette, pixels, origin, x, mask, bits);
      mask := Or(mask, bits);
      var ones := CountOnes(bits);
      count := count + ones;
    }
  }

  /** How many of the first n origins mismatch in exactly this many pixels */
  function Minimisers(palette: Palette, pixels: seq<Pixel>, residual: nat, n: nat): nat {
    if n == 0 then 0
    else Minimisers(palette, pixels, residual, n - 1) + if Mismatches(palette, pixels, n - 1) == residual then 1 else 0
  }

  lemma {:induction false} TiesAreMinimisers(palette: Palette, pixels: seq<Pixel>, votes: seq<nat>, best: nat, n: nat)
    requires |pixels| == COLUMNS && Voted(palette, votes, pixels, COLUMNS) && best <= COLUMNS && n <= COLOURS
    ensures TieCount(votes, best, n) == Minimisers(palette, pixels, COLUMNS - best, n)
  {
    if n > 0 {
      TiesAreMinimisers(palette, pixels, votes, best, n - 1);
      assert Mismatches(palette, pixels, n - 1) == COLUMNS - votes[n - 1];
    }
  }

  /** The second loop of zz_capture_analyze_row after x origins */
  ghost predicate Counted(votes: seq<nat>, x: nat, best: nat, origin: nat, ties: nat) {
    && x <= |votes| && (forall o :: 0 <= o < x ==> votes[o] <= best) && ties == TieCount(votes, best, x)
    && if best == 0 then ties == x else origin < x && votes[origin] == best
  }

  lemma {:induction false} CountNext(votes: seq<nat>, x: nat, best: nat, origin: nat, ties: nat)
    requires x < |votes| && Counted(votes, x, best, origin, ties)
    ensures votes[x] > best ==> Counted(votes, x + 1, votes[x], x, 1)
    ensures votes[x] == best ==> Counted(votes, x + 1, best, origin, ties + 1)
    ensures votes[x] < best ==> Counted(votes, x + 1, best, origin, ties)
  {
    if votes[x] > best {
      NoTies(votes, votes[x], x);
    }
  }

  /** The minimiser is reported exactly when it is the only one. */
  lemma CountPlaces(palette: Palette, pixels: seq<Pixel>, votes: seq<nat>, best: nat, origin: nat, ties: nat)
    requires |pixels| == COLUMNS && Voted(palette, votes, pixels, COLUMNS) && Counted(votes, COLOURS, best, origin, ties)
    requires best <= COLUMNS
    ensures Places(palette, Analysis(if ties != 1 then -1 else origin, ties, COLUMNS - best, 0, 0), pixels)
  {
    assert forall o: nat :: o < COLOURS ==> Mismatches(palette, pixels, o) == COLUMNS - votes[o];
    TiesAreMinimisers(palette, pixels, votes, best, COLOURS);
    var winner := if best == 0 then 0 else origin;
    assert votes[winner] == best;
    assert COLUMNS - best == Mismatches(palette, pixels, winner);
    if ties == 1 {
      forall o: nat | o < COLOURS && votes[o] == best ensures o == origin {
        OneTie(votes, best, COLOURS, o, winner);
      }
    }
  }

  /** zz_capture_analyze_row */
  method AnalyzeRow(palette: Palette, pixels: seq<Pixel>) returns (a: Analysis)
    requires |pixels| == COLUMNS && RedOnTop(palette)
    ensures Places(palette, a, pixels) && BitsReported(palette, a, pixels)
  {
    a := PlaceRow(palette, pixels);
    if a.origin >= 0 {
      var bits, mask := CountBits(palette, pixels, a.origin);
      BitErrorsMatch(palette, pixels, a.origin, |pixels|);
      a := a.(bits := bits, mask := mask);
    }
  }

  /** The vote and the choice of an origin */
  method PlaceRow(palette: Palette, pixels: seq<Pixel>) returns (a: Analysis)
    requires |pixels| == COLUMNS && RedOnTop(palette)
    ensures Places(palette, a, pixels) && a.bits == 0 && a.mask == 0
  {
    var votes := CountVotes(palette, pixels);
    ghost var cast := votes[..];
    var best: nat, origin: nat, ties: nat := 0, 0, 0;
    for x := 0 to COLUMNS
      invariant votes.Length == COLOURS && votes[..] == cast && Counted(cast, x, best, origin, ties) && best <= COLUMNS
    {
      CountNext(cast, x, best, origin, ties);
      if votes[x] > best {
        best, origin, ties := votes[x], x, 1;
      } else if votes[x] == best {
        ties := ties + 1;
      }
    }
    CountPlaces(palette, pixels, cast, best, origin, ties);
    a := Analysis(if ties != 1 then -1 else origin, ties, COLUMNS - best, 0, 0);
  }

  method CountVotes(palette: Palette, pixels: seq<Pixel>) returns (votes: array<nat>)
    requires |pixels| == COLUMNS && RedOnTop(palette)
    ensures fresh(votes) && votes.Length == COLOURS && Voted(palette, votes[..], pixels, COLUMNS)
    ensures forall o :: 0 <= o < COLOURS ==> votes[o] <= COLUMNS
  {
    votes := new nat[COLOURS](_ => 0);
    for x := 0 to COLUMNS
      invariant votes.Length == COLOURS && Voted(palette, votes[..], pixels, x)
    {
      var pen := PenOf(pixels[x]);
      ghost var before := votes[..];
      if pixels[x] == PatternRgb(palette, pen) {
        var o := OriginFor(pen, x);
        votes[o] := votes[o] + 1;
        assert votes[..] == before[o := before[o] + 1];
      }
      VoteCounts(palette, before, pixels, x, votes[..]);
    }
    assert forall o :: 0 <= o < COLOURS ==> votes[o] == votes[..][o];
  }

  /** The calibration picture's palette */
  const CAPTURE_PALETTE: Palette := r => if r < 256 then Colour(r) else 0

  lemma CapturePaletteHasRedOnTop()
    ensures RedOnTop(CAPTURE_PALETTE)
  {
  }

  // ---- the strict four-row check ----

  /** All four rows show the pattern from one origin. */
  predicate Displayed(palette: Palette, samples: seq<Pixel>, origin: nat) {
    forall i :: 0 <= i < |samples| ==> samples[i] == PatternRgb(palette, origin + i % COLUMNS)
  }

  function Wrong(palette: Palette, samples: seq<Pixel>, origin: nat, n: nat): (w: nat)
    requires n <= |samples|
    ensures w <= n
  {
    if n == 0 then 0
    else Wrong(palette, samples, origin, n - 1)
         + if samples[n - 1] != PatternRgb(palette, origin + (n - 1) % COLUMNS) then 1 else 0
  }

  lemma {:induction false} NothingWrong(palette: Palette, samples: seq<Pixel>, origin: nat, n: nat)
    requires n <= |samples|
    ensures Wrong(palette, samples, origin, n) == 0 <==>
            forall i :: 0 <= i < n ==> samples[i] == PatternRgb(palette, origin + i % COLUMNS)
  {
    if n > 0 {
      NothingWrong(palette, samples, origin, n - 1);
    }
  }

  /** The first loop: the pen of the first pixel */
  method FindOrigin(palette: Palette, pixel: Pixel) returns (origin: nat)
    requires RedOnTop(palette)
    ensures origin <= COLOURS && (origin < COLOURS ==> pixel == PatternRgb(palette, origin))
    ensures forall o: nat :: o < COLOURS && pixel == PatternRgb(palette, o) ==> o == origin
  {
    origin := 0;
    while origin < COLOURS && pixel != PatternRgb(palette, origin)
      invariant origin <= COLOURS
      invariant forall o: nat :: o < origin ==> pixel != PatternRgb(palette, o)
    {
      origin := origin + 1;
    }
    if origin < COLOURS {
      forall o: nat | o < COLOURS && pixel == PatternRgb(palette, o) ensures o == origin {
        PatternInjective(palette, o, origin);
      }
    }
  }

  method CountWrong(palette: Palette, samples: seq<Pixel>, origin: nat) returns (errors: nat)
    ensures errors == Wrong(palette, samples, origin, |samples|)
    ensures errors == 0 <==> Displayed(palette, samples, origin)
  {
    errors := 0;
    for i := 0 to |samples|
      invariant errors == Wrong(palette, samples, origin, i)
    {
      errors := errors + if samples[i] != PatternRgb(palette, origin + i % COLUMNS) then 1 else 0;
    }
    NothingWrong(palette, samples, origin, |samples|);
  }

  lemma DisplayedFirst(palette: Palette, samples: seq<Pixel>, origin: nat)
    requires samples != [] && Displayed(palette, samples, origin)
    ensures samples[0] == PatternRgb(palette, origin)
  {
    assert samples[0] == PatternRgb(palette, origin + 0 % COLUMNS);
  }

  /** zz_capture_pattern_errors: zero exactly when the whole capture is the pattern */
  method PatternErrors(palette: Palette, samples: seq<Pixel>) returns (errors: nat)
    requires |samples| == SAMPLES && RedOnTop(palette)
    ensures errors == 0 <==> exists o: nat :: o < COLOURS && Displayed(palette, samples, o)
    ensures forall o: nat :: o < COLOURS && samples[0] == PatternRgb(palette, o) ==>
              errors == Wrong(palette, samples, o, |samples|)
    ensures (forall o: nat :: o < COLOURS ==> samples[0] != PatternRgb(palette, o)) ==> errors == SAMPLES
  {
    var origin := FindOrigin(palette, samples[0]);
    forall o: nat | o < COLOURS && Displayed(palette, samples, o) ensures o == origin {
      DisplayedFirst(palette, samples, o);
    }
    if origin == COLOURS {
      return SAMPLES;
    }
    errors := CountWrong(palette, samples, origin);
  }
}
