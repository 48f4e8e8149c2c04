/** The pixel-clock resolver: a search over 69 feedback pairs with two output dividers each, and the
    proof that no legal setting of the PLL does better. */
module PllResolver {

  const REFERENCE := 100_000_000
  const MIN_CLOCK := 25_000_000
  const MAX_CLOCK := 165_000_000
  const NO_ERROR_YET := 0xffff_ffff

  /** Multipliers and dividers of the PLL whose detector and VCO run in range. */
  predicate PairInRange(mul: nat, div: nat) {
    2 <= mul <= 64 && 1 <= div <= 5 && 1000 * div <= 100 * mul <= 1500 * div
  }

  /** zz_custom_clock_hz: the nearest whole frequency; 0 outside the ranges */
  function ClockHz(mul: nat, div: nat, div2: nat): nat {
    if !PairInRange(mul, div) || div2 < 1 || div2 > 128 then 0 else Rounded(REFERENCE * mul, div * div2)
  }

  function Rounded(n: nat, d: nat): nat
    requires d > 0
  {
    (n + d / 2) / d
  }

  /** A setting the card accepts. */
  predicate Legal(mul: nat, div: nat, div2: nat) {
    PairInRange(mul, div) && 1 <= div2 <= 128 && MIN_CLOCK <= ClockHz(mul, div, div2) <= MAX_CLOCK
  }

  function Error(requested: nat, mul: nat, div: nat, div2: nat): nat {
    var hz := ClockHz(mul, div, div2);
    if hz > requested then hz - requested else requested - hz
  }

  // ---- rounding ----

  lemma Quotient(n: nat, d: nat, q: nat)
    requires d > 0 && q * d <= n
    ensures n / d >= q
  {
    var w := n / d;
    assert n == w * d + n % d;
    assert w < q ==> (w + 1) * d <= q * d;
  }

  lemma QuotientBelow(n: nat, d: nat, q: nat)
    requires d > 0 && n < q * d
    ensures n / d < q
  {
    var w := n / d;
    assert n == w * d + n % d;
    assert w >= q ==> w * d >= q * d;
  }

  lemma RoundedAtLeast(n: nat, d: nat, r: nat)
    requires d > 0 && r * d <= n
    ensures Rounded(n, d) >= r
  {
    Quotient(n + d / 2, d, r);
  }

  lemma RoundedAtMost(n: nat, d: nat, r: nat)
    requires d > 0 && n <= r * d
    ensures Rounded(n, d) <= r
  {
    assert (r + 1) * d == r * d + d;
    QuotientBelow(n + d / 2, d, r + 1);
  }

  /** A larger divider never gives a larger frequency, rounding included. */
  lemma RoundedFalls(n: nat, d1: nat, d2: nat)
    requires 0 < d1 <= d2
    ensures Rounded(n, d2) <= Rounded(n, d1)
  {
    var r := Rounded(n, d2);
    var t := n + d2 / 2;
    assert t == r * d2 + t % d2;
    if r >= 1 {
      RoundStep(r, d1, d2);
      Quotient(n + d1 / 2, d1, r);
    }
  }

  lemma RoundStep(r: nat, d1: nat, d2: nat)
    requires r >= 1 && d1 <= d2
    ensures r * d1 + d2 / 2 <= r * d2 + d1 / 2
  {
    assert r * d2 == r * d1 + r * (d2 - d1);
    assert r * (d2 - d1) >= d2 - d1;
  }

  /** Every frequency fits the uint32_t it is computed into. */
  lemma ClockFitsWord(mul: nat, div: nat, div2: nat)
    ensures ClockHz(mul, div, div2) <= 1_500_000_000
  {
    if PairInRange(mul, div) && 1 <= div2 <= 128 {
      assert REFERENCE * mul <= 1_500_000_000 * div <= 1_500_000_000 * (div * div2);
      RoundedAtMost(REFERENCE * mul, div * div2, 1_500_000_000);
    }
  }

  // ---- one feedback pair ----

  /** The output divider just below the ideal one */
  function OutputDivider(requested: nat, mul: nat, div: nat): nat
    requires requested > 0 && div > 0
  {
    REFERENCE * mul / (requested * div)
  }

  /** It is always well inside the dividers' range. */
  lemma DividerInRange(requested: nat, mul: nat, div: nat)
    requires MIN_CLOCK <= requested <= MAX_CLOCK && PairInRange(mul, div)
    ensures 6 <= OutputDivider(requested, mul, div) <= 60
  {
    var n, d := REFERENCE * mul, requested * div;
    assert n >= 1_000_000_000 * div && n <= 1_500_000_000 * div;
    assert d <= MAX_CLOCK * div && d >= MIN_CLOCK * div;
    assert 6 * d <= 6 * (MAX_CLOCK * div) <= n;
    Quotient(n, d, 6);
    assert n < 61 * (MIN_CLOCK * div) <= 61 * d;
    QuotientBelow(n, d, 61);
  }

  lemma DividerBrackets(requested: nat, mul: nat, div: nat, q: nat)
    requires requested > 0 && div > 0 && q == OutputDivider(requested, mul, div)
    ensures requested * (div * q) <= REFERENCE * mul < requested * (div * (q + 1))
  {
    var n, d := REFERENCE * mul, requested * div;
    assert n == q * d + n % d;
    assert q * d == requested * (div * q) && (q + 1) * d == requested * (div * (q + 1));
    assert (q + 1) * d == q * d + d;
  }

  /** Up to the divider the clock is too fast, the more so the smaller the divider. */
  lemma FastSide(requested: nat, mul: nat, div: nat, q: nat, k: nat)
    requires requested > 0 && PairInRange(mul, div) && q == OutputDivider(requested, mul, div) && 1 <= k <= q <= 128
    ensures requested <= ClockHz(mul, div, q) <= ClockHz(mul, div, k)
  {
    DividerBrackets(requested, mul, div, q);
    RoundedAtLeast(REFERENCE * mul, div * q, requested);
    assert div * k <= div * q;
    RoundedFalls(REFERENCE * mul, div * k, div * q);
  }

  /** Above it, too slow. */
  lemma SlowSide(requested: nat, mul: nat, div: nat, q: nat, k: nat)
    requires requested > 0 && PairInRange(mul, div) && q == OutputDivider(requested, mul, div) && q + 1 <= k <= 128
    ensures ClockHz(mul, div, k) <= ClockHz(mul, div, q + 1) <= requested
  {
    DividerBrackets(requested, mul, div, q);
    RoundedAtMost(REFERENCE * mul, div * (q + 1), requested);
    assert div * (q + 1) <= div * k;
    RoundedFalls(REFERENCE * mul, div * (q + 1), div * k);
  }

  /** Only the two dividers next to the ideal one matter. */
  lemma TwoDividersSuffice(requested: nat, mul: nat, div: nat, q: nat, k: nat)
    requires MIN_CLOCK <= requested <= MAX_CLOCK && PairInRange(mul, div) && q == OutputDivider(requested, mul, div)
    requires Legal(mul, div, k)
    ensures 1 <= q && q + 1 <= 128
    ensures k <= q ==> Legal(mul, div, q) && Error(requested, mul, div, q) <= Error(requested, mul, div, k)
    ensures k > q ==> Legal(mul, div, q + 1) && Error(requested, mul, div, q + 1) <= Error(requested, mul, div, k)
  {
    DividerInRange(requested, mul, div);
    if k <= q {
      FastSide(requested, mul, div, q, k);
    } else {
      SlowSide(requested, mul, div, q, k);
    }
  }

  // ---- the search ----

  datatype Best = Best(error: nat, hz: nat, mul: nat, div: nat, div2: nat)

  const NOTHING := Best(NO_ERROR_YET, 0, 0, 0, 0)

  predicate Before(div: nat, mul: nat, div': nat, mul': nat) {
    div < div' || (div == div' && mul < mul')
  }

  /** The candidate found is a legal setting with the error it is credited with. */
  ghost predicate Honest(requested: nat, b: Best) {
    if b.hz == 0 then b == NOTHING
    else Legal(b.mul, b.div, b.div2) && b.hz == ClockHz(b.mul, b.div, b.div2) && b.error == Error(requested, b.mul, b.div, b.div2)
  }

  /** No legal setting of an earlier pair is better, */
  ghost predicate BestBefore(requested: nat, b: Best, div: nat, mul: nat) {
    forall m: nat, d: nat, k: nat :: Legal(m, d, k) && Before(d, m, div, mul) ==> b.error <= Error(requested, m, d, k)
  }

  /** and none of a pair before its own is as good: ties keep the first. */
  ghost predicate FirstOfTies(requested: nat, b: Best) {
    b.hz != 0 ==> BetterThanEarlier(requested, b)
  }

  ghost predicate BetterThanEarlier(requested: nat, b: Best) {
    forall m: nat, d: nat, k: nat :: Legal(m, d, k) && Before(d, m, b.div, b.mul) ==> b.error < Error(requested, m, d, k)
  }

  /** One candidate of the innermost loop */
  method Consider(requested: nat, mul: nat, div: nat, candidate: nat, b: Best) returns (r: Best)
    requires MIN_CLOCK <= requested <= MAX_CLOCK && PairInRange(mul, div)
    requires Honest(requested, b) && FirstOfTies(requested, b) && BestBefore(requested, b, div, mul)
    ensures Honest(requested, r) && FirstOfTies(requested, r) && BestBefore(requested, r, div, mul)
    ensures r.error <= b.error && (Legal(mul, div, candidate) ==> r.error <= Error(requested, mul, div, candidate))
  {
    r := b;
    if candidate < 1 || candidate > 128 {
      return;
    }
    var hz := ClockHz(mul, div, candidate);
    if hz < MIN_CLOCK || hz > MAX_CLOCK {
      return;
    }
    var error := if hz > requested then hz - requested else requested - hz;
    if error < b.error {
      r := Best(error, hz, mul, div, candidate);
    }
  }

  /** The innermost loop */
  method TryDividers(requested: nat, mul: nat, div: nat, b: Best) returns (r: Best)
    requires MIN_CLOCK <= requested <= MAX_CLOCK && PairInRange(mul, div) && b.error != 0
    requires Honest(requested, b) && FirstOfTies(requested, b) && BestBefore(requested, b, div, mul)
    ensures Honest(requested, r) && FirstOfTies(requested, r) && BestBefore(requested, r, div, mul + 1)
  {
    var q := OutputDivider(requested, mul, div);
    DividerInRange(requested, mul, div);
    r := b;
    var candidate := q;
    while candidate <= q + 1 && r.error != 0
      invariant q <= candidate <= q + 2
      invariant Honest(requested, r) && FirstOfTies(requested, r) && BestBefore(requested, r, div, mul)
      invariant forall c: nat :: q <= c < candidate && Legal(mul, div, c) ==> r.error <= Error(requested, mul, div, c)
      decreases q + 2 - candidate
    {
      r := Consider(requested, mul, div, candidate, r);
      candidate := candidate + 1;
    }
    PairDone(requested, mul, div, q, r);
  }

  lemma PairDone(requested: nat, mul: nat, div: nat, q: nat, r: Best)
    requires MIN_CLOCK <= requested <= MAX_CLOCK && PairInRange(mul, div) && q == OutputDivider(requested, mul, div)
    requires BestBefore(requested, r, div, mul)
    requires r.error == 0 || forall c: nat :: q <= c < q + 2 && Legal(mul, div, c) ==> r.error <= Error(requested, mul, div, c)
    ensures BestBefore(requested, r, div, mul + 1)
  {
    forall m: nat, d: nat, k: nat | Legal(m, d, k) && Before(d, m, div, mul + 1)
      ensures r.error <= Error(requested, m, d, k)
    {
      if m == mul && d == div {
        TwoDividersSuffice(requested, mul, div, q, k);
      }
    }
  }

  /** The loop over multipliers */
  method TryMultipliers(requested: nat, div: nat, b: Best) returns (r: Best)
    requires MIN_CLOCK <= requested <= MAX_CLOCK && 1 <= div <= 5 && b.error != 0
    requires Honest(requested, b) && FirstOfTies(requested, b) && BestBefore(requested, b, div, 0)
    ensures Honest(requested, r) && FirstOfTies(requested, r) && BestBefore(requested, r, div + 1, 0)
  {
    r := b;
    var mul := 10 * div;
    assert BestBefore(requested, r, div, mul);
    while mul <= 64 && mul <= 15 * div && r.error != 0
      invariant mul >= 10 * div
      invariant Honest(requested, r) && FirstOfTies(requested, r) && BestBefore(requested, r, div, mul)
      decreases 65 - mul
    {
      r := TryDividers(requested, mul, div, r);
      mul := mul + 1;
    }
    assert r.error == 0 || forall m: nat, k: nat :: Legal(m, div, k) ==> m < mul;
  }

  ghost predicate AllAtLeast(requested: nat, error: nat) {
    forall m: nat, d: nat, k: nat :: Legal(m, d, k) ==> error <= Error(requested, m, d, k)
  }

  /** Whether any legal setting is within half a percent. */
  ghost predicate Reachable(requested: nat) {
    exists m: nat, d: nat, k: nat :: Legal(m, d, k) && Error(requested, m, d, k) <= requested / 200
  }

  /** zz_custom_resolve_clock */
  method ResolveClock(requested: nat) returns (hz: nat, mul: nat, div: nat, div2: nat)
    ensures hz != 0 <==> MIN_CLOCK <= requested <= MAX_CLOCK && Reachable(requested)
    ensures hz != 0 ==> Legal(mul, div, div2) && hz == ClockHz(mul, div, div2)
    ensures hz != 0 ==> Error(requested, mul, div, div2) <= requested / 200
    ensures hz != 0 ==> AllAtLeast(requested, Error(requested, mul, div, div2))
    ensures hz != 0 ==> BetterThanEarlier(requested, Best(Error(requested, mul, div, div2), hz, mul, div, div2))
  {
    hz, mul, div, div2 := 0, 0, 0, 0;
    if requested < MIN_CLOCK || requested > MAX_CLOCK {
      return;
    }
    var best := NOTHING;
    var d := 1;
    while d <= 5 && best.error != 0
      invariant 1 <= d <= 6
      invariant Honest(requested, best) && FirstOfTies(requested, best) && BestBefore(requested, best, d, 0)
      decreases 6 - d
    {
      best := TryMultipliers(requested, d, best);
      d := d + 1;
    }
    assert AllAtLeast(requested, best.error);
    if best.hz == 0 || best.error > requested / 200 {
      return;
    }
    hz, mul, div, div2 := best.hz, best.mul, best.div, best.div2;
    assert Legal(mul, div, div2) && Error(requested, mul, div, div2) <= requested / 200;
  }
}
