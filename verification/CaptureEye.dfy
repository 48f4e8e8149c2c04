/** Choosing the clean interval on the circle of sampling phases. */
module CaptureEye {

  const STEPS := 1792
  const MIN_PHASE := -896
  const MAX_PHASE := 895
  const BINS := 64
  const LAST: nat := 63
  const BIN_STEPS := 28
  const MIN_EYE := 3

  /** The C remainder: it takes the sign of the dividend. */
  function Remainder(a: int, b: nat): int
    requires b > 0
  {
    if a >= 0 then a % b else -((-a) % b)
  }

  /** zz_capture_phase_wrap */
  function PhaseWrap(phase: int): int {
    var p := Remainder(phase, STEPS);
    var q := if p < MIN_PHASE then p + STEPS else p;
    if q > MAX_PHASE then q - STEPS else q
  }

  /** Apart by whole turns */
  predicate SamePhase(a: int, b: int) { (a - b) % STEPS == 0 }

  predicate InRange(phase: int) { MIN_PHASE <= phase <= MAX_PHASE }

  /** The one phase in the signed range that differs by whole turns. */
  lemma WrapIsCanonical(phase: int)
    ensures InRange(PhaseWrap(phase)) && SamePhase(phase, PhaseWrap(phase))
    ensures forall p: int :: InRange(p) && SamePhase(phase, p) ==> p == PhaseWrap(phase)
  {
    RemainderIsSame(phase);
    var w := PhaseWrap(phase);
    forall p: int | InRange(p) && SamePhase(phase, p) ensures p == w {
      OnePhase(phase, p, w);
    }
  }

  lemma RemainderIsSame(phase: int)
    ensures -STEPS < Remainder(phase, STEPS) < STEPS && SamePhase(phase, Remainder(phase, STEPS))
    ensures InRange(PhaseWrap(phase)) && SamePhase(phase, PhaseWrap(phase))
  {
    var p := Remainder(phase, STEPS);
    var turns := if phase >= 0 then phase / STEPS else -((-phase) / STEPS);
    assert phase - p == turns * STEPS;
    var w := PhaseWrap(phase);
    assert phase - w == (if p < MIN_PHASE then turns - 1 else if p > MAX_PHASE then turns + 1 else turns) * STEPS;
  }

  lemma OnePhase(phase: int, p: int, w: int)
    requires InRange(p) && InRange(w) && SamePhase(phase, p) && SamePhase(phase, w)
    ensures p == w
  {
    assert (p - w) % STEPS == 0;
  }

  /** The same phase, by the floored remainder. */
  function OnCircle(phase: int): int { (phase - MIN_PHASE) % STEPS + MIN_PHASE }

  lemma WrapIsOnCircle(phase: int)
    ensures PhaseWrap(phase) == OnCircle(phase)
  {
    WrapIsCanonical(phase);
    var p := OnCircle(phase);
    var turns := (phase - MIN_PHASE) / STEPS;
    assert phase - p == turns * STEPS;
  }

  /** zz_capture_phase_distance */
  function Distance(a: int, b: int): (d: nat)
  {
    var w := PhaseWrap(a - b);
    if w < 0 then -w else w
  }

  function Magnitude(d: int): nat { if d < 0 then -d else d }

  /** It is the shorter way round. */
  lemma DistanceIsShortest(a: int, b: int, d: int)
    requires SamePhase(a - b, d)
    ensures Distance(a, b) <= Magnitude(d)
  {
    WrapIsCanonical(a - b);
    var w := PhaseWrap(a - b);
    assert (w - d) % STEPS == 0;
    assert Magnitude(d) < STEPS / 2 ==> InRange(d) && d == w;
  }

  // ---- runs of clean bins ----

  type Mask = m: seq<bool> | |m| == BINS witness seq(BINS, _ => false)

  /** The bin `offset` places after start, round the circle */
  function At(clean: Mask, start: nat, offset: nat): bool { clean[(start + offset) % BINS] }

  predicate CleanRun(clean: Mask, start: nat, length: nat) {
    forall j :: 0 <= j < length ==> At(clean, start, j)
  }

  predicate AllClean(clean: Mask) { forall i :: 0 <= i < BINS ==> clean[i] }

  /** A run with a dirty bin on either side. */
  predicate MaximalRun(clean: Mask, start: nat, length: nat) {
    && start < BINS && 0 < length < BINS && CleanRun(clean, start, length)
    && !At(clean, start, LAST) && !At(clean, start, length)
  }

  /** The phase in the middle of a run */
  function Center(start: nat, length: nat): int
    requires length > 0
  {
    PhaseWrap(MIN_PHASE + start * BIN_STEPS + (length - 1) * BIN_STEPS / 2)
  }

  lemma MaximalUnique(clean: Mask, start: nat, n: nat, m: nat)
    requires MaximalRun(clean, start, n) && MaximalRun(clean, start, m)
    ensures n == m
  {
    assert n < m ==> At(clean, start, n);
    assert m < n ==> At(clean, start, m);
  }

  /** The bin `offset` places before start */
  function Back(clean: Mask, start: nat, offset: nat): bool
    requires offset < BINS
  {
    clean[(start + (BINS - 1 - offset)) % BINS]
  }

  /** Every run of clean bins lies in a maximal one, so the longest maximal run is the longest of all. */
  lemma RunInMaximal(clean: Mask, start: nat, length: nat) returns (s: nat, n: nat)
    requires !AllClean(clean) && start < BINS && 0 < length && CleanRun(clean, start, length)
    ensures MaximalRun(clean, s, n) && length <= n
  {
    DirtyBehind(clean, start);
    var back := 0;
    while Back(clean, start, back)
      invariant back < BINS && forall j :: 0 <= j < back ==> Back(clean, start, j)
      decreases BINS - back
    {
      back := back + 1;
    }
    s := (start + (BINS - back)) % BINS;
    Extend(clean, start, length, back, s);
    n := Grow(clean, s, back + length);
  }

  lemma DirtyBehind(clean: Mask, start: nat)
    requires !AllClean(clean) && start < BINS
    ensures exists j :: 0 <= j < BINS && !Back(clean, start, j)
  {
    var dirty :| 0 <= dirty < BINS && !clean[dirty];
    var j := if dirty < start then start - 1 - dirty else start + BINS - 1 - dirty;
    assert (start + (BINS - 1 - j)) % BINS == dirty;
    assert !Back(clean, start, j);
  }

  lemma ModAdd(a: nat, b: nat)
    ensures (a % BINS + b) % BINS == (a + b) % BINS
  {
  }

  /** Going back over clean bins extends the run. */
  lemma Extend(clean: Mask, start: nat, length: nat, back: nat, s: nat)
    requires start < BINS && back < BINS && s == (start + (BINS - back)) % BINS && CleanRun(clean, start, length)
    requires (forall j :: 0 <= j < back ==> Back(clean, start, j)) && !Back(clean, start, back)
    ensures CleanRun(clean, s, back + length) && !At(clean, s, LAST)
  {
    forall j | 0 <= j < back + length ensures At(clean, s, j) {
      if j < back {
        ExtendedBack(clean, start, back, s, j);
      } else {
        ExtendedOn(clean, start, back, s, j);
      }
    }
    ModAdd(start + (BINS - back), LAST);
  }

  lemma ExtendedBack(clean: Mask, start: nat, back: nat, s: nat, j: nat)
    requires start < BINS && back < BINS && s == (start + (BINS - back)) % BINS && j < back
    ensures At(clean, s, j) == Back(clean, start, back - 1 - j)
  {
    ModAdd(start + (BINS - back), j);
  }

  lemma ExtendedOn(clean: Mask, start: nat, back: nat, s: nat, j: nat)
    requires start < BINS && back < BINS && s == (start + (BINS - back)) % BINS && back <= j
    ensures At(clean, s, j) == At(clean, start, j - back)
  {
    ModAdd(start + (BINS - back), j);
  }

  lemma Grow(clean: Mask, s: nat, n: nat) returns (m: nat)
    requires s < BINS && 0 < n && CleanRun(clean, s, n) && !At(clean, s, LAST)
    ensures n <= m && MaximalRun(clean, s, m)
  {
    assert n >= BINS ==> At(clean, s, LAST);
    m := n;
    while m < BINS - 1 && At(clean, s, m)
      invariant n <= m < BINS && CleanRun(clean, s, m)
    {
      m := m + 1;
    }
  }

  // ---- the choice ----

  datatype Eye = Eye(startBin: nat, bins: nat, phase: int, margin: nat, fullCircle: bool)

  /** Is run (s, n) a worse choice than (start, bins), or the same? */
  predicate NoBetter(entry: int, s: nat, n: nat, start: nat, bins: nat)
    requires n > 0 && bins > 0
  {
    || n < bins
    || (n == bins && (Distance(Center(s, n), entry) > Distance(Center(start, bins), entry)
                      || (Distance(Center(s, n), entry) == Distance(Center(start, bins), entry) && s >= start)))
  }

  /** Of the runs starting before bin i, the best that is wide enough so far */
  ghost predicate BestOf(clean: Mask, entry: int, i: nat, best: nat, bestDistance: nat, eye: Eye) {
    if best == 0 then forall s: nat, n: nat :: s < i && MaximalRun(clean, s, n) ==> n < MIN_EYE
    else
      && best >= MIN_EYE && best == eye.bins && eye.startBin < i && MaximalRun(clean, eye.startBin, best)
      && bestDistance == Distance(Center(eye.startBin, best), entry)
      && eye.phase == Center(eye.startBin, best) && eye.margin == (best - 1) * BIN_STEPS / 2
      && forall s: nat, n: nat :: s < i && MaximalRun(clean, s, n) ==> NoBetter(entry, s, n, eye.startBin, best)
  }

  /** The inner while loop */
  method RunLength(clean: Mask, start: nat) returns (length: nat)
    requires !AllClean(clean) && start < BINS && clean[start] && !At(clean, start, LAST)
    ensures MaximalRun(clean, start, length)
  {
    length := 0;
    while length < BINS && At(clean, start, length)
      invariant length <= BINS && CleanRun(clean, start, length)
    {
      length := length + 1;
    }
    assert length == BINS ==> At(clean, start, LAST);
  }

  /** zz_capture_select_eye */
  method SelectEye(clean: Mask, entry: int) returns (found: bool, eye: Eye)
    ensures AllClean(clean) ==> found && eye == Eye(0, BINS, PhaseWrap(entry), STEPS / 2, true)
    ensures !AllClean(clean) ==> !eye.fullCircle
    ensures !AllClean(clean) ==>
              (found <==> exists s: nat, n: nat :: n >= MIN_EYE && MaximalRun(clean, s, n))
    ensures !AllClean(clean) && found ==>
              && eye.bins >= MIN_EYE && MaximalRun(clean, eye.startBin, eye.bins)
              && eye.phase == Center(eye.startBin, eye.bins) && eye.margin == (eye.bins - 1) * BIN_STEPS / 2
              && forall s: nat, n: nat :: MaximalRun(clean, s, n) ==> NoBetter(entry, s, n, eye.startBin, eye.bins)
  {
    var total := 0;
    for i := 0 to BINS
      invariant total <= i && (total == i <==> forall j :: 0 <= j < i ==> clean[j])
    {
      total := total + if clean[i] then 1 else 0;
    }
    if total == BINS {
      return true, Eye(0, BINS, PhaseWrap(entry), STEPS / 2, true);
    }
    eye := Eye(0, 0, 0, 0, false);
    var best: nat, bestDistance: nat := 0, STEPS;
    for i := 0 to BINS
      invariant BestOf(clean, entry, i, best, bestDistance, eye) && !eye.fullCircle
    {
      if clean[i] && !At(clean, i, LAST) {
        var length := RunLength(clean, i);
        var center := PhaseWrap(MIN_PHASE + (i * BIN_STEPS + (length - 1) * BIN_STEPS / 2));
        var distance := Distance(center, entry);
        OneRunPerStart(clean, i, length);
        if !(length < MIN_EYE || length < best || (length == best && distance >= bestDistance)) {
          best, bestDistance := length, distance;
          eye := Eye(i, length, center, (length - 1) * BIN_STEPS / 2, false);
        }
      } else {
        NoRunStarts(clean, i);
      }
    }
    found := best != 0;
  }

  lemma OneRunPerStart(clean: Mask, i: nat, length: nat)
    requires MaximalRun(clean, i, length)
    ensures forall n: nat :: MaximalRun(clean, i, n) ==> n == length
  {
    forall n: nat | MaximalRun(clean, i, n) ensures n == length {
      MaximalUnique(clean, i, n, length);
    }
  }

  lemma NoRunStarts(clean: Mask, i: nat)
    requires i < BINS && !(clean[i] && !At(clean, i, LAST))
    ensures forall n: nat :: !MaximalRun(clean, i, n)
  {
    forall n: nat ensures !MaximalRun(clean, i, n) {
      assert CleanRun(clean, i, n) && n > 0 ==> At(clean, i, 0);
    }
  }

  /** The eye is as wide as any circular run of clean bins, and none of three or more exists without one. */
  lemma EyeIsLongest(clean: Mask, entry: int, found: bool, eye: Eye, start: nat, length: nat)
    requires !AllClean(clean) && start < BINS && CleanRun(clean, start, length)
    requires found <==> exists s: nat, n: nat :: n >= MIN_EYE && MaximalRun(clean, s, n)
    requires found ==> eye.bins >= MIN_EYE
                       && forall s: nat, n: nat :: MaximalRun(clean, s, n) ==> NoBetter(entry, s, n, eye.startBin, eye.bins)
    ensures if found then length <= eye.bins else length < MIN_EYE
  {
    if length > 0 {
      var s, n := RunInMaximal(clean, start, length);
    }
  }
}
