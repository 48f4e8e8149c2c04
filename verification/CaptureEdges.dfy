/** A calibration run: the coarse sweep, the choice of an interval, and the search for its edges,
    against measurements that may come out any way. */
module CaptureEdges {
  import opened CaptureEye

  datatype Verdict = Clean | Dirty | Failed

  /** One measurement: the phase it was taken at, and its outcome. */
  datatype Test = Test(phase: int, verdict: Verdict)

  /** The k-th measurement of a run, at a phase. */
  type Bench = (nat, int) -> Verdict

  /** struct zz_capture_boundary: offsets from an origin that need not be a phase itself */
  datatype Boundary = Boundary(origin: int, good: nat, bad: nat)

  function Gap(e: Boundary): nat { if e.good > e.bad then e.good - e.bad else e.bad - e.good }

  /** zz_capture_boundary_pending */
  predicate Pending(e: Boundary) { if e.good > e.bad then e.good - e.bad > 1 else e.bad - e.good > 1 }

  function Middle(e: Boundary): nat { (e.good + e.bad) / 2 }

  /** zz_capture_boundary_record */
  function Record(e: Boundary, clean: bool): Boundary {
    if clean then e.(good := Middle(e)) else e.(bad := Middle(e))
  }

  /** The good end was measured clean, the bad end dirty. */
  ghost predicate Bracketed(e: Boundary, log: seq<Test>) {
    Test(OnCircle(e.origin + e.good), Clean) in log && Test(OnCircle(e.origin + e.bad), Dirty) in log
  }

  /** The widest gap left after some tests of a 28-step bracket */
  function GapBound(tests: nat): nat {
    match tests
    case 0 => 28
    case 1 => 14
    case 2 => 7
    case 3 => 4
    case 4 => 2
    case _ => 1
  }

  /** Both directions of a bracket stay what they were. */
  predicate SameSide(e: Boundary, f: Boundary) {
    f.origin == e.origin && (e.good > e.bad <==> f.good > f.bad) && f.good != f.bad
    && Least(e) <= Least(f) && Most(f) <= Most(e)
  }

  function Least(e: Boundary): nat { if e.good > e.bad then e.bad else e.good }

  function Most(e: Boundary): nat { if e.good > e.bad then e.good else e.bad }

  ghost predicate Recorded(bench: Bench, log: seq<Test>) {
    forall k :: 0 <= k < |log| ==> log[k].verdict == bench(k, log[k].phase)
  }

  ghost predicate NoFailure(log: seq<Test>) { forall k :: 0 <= k < |log| ==> !log[k].verdict.Failed? }

  /** One more measurement */
  method Measure(bench: Bench, phase: int, log: seq<Test>) returns (verdict: Verdict, all: seq<Test>)
    requires Recorded(bench, log) && NoFailure(log)
    ensures all == log + [Test(phase, verdict)] && Recorded(bench, all) && (verdict.Failed? <==> !NoFailure(all))
  {
    verdict := bench(|log|, phase);
    all := log + [Test(phase, verdict)];
    assert all[|log|] == Test(phase, verdict);
  }

  lemma RecordBrackets(e: Boundary, log: seq<Test>, t: Test)
    requires Bracketed(e, log) && t.phase == OnCircle(e.origin + Middle(e)) && !t.verdict.Failed? && Pending(e)
    ensures Bracketed(Record(e, t.verdict.Clean?), log + [t])
  {
    assert t in log + [t];
    assert forall u :: u in log ==> u in log + [t];
  }

  lemma RecordNarrows(e: Boundary, clean: bool, tests: nat)
    requires Pending(e) && Gap(e) <= GapBound(tests)
    ensures var f := Record(e, clean); SameSide(e, f) && 0 < Gap(f) <= GapBound(tests + 1) && Gap(f) < Gap(e)
  {
  }

  /** One round of it: the middle is measured, and becomes the good end or the bad one. */
  method RefineOnce(bench: Bench, e: Boundary, log: seq<Test>, ghost tests: nat) returns (ok: bool, f: Boundary, all: seq<Test>)
    requires Pending(e) && Bracketed(e, log) && Gap(e) <= GapBound(tests) && Recorded(bench, log) && NoFailure(log)
    ensures log <= all && |all| == |log| + 1 && Recorded(bench, all) && (ok <==> NoFailure(all))
    ensures SameSide(e, f) && 0 < Gap(f) && (ok ==> Bracketed(f, all) && Gap(f) <= GapBound(tests + 1) && Gap(f) < Gap(e))
  {
    WrapIsOnCircle(e.origin + Middle(e));
    var verdict;
    verdict, all := Measure(bench, PhaseWrap(e.origin + Middle(e)), log);
    if verdict.Failed? {
      return false, e, all;
    }
    RecordNarrows(e, verdict.Clean?, tests);
    RecordBrackets(e, log, all[|log|]);
    ok, f := true, Record(e, verdict.Clean?);
  }

  lemma SameSideOn(e: Boundary, f: Boundary, g: Boundary)
    requires SameSide(e, f) && SameSide(f, g)
    ensures SameSide(e, g)
  {
  }

  /** The refinement loop for one edge */
  method Refine(bench: Bench, edge: Boundary, log: seq<Test>) returns (ok: bool, e: Boundary, all: seq<Test>)
    requires Bracketed(edge, log) && 0 < Gap(edge) <= BIN_STEPS && Recorded(bench, log) && NoFailure(log)
    ensures log <= all && |all| <= |log| + 5 && SameSide(edge, e)
    ensures ok ==> Gap(e) == 1 && Bracketed(e, all)
    ensures Recorded(bench, all) && (ok <==> NoFailure(all))
  {
    ok, e, all := true, edge, log;
    while ok && Pending(e)
      invariant log <= all && |all| <= |log| + 5 && SameSide(edge, e) && 0 < Gap(e)
      invariant ok ==> Bracketed(e, all) && Gap(e) <= GapBound(|all| - |log|)
      invariant Recorded(bench, all) && (ok <==> NoFailure(all))
      decreases ok, Gap(e)
    {
      ghost var before := e;
      ok, e, all := RefineOnce(bench, e, all, |all| - |log|);
      SameSideOn(edge, before, e);
    }
  }

  // ---- the sweep ----

  function BinPhase(i: nat): int { MIN_PHASE + i * BIN_STEPS }

  /** What the sweep found in each bin is in the log. */
  ghost predicate Swept(clean: seq<bool>, log: seq<Test>) {
    forall i :: 0 <= i < |clean| ==> Test(BinPhase(i), if clean[i] then Clean else Dirty) in log
  }

  method Sweep(bench: Bench) returns (ok: bool, clean: seq<bool>, log: seq<Test>)
    ensures |log| <= BINS && Recorded(bench, log) && (ok <==> NoFailure(log))
    ensures ok ==> |clean| == BINS == |log| && Swept(clean, log)
  {
    clean, log := [], [];
    for i := 0 to BINS
      invariant |clean| == i == |log| && Swept(clean, log)
      invariant forall k :: 0 <= k < |log| ==> log[k].verdict == bench(k, log[k].phase) && !log[k].verdict.Failed?
    {
      var verdict := bench(i, BinPhase(i));
      ghost var before := log;
      log := log + [Test(BinPhase(i), verdict)];
      assert log[i] == Test(BinPhase(i), verdict);
      if verdict.Failed? {
        return false, clean, log;
      }
      clean := clean + [verdict.Clean?];
      assert forall t :: t in before ==> t in log;
    }
    ok := true;
  }

  /** The phase of a bin, counted round the circle */
  lemma BinWraps(i: nat)
    requires i < 2 * BINS
    ensures OnCircle(BinPhase(i)) == BinPhase(i % BINS)
  {
    var b := i % BINS;
    assert b == if i < BINS then i else i - BINS;
    assert BinPhase(i) - BinPhase(b) == if i < BINS then 0 else STEPS;
  }

  lemma BinBefore(start: nat)
    requires start < BINS
    ensures OnCircle(BinPhase(start) - BIN_STEPS) == BinPhase((start + LAST) % BINS)
  {
    var b := (start + LAST) % BINS;
    assert b == if start == 0 then LAST else start - 1;
    assert BinPhase(start) - BIN_STEPS - BinPhase(b) == if start == 0 then -STEPS else 0;
  }

  lemma BinLogged(clean: Mask, log: seq<Test>, start: nat, offset: nat)
    requires Swept(clean, log) && start < BINS
    ensures Test(BinPhase((start + offset) % BINS), if At(clean, start, offset) then Clean else Dirty) in log
  {
  }

  /** The two brackets round an interval: its coarse ends are clean, the bins next to them dirty. */
  lemma LowerBracket(clean: Mask, log: seq<Test>, start: nat, bins: nat)
    requires Swept(clean, log) && MaximalRun(clean, start, bins)
    ensures Bracketed(Boundary(BinPhase(start) - BIN_STEPS, BIN_STEPS, 0), log)
  {
    BinWraps(start);
    BinBefore(start);
    BinLogged(clean, log, start, 0);
    BinLogged(clean, log, start, LAST);
    assert At(clean, start, 0);
  }

  lemma UpperBracket(clean: Mask, log: seq<Test>, start: nat, bins: nat)
    requires Swept(clean, log) && MaximalRun(clean, start, bins)
    ensures Bracketed(Boundary(BinPhase(start) + (bins - 1) * BIN_STEPS, 0, BIN_STEPS), log)
  {
    var last := start + (bins - 1);
    BinWraps(last);
    BinWraps(start + bins);
    assert BinPhase(last) == BinPhase(start) + (bins - 1) * BIN_STEPS;
    assert BinPhase(start + bins) == BinPhase(last) + BIN_STEPS;
    BinLogged(clean, log, start, bins - 1);
    BinLogged(clean, log, start, bins);
    assert At(clean, start, bins - 1);
  }

  datatype Calibration = NoInterval | NoBoundary | Aborted | Unstable
                       | Passed(first: int, last: int, phase: int, margin: nat)

  /** An end was measured clean and the step beyond it dirty. */
  ghost predicate Edges(log: seq<Test>, first: int, last: int) {
    && Test(OnCircle(first), Clean) in log && Test(OnCircle(first - 1), Dirty) in log
    && Test(OnCircle(last), Clean) in log && Test(OnCircle(last + 1), Dirty) in log
  }

  /** The measuring part of calibrate */
  method Calibrate(bench: Bench, entry: int) returns (r: Calibration, log: seq<Test>)
    ensures |log| <= BINS + 5 + 5 + 1 && Recorded(bench, log) && (r.Aborted? <==> !NoFailure(log))
    ensures Justified(r, log)
  {
    var ok, bins;
    ok, bins, log := Sweep(bench);
    if !ok {
      return Aborted, log;
    }
    var found, eye := SelectEye(bins, entry);
    if !found {
      return NoInterval, log;
    }
    r, log := MeasureEye(bench, bins, eye, log);
  }

  /** Once an interval was chosen */
  method MeasureEye(bench: Bench, bins: seq<bool>, eye: Eye, log: seq<Test>) returns (r: Calibration, all: seq<Test>)
    requires |bins| == BINS && Recorded(bench, log) && NoFailure(log) && Swept(bins, log)
    requires !eye.fullCircle ==> MIN_EYE <= eye.bins && MaximalRun(bins, eye.startBin, eye.bins)
    ensures |all| <= |log| + 11 && Recorded(bench, all) && (r.Aborted? <==> !NoFailure(all)) && Justified(r, all)
  {
    if eye.fullCircle {
      return NoBoundary, log;
    }
    LowerBracket(bins, log, eye.startBin, eye.bins);
    UpperBracket(bins, log, eye.startBin, eye.bins);
    r, all := MeasureInterval(bench, BinPhase(eye.startBin), eye.bins, log);
  }

  /** What a calibration that passed has measured: both edges to one step, and the middle for longer. */
  ghost predicate Justified(r: Calibration, log: seq<Test>) {
    r.Passed? ==>
      && Edges(log, r.first, r.last) && 2 * BIN_STEPS <= r.last - r.first < STEPS
      && log != [] && log[|log| - 1] == Test(r.phase, Clean) && r.phase == OnCircle(r.first + r.margin)
      && r.margin == (r.last - r.first) / 2
  }

  /** The rest of calibrate: refine both edges, then check the middle */
  method MeasureInterval(bench: Bench, firstBin: int, bins: nat, log: seq<Test>) returns (r: Calibration, all: seq<Test>)
    requires MIN_EYE <= bins < BINS && Recorded(bench, log) && NoFailure(log)
    requires Bracketed(Boundary(firstBin - BIN_STEPS, BIN_STEPS, 0), log)
    requires Bracketed(Boundary(firstBin + (bins - 1) * BIN_STEPS, 0, BIN_STEPS), log)
    ensures |all| <= |log| + 11 && Recorded(bench, all) && (r.Aborted? <==> !NoFailure(all)) && Justified(r, all)
  {
    var ok, first, last, refined := RefineBoth(bench, firstBin, bins, log);
    if !ok {
      return Aborted, refined;
    }
    r, all := LongCheck(bench, first, last, refined);
  }

  ghost predicate Refined(ok: bool, log: seq<Test>, first: int, last: int) {
    ok ==> Edges(log, first, last) && 2 * BIN_STEPS <= last - first < STEPS
  }

  /** Both edges, one after the other */
  method RefineBoth(bench: Bench, firstBin: int, bins: nat, log: seq<Test>) returns (ok: bool, first: int, last: int, all: seq<Test>)
    requires MIN_EYE <= bins < BINS && Recorded(bench, log) && NoFailure(log)
    requires Bracketed(Boundary(firstBin - BIN_STEPS, BIN_STEPS, 0), log)
    requires Bracketed(Boundary(firstBin + (bins - 1) * BIN_STEPS, 0, BIN_STEPS), log)
    ensures |all| <= |log| + 10 && Recorded(bench, all) && (ok <==> NoFailure(all))
    ensures Refined(ok, all, first, last)
  {
    var lower, upper := Boundary(firstBin - BIN_STEPS, BIN_STEPS, 0), Boundary(firstBin + (bins - 1) * BIN_STEPS, 0, BIN_STEPS);
    first, last := 0, 0;
    ok, lower, all := Refine(bench, lower, log);
    if !ok {
      return;
    }
    BracketKept(upper, log, all);
    var half := all;
    ok, upper, all := Refine(bench, upper, half);
    if !ok {
      return;
    }
    BracketKept(lower, half, all);
    first, last := lower.origin + lower.good, upper.origin + upper.good;
    EdgesFound(firstBin, bins, lower, upper, first, last, all);
  }

  lemma EdgesFound(firstBin: int, bins: nat, lower: Boundary, upper: Boundary,
                   first: int, last: int, log: seq<Test>)
    requires first == lower.origin + lower.good && last == upper.origin + upper.good
    requires MIN_EYE <= bins < BINS && Gap(lower) == 1 && Gap(upper) == 1 && Bracketed(lower, log) && Bracketed(upper, log)
    requires SameSide(Boundary(firstBin - BIN_STEPS, BIN_STEPS, 0), lower)
    requires SameSide(Boundary(firstBin + (bins - 1) * BIN_STEPS, 0, BIN_STEPS), upper)
    ensures Refined(true, log, first, last)
  {
    assert lower.origin + lower.bad == first - 1;
    assert upper.origin + upper.bad == last + 1;
  }

  lemma BracketKept(e: Boundary, log: seq<Test>, all: seq<Test>)
    requires Bracketed(e, log) && log <= all
    ensures Bracketed(e, all)
  {
    assert forall t :: t in log ==> t in all;
  }

  /** The longer check in the middle of the refined interval */
  method LongCheck(bench: Bench, first: int, last: int, log: seq<Test>) returns (r: Calibration, all: seq<Test>)
    requires Refined(true, log, first, last)
    requires Recorded(bench, log) && NoFailure(log)
    ensures log <= all && |all| == |log| + 1 && all[|log|].phase == OnCircle(first + (last - first) / 2)
    ensures Recorded(bench, all) && Justified(r, all)
    ensures match all[|log|].verdict
            case Failed => r.Aborted? && !NoFailure(all)
            case Dirty => r.Unstable? && NoFailure(all)
            case Clean => r.Passed? && (r.first, r.last) == (first, last) && NoFailure(all)
  {
    var margin := (last - first) / 2;
    WrapIsOnCircle(first + margin);
    var phase := PhaseWrap(first + margin);
    var verdict := bench(|log|, phase);
    all := log + [Test(phase, verdict)];
    assert all[|log|] == Test(phase, verdict);
    assert forall t :: t in log ==> t in all;
    r := match verdict
      case Failed => Aborted
      case Dirty => Unstable
      case Clean => Passed(first, last, phase, margin);
  }
}
