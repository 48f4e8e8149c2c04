/** The capture loop of one measurement: fields arrive in an order nobody controls, and each needed
    field keeps its own deadline. */
module CaptureFields {

  type Pixels = seq<int>

  /** The k-th capture: whether its snapshot succeeds, its parity and its pixels. */
  datatype Feed = Feed(arrives: nat -> bool, parity: nat -> nat, pixels: nat -> Pixels)

  /** How pixels are judged: against the picture, and against an earlier capture. */
  datatype Judge = Judge(errors: Pixels -> nat, changed: (Pixels, Pixels) -> nat)

  /** The parity that counts: progressive captures are all of field 0. */
  function Field(feed: Feed, lace: bool, k: nat): (p: nat)
    ensures p < 2
  {
    if lace && feed.parity(k) != 0 then 1 else 0
  }

  predicate Needed(lace: bool, p: nat) { p == 0 || (p == 1 && lace) }

  // ---- what has arrived after n captures ----

  function Samples(feed: Feed, lace: bool, p: nat, n: nat): (s: nat)
    ensures s <= n
  {
    if n == 0 then 0 else Samples(feed, lace, p, n - 1) + if Field(feed, lace, n - 1) == p then 1 else 0
  }

  /** Comparisons start with the second capture of a field. */
  function Comparisons(feed: Feed, lace: bool, p: nat, n: nat): nat {
    var s := Samples(feed, lace, p, n);
    if s == 0 then 0 else s - 1
  }

  /** The number of the last capture of a field, counting from 1; 0 before there is one */
  function Last(feed: Feed, lace: bool, p: nat, n: nat): (l: nat)
    ensures l <= n && (l > 0 ==> Field(feed, lace, l - 1) == p)
    ensures forall k :: l <= k < n ==> Field(feed, lace, k) != p
    ensures l == 0 <==> Samples(feed, lace, p, n) == 0
  {
    if n == 0 then 0 else if Field(feed, lace, n - 1) == p then n else Last(feed, lace, p, n - 1)
  }

  function FieldLimit(count: nat): nat { 6 * (count + 1) }

  function TotalLimit(count: nat, lace: bool): nat { FieldLimit(count) * (if lace then count + 1 else 1) }

  predicate Incomplete(feed: Feed, lace: bool, p: nat, count: nat, n: nat) {
    Comparisons(feed, lace, p, n) < count
  }

  predicate QuotasMet(feed: Feed, lace: bool, count: nat, n: nat) {
    !Incomplete(feed, lace, 0, count, n) && (lace ==> !Incomplete(feed, lace, 1, count, n))
  }

  /** A field needed but absent for its whole deadline */
  predicate Stalled(feed: Feed, lace: bool, p: nat, count: nat, n: nat) {
    Incomplete(feed, lace, p, count, n) && n - Last(feed, lace, p, n) >= FieldLimit(count)
  }

  /** Until its quota is met, the field is among any field_limit captures in a row. */
  ghost predicate Recurs(feed: Feed, lace: bool, p: nat, count: nat) {
    forall n: nat :: Incomplete(feed, lace, p, count, n) ==>
      exists k: nat :: n <= k < n + FieldLimit(count) && Field(feed, lace, k) == p
  }

  lemma {:induction false} SamplesGrow(feed: Feed, lace: bool, p: nat, m: nat, n: nat)
    requires m <= n
    ensures Samples(feed, lace, p, m) <= Samples(feed, lace, p, n)
    decreases n - m
  {
    if m < n {
      SamplesGrow(feed, lace, p, m, n - 1);
    }
  }

  /** A stall refutes recurrence, */
  lemma StallRefutes(feed: Feed, lace: bool, p: nat, count: nat, n: nat)
    requires Stalled(feed, lace, p, count, n)
    ensures !Recurs(feed, lace, p, count)
  {
    var l := Last(feed, lace, p, n);
    SamplesGrow(feed, lace, p, l, n);
    assert Incomplete(feed, lace, p, count, l);
    assert !exists k: nat :: l <= k < l + FieldLimit(count) && Field(feed, lace, k) == p;
  }

  /** and without one the field recurs as long as it was needed. */
  lemma NoStallRecurs(feed: Feed, lace: bool, p: nat, count: nat, end: nat)
    requires !Incomplete(feed, lace, p, count, end)
    requires forall n: nat :: n <= end ==> !Stalled(feed, lace, p, count, n)
    ensures Recurs(feed, lace, p, count)
  {
    forall n: nat | Incomplete(feed, lace, p, count, n)
      ensures exists k: nat :: n <= k < n + FieldLimit(count) && Field(feed, lace, k) == p
    {
      if n >= end {
        SamplesGrow(feed, lace, p, end, n);
      }
      var k := NextSample(feed, lace, p, count, n, end);
      NotLater(feed, lace, p, count, n, k);
    }
  }

  /** The first capture of the field from n on */
  lemma NextSample(feed: Feed, lace: bool, p: nat, count: nat, n: nat, end: nat) returns (k: nat)
    requires n < end && Incomplete(feed, lace, p, count, n) && !Incomplete(feed, lace, p, count, end)
    ensures n <= k < end && Field(feed, lace, k) == p && Samples(feed, lace, p, k) == Samples(feed, lace, p, n)
    ensures forall j :: n <= j < k ==> Field(feed, lace, j) != p
    ensures Last(feed, lace, p, k) == Last(feed, lace, p, n)
  {
    k := n;
    while Field(feed, lace, k) != p
      invariant n <= k < end && Samples(feed, lace, p, k) == Samples(feed, lace, p, n)
      invariant forall j :: n <= j < k ==> Field(feed, lace, j) != p
      invariant Last(feed, lace, p, k) == Last(feed, lace, p, n)
      decreases end - k
    {
      k := k + 1;
      assert k < end by {
        assert Samples(feed, lace, p, k) == Samples(feed, lace, p, n);
        assert Incomplete(feed, lace, p, count, k);
      }
    }
  }

  lemma NotLater(feed: Feed, lace: bool, p: nat, count: nat, n: nat, k: nat)
    requires n <= k && Incomplete(feed, lace, p, count, n) && Samples(feed, lace, p, k) == Samples(feed, lace, p, n)
    requires !Stalled(feed, lace, p, count, k) && Last(feed, lace, p, k) == Last(feed, lace, p, n)
    ensures k < n + FieldLimit(count)
  {
  }

  // ---- the bound ----

  /** While a field is incomplete and has not stalled, each of its captures came within its deadline. */
  ghost predicate OnTime(feed: Feed, lace: bool, p: nat, count: nat, n: nat, limit: nat) {
    Incomplete(feed, lace, p, count, n) ==>
      Within(Last(feed, lace, p, n), Samples(feed, lace, p, n), n, limit)
  }

  predicate Within(last: nat, s: nat, n: nat, limit: nat) { last <= s * limit && n < last + limit }

  ghost predicate BothOnTime(feed: Feed, lace: bool, count: nat, n: nat, limit: nat) {
    OnTime(feed, lace, 0, count, n, limit) && (lace ==> OnTime(feed, lace, 1, count, n, limit))
  }

  /** Nothing needed has stalled so far, and the quotas are not met. */
  ghost predicate Waiting(feed: Feed, lace: bool, count: nat, n: nat) {
    && (forall m: nat :: 0 < m <= n ==> !QuotasMet(feed, lace, count, m))
    && (forall m: nat :: m <= n ==> !AnyStalled(feed, lace, count, m))
  }

  predicate AnyStalled(feed: Feed, lace: bool, count: nat, n: nat) {
    Stalled(feed, lace, 0, count, n) || (lace && Stalled(feed, lace, 1, count, n))
  }

  lemma MulNext(s: nat, limit: nat)
    ensures (s + 1) * limit == s * limit + limit
  {
  }

  lemma MulLess(a: nat, b: nat, limit: nat)
    requires a <= b
    ensures a * limit <= b * limit
  {
  }

  lemma OnTimeNext(feed: Feed, lace: bool, p: nat, count: nat, n: nat, limit: nat)
    requires OnTime(feed, lace, p, count, n, limit) && limit == FieldLimit(count)
    requires !Stalled(feed, lace, p, count, n + 1)
    ensures OnTime(feed, lace, p, count, n + 1, limit)
  {
    MulNext(Samples(feed, lace, p, n), limit);
  }

  /** So the loop ends before total_limit: whatever is still needed has not used its time up. */
  lemma TimeLeft(feed: Feed, lace: bool, p: nat, count: nat, n: nat, limit: nat)
    requires Needed(lace, p) && Incomplete(feed, lace, p, count, n)
    requires Within(Last(feed, lace, p, n), Samples(feed, lace, p, n), n, limit) && limit == FieldLimit(count)
    ensures n < TotalLimit(count, lace)
  {
    var s := Samples(feed, lace, p, n);
    TotalIs(count, lace, limit);
    if lace {
      MulNext(s, limit);
      MulLess(s + 1, count + 1, limit);
    } else {
      ProgressiveSamples(feed, n);
      assert n <= count < limit;
    }
  }

  lemma TotalIs(count: nat, lace: bool, limit: nat)
    requires limit == FieldLimit(count)
    ensures TotalLimit(count, lace) == if lace then (count + 1) * limit else limit
    ensures TotalLimit(count, lace) >= limit > 0
  {
    if lace {
      MulNext(count, limit);
    }
  }

  lemma {:induction false} ProgressiveSamples(feed: Feed, n: nat)
    ensures Samples(feed, false, 0, n) == n
  {
    if n > 0 {
      ProgressiveSamples(feed, n - 1);
    }
  }

  // ---- the scores ----

  function WrongSum(feed: Feed, judge: Judge, n: nat): nat {
    if n == 0 then 0 else WrongSum(feed, judge, n - 1) + judge.errors(feed.pixels(n - 1))
  }

  /** Pixels changed since the previous capture of the same field */
  function ChangeAt(feed: Feed, judge: Judge, lace: bool, k: nat): nat {
    var l := Last(feed, lace, Field(feed, lace, k), k);
    if l == 0 then 0 else judge.changed(feed.pixels(k), feed.pixels(l - 1))
  }

  function ChangedSum(feed: Feed, judge: Judge, lace: bool, n: nat): nat {
    if n == 0 then 0 else ChangedSum(feed, judge, lace, n - 1) + ChangeAt(feed, judge, lace, n - 1)
  }

  ghost predicate Fair(judge: Judge) {
    forall a: Pixels, b: Pixels {:trigger judge.changed(a, b)} :: judge.changed(a, b) == 0 <==> a == b
  }

  lemma {:induction false} NothingAdded(feed: Feed, judge: Judge, lace: bool, n: nat, k: nat)
    requires WrongSum(feed, judge, n) == 0 && ChangedSum(feed, judge, lace, n) == 0 && k < n
    ensures judge.errors(feed.pixels(k)) == 0 && ChangeAt(feed, judge, lace, k) == 0
    decreases n
  {
    if k < n - 1 {
      NothingAdded(feed, judge, lace, n - 1, k);
    }
  }

  /** A clean score means that every capture was right and all captures of one field were the same. */
  lemma {:induction false} CleanMeans(feed: Feed, judge: Judge, lace: bool, n: nat, j: nat, k: nat)
    requires Fair(judge) && WrongSum(feed, judge, n) == 0 && ChangedSum(feed, judge, lace, n) == 0
    requires j <= k < n && Field(feed, lace, j) == Field(feed, lace, k)
    ensures judge.errors(feed.pixels(k)) == 0 && feed.pixels(j) == feed.pixels(k)
    decreases k
  {
    NothingAdded(feed, judge, lace, n, k);
    if j < k {
      var l := Unchanged(feed, judge, lace, j, k);
      CleanMeans(feed, judge, lace, n, j, l);
    }
  }

  /** An unchanged capture equals the one of its field before it. */
  lemma Unchanged(feed: Feed, judge: Judge, lace: bool, j: nat, k: nat) returns (before: nat)
    requires Fair(judge) && j < k && Field(feed, lace, j) == Field(feed, lace, k) && ChangeAt(feed, judge, lace, k) == 0
    ensures j <= before < k && Field(feed, lace, before) == Field(feed, lace, k)
    ensures feed.pixels(before) == feed.pixels(k)
  {
    LastBehind(feed, lace, Field(feed, lace, k), j, k);
    before := Last(feed, lace, Field(feed, lace, k), k) - 1;
    assert judge.changed(feed.pixels(k), feed.pixels(before)) == ChangeAt(feed, judge, lace, k);
  }

  lemma LastBehind(feed: Feed, lace: bool, p: nat, j: nat, k: nat)
    requires j < k && Field(feed, lace, j) == p
    ensures var l := Last(feed, lace, p, k); j < l <= k && Field(feed, lace, l - 1) == p
  {
  }

  // ---- the loop ----

  datatype Outcome = Scored(wrong: nat, changed: nat) | Starved | OutOfCaptures | Failed

  ghost predicate Tallied(feed: Feed, lace: bool, n: nat, comparisons: seq<nat>, last: seq<nat>) {
    && |comparisons| == 2 == |last|
    && forall p :: 0 <= p < 2 ==> comparisons[p] == Comparisons(feed, lace, p, n) && last[p] == Last(feed, lace, p, n)
  }

  ghost predicate AllRecur(feed: Feed, lace: bool, count: nat) {
    forall p: nat :: Needed(lace, p) ==> Recurs(feed, lace, p, count)
  }

  /** What the loop knows after n captures. */
  ghost predicate Going(feed: Feed, judge: Judge, lace: bool, count: nat, n: nat, limit: nat, t: Tallies) {
    && Tallied(feed, lace, n, t.comparisons, t.last) && Open(feed, lace, count, n, limit)
    && t.wrong == WrongSum(feed, judge, n) && t.changed == ChangedSum(feed, judge, lace, n)
  }

  /** The first n snapshots succeeded. */
  predicate Arrived(feed: Feed, n: nat) { n == 0 || (Arrived(feed, n - 1) && feed.arrives(n - 1)) }

  lemma {:induction false} ArrivedAt(feed: Feed, n: nat, k: nat)
    requires Arrived(feed, n) && k < n
    ensures feed.arrives(k)
  {
    if k < n - 1 {
      ArrivedAt(feed, n - 1, k);
    }
  }

  /** The counters of the loop */
  datatype Tallies = Tallies(comparisons: seq<nat>, last: seq<nat>, wrong: nat, changed: nat)

  lemma GoingAtFirst(feed: Feed, judge: Judge, lace: bool, count: nat, n: nat, limit: nat)
    requires n == 0 && limit == FieldLimit(count)
    ensures Going(feed, judge, lace, count, n, limit, Tallies([0, 0], [0, 0], 0, 0))
    ensures TotalLimit(count, lace) > 0
  {
    TotalIs(count, lace, limit);
  }

  /** What is decided by the n-th snapshot, when nothing was decided before. */
  ghost predicate Decided(feed: Feed, judge: Judge, lace: bool, count: nat, n: nat, r: Outcome) {
    && n > 0 && Waiting(feed, lace, count, n - 1)
    && match r
       case Scored(wrong, changed) =>
         QuotasMet(feed, lace, count, n) && wrong == WrongSum(feed, judge, n) && changed == ChangedSum(feed, judge, lace, n)
       case Starved => AnyStalled(feed, lace, count, n)
       case OutOfCaptures => false
       case Failed => !feed.arrives(n - 1)
  }

  /** measure_phase from the first scored capture on, without its record of the first failure */
  method RunLoop(feed: Feed, judge: Judge, lace: bool, count: nat) returns (r: Outcome, captured: nat)
    ensures Decided(feed, judge, lace, count, captured, r) && captured <= TotalLimit(count, lace)
    ensures Arrived(feed, if r.Failed? then captured - 1 else captured)
  {
    var t := Tallies([0, 0], [0, 0], 0, 0);
    captured := 0;
    var limit, total := FieldLimit(count), TotalLimit(count, lace);
    GoingAtFirst(feed, judge, lace, count, captured, limit);
    while captured < total
      invariant captured < total && Going(feed, judge, lace, count, captured, limit, t) && Arrived(feed, captured)
      decreases total - captured
    {
      var over;
      over, r, t := NextCapture(feed, judge, lace, count, captured, limit, total, t);
      captured := captured + 1;
      if over {
        return;
      }
    }
    assert false;
    r := OutOfCaptures;
  }

  lemma FailedHere(feed: Feed, judge: Judge, lace: bool, count: nat, n: nat, limit: nat, t: Tallies)
    requires Going(feed, judge, lace, count, n, limit, t) && !feed.arrives(n)
    ensures Decided(feed, judge, lace, count, n + 1, Failed)
  {
  }

  /** One round of the loop: the snapshot fails, or the capture is scored. */
  method NextCapture(feed: Feed, judge: Judge, lace: bool, count: nat, n: nat, limit: nat, total: nat, t: Tallies)
    returns (over: bool, r: Outcome, next: Tallies)
    requires Going(feed, judge, lace, count, n, limit, t) && limit == FieldLimit(count) && total == TotalLimit(count, lace)
    requires Arrived(feed, n)
    ensures if over then Decided(feed, judge, lace, count, n + 1, r)
            else Going(feed, judge, lace, count, n + 1, limit, next) && n + 1 < total
    ensures Arrived(feed, if over && r.Failed? then n else n + 1)
  {
    if !feed.arrives(n) {
      FailedHere(feed, judge, lace, count, n, limit, t);
      return true, Failed, t;
    }
    over, r, next := ScoreCapture(feed, judge, lace, count, n, limit, total, t);
  }

  /** The capture is scored, and then either all quotas are met, or a field is overdue, or there is time
      for another. */
  method ScoreCapture(feed: Feed, judge: Judge, lace: bool, count: nat, n: nat, limit: nat, total: nat, t: Tallies)
    returns (over: bool, r: Outcome, next: Tallies)
    requires Going(feed, judge, lace, count, n, limit, t) && limit == FieldLimit(count) && total == TotalLimit(count, lace)
    ensures if over then Decided(feed, judge, lace, count, n + 1, r)
            else Going(feed, judge, lace, count, n + 1, limit, next) && n + 1 < total
    ensures !r.Failed?
  {
    var wrong, changed := AddScore(feed, judge, lace, n, t.wrong, t.changed, t.last);
    var comparisons, last := Tally(feed, lace, n, t.comparisons, t.last);
    next := Tallies(comparisons, last, wrong, changed);
    var met, stalled := Decide(feed, lace, count, n + 1, limit, comparisons, last);
    over, r := met || stalled, if met then Scored(wrong, changed) else Starved;
    if !over {
      StaysOpen(feed, lace, count, n, limit);
    }
  }

  method AddScore(feed: Feed, judge: Judge, lace: bool, n: nat, wrong: nat, changed: nat, last: seq<nat>) returns (w: nat, c: nat)
    requires wrong == WrongSum(feed, judge, n) && changed == ChangedSum(feed, judge, lace, n)
    requires |last| == 2 && forall p :: 0 <= p < 2 ==> last[p] == Last(feed, lace, p, n)
    ensures w == WrongSum(feed, judge, n + 1) && c == ChangedSum(feed, judge, lace, n + 1)
  {
    var l := last[Field(feed, lace, n)];
    w := wrong + judge.errors(feed.pixels(n));
    c := changed;
    if l > 0 {
      c := c + judge.changed(feed.pixels(n), feed.pixels(l - 1));
    }
  }

  /** Both tests at the end of the loop body */
  method Decide(feed: Feed, lace: bool, count: nat, n: nat, limit: nat, comparisons: seq<nat>, last: seq<nat>)
    returns (met: bool, stalled: bool)
    requires Tallied(feed, lace, n, comparisons, last) && limit == FieldLimit(count)
    ensures met <==> QuotasMet(feed, lace, count, n)
    ensures stalled <==> AnyStalled(feed, lace, count, n)
  {
    met := comparisons[0] >= count && (!lace || comparisons[1] >= count);
    stalled := (comparisons[0] < count && n - last[0] >= limit) || (lace && comparisons[1] < count && n - last[1] >= limit);
  }

  /** One more capture of a field: a comparison if it is not the first */
  method Tally(feed: Feed, lace: bool, n: nat, comparisons: seq<nat>, last: seq<nat>) returns (c: seq<nat>, l: seq<nat>)
    requires Tallied(feed, lace, n, comparisons, last)
    ensures Tallied(feed, lace, n + 1, c, l)
  {
    var p := Field(feed, lace, n);
    c := if last[p] > 0 then comparisons[p := comparisons[p] + 1] else comparisons;
    l := last[p := n + 1];
  }

  /** The measurement is still going on: waiting, and with time left. */
  ghost predicate Open(feed: Feed, lace: bool, count: nat, n: nat, limit: nat) {
    Waiting(feed, lace, count, n) && BothOnTime(feed, lace, count, n, limit)
  }

  lemma StaysOpen(feed: Feed, lace: bool, count: nat, n: nat, limit: nat)
    requires Open(feed, lace, count, n, limit) && limit == FieldLimit(count)
    requires !QuotasMet(feed, lace, count, n + 1) && !AnyStalled(feed, lace, count, n + 1)
    ensures Open(feed, lace, count, n + 1, limit) && n + 1 < TotalLimit(count, lace)
  {
    NextOnTime(feed, lace, count, n, limit);
    NotOver(feed, lace, count, n + 1, limit);
    NextWaiting(feed, lace, count, n);
  }

  lemma NextWaiting(feed: Feed, lace: bool, count: nat, n: nat)
    requires Waiting(feed, lace, count, n) && !QuotasMet(feed, lace, count, n + 1) && !AnyStalled(feed, lace, count, n + 1)
    ensures Waiting(feed, lace, count, n + 1)
  {
  }

  lemma NextOnTime(feed: Feed, lace: bool, count: nat, n: nat, limit: nat)
    requires BothOnTime(feed, lace, count, n, limit) && limit == FieldLimit(count) && !AnyStalled(feed, lace, count, n + 1)
    ensures BothOnTime(feed, lace, count, n + 1, limit)
  {
    OnTimeNext(feed, lace, 0, count, n, limit);
    if lace {
      OnTimeNext(feed, lace, 1, count, n, limit);
    }
  }

  lemma NotOver(feed: Feed, lace: bool, count: nat, n: nat, limit: nat)
    requires !QuotasMet(feed, lace, count, n) && limit == FieldLimit(count)
    requires BothOnTime(feed, lace, count, n, limit)
    ensures n < TotalLimit(count, lace)
  {
    if Incomplete(feed, lace, 0, count, n) {
      TimeLeft(feed, lace, 0, count, n, limit);
    } else {
      TimeLeft(feed, lace, 1, count, n, limit);
    }
  }

  lemma QuotasStay(feed: Feed, lace: bool, count: nat, m: nat, n: nat)
    requires m <= n && QuotasMet(feed, lace, count, m)
    ensures QuotasMet(feed, lace, count, n)
  {
    SamplesGrow(feed, lace, 0, m, n);
    SamplesGrow(feed, lace, 1, m, n);
  }

  /** Every snapshot taken before the quotas are met succeeds, and the first in any case. */
  ghost predicate NeededArrive(feed: Feed, lace: bool, count: nat) {
    forall k: nat :: k == 0 || !QuotasMet(feed, lace, count, k) ==> feed.arrives(k)
  }

  lemma ScoredMeans(feed: Feed, judge: Judge, lace: bool, count: nat, captured: nat, r: Outcome)
    requires Decided(feed, judge, lace, count, captured, r) && r.Scored? && Arrived(feed, captured)
    ensures AllRecur(feed, lace, count) && NeededArrive(feed, lace, count)
  {
    forall p: nat | Needed(lace, p) ensures Recurs(feed, lace, p, count) {
      forall n: nat | n <= captured ensures !Stalled(feed, lace, p, count, n) {
        assert n < captured ==> !AnyStalled(feed, lace, count, n);
      }
      NoStallRecurs(feed, lace, p, count, captured);
    }
    forall k: nat | k == 0 || !QuotasMet(feed, lace, count, k) ensures feed.arrives(k) {
      if k < captured {
        ArrivedAt(feed, captured, k);
      } else {
        QuotasStay(feed, lace, count, captured, k);
      }
    }
  }

  lemma UnscoredMeans(feed: Feed, judge: Judge, lace: bool, count: nat, captured: nat, r: Outcome)
    requires Decided(feed, judge, lace, count, captured, r) && !r.Scored?
    ensures r.Starved? ==> !AllRecur(feed, lace, count)
    ensures r.Failed? ==> !NeededArrive(feed, lace, count)
  {
    if r.Starved? {
      var p: nat := if Stalled(feed, lace, 0, count, captured) then 0 else 1;
      StallRefutes(feed, lace, p, count, captured);
      assert Needed(lace, p);
    } else {
      var k := captured - 1;
      assert k == 0 || !QuotasMet(feed, lace, count, k);
    }
  }

  /** The measurement succeeds exactly when the phase was set, both snapshots to be discarded succeed,
      every field it needs recurs within its deadline until its quota is met, and no snapshot taken until
      then fails; it always ends by one of its own tests, never by running out of captures. */
  method MeasurePhase(feed: Feed, judge: Judge, lace: bool, count: nat, applied: bool, settles: nat -> bool)
    returns (r: Outcome, captured: nat)
    ensures r.Scored? <==> applied && settles(0) && settles(1) && AllRecur(feed, lace, count) && NeededArrive(feed, lace, count)
    ensures r.Starved? ==> !AllRecur(feed, lace, count)
    ensures r.Scored? || r.Starved? ==> Decided(feed, judge, lace, count, captured, r)
    ensures !r.OutOfCaptures? && (!lace ==> !r.Starved?)
    ensures !lace && r.Scored? ==> captured == count + 1
  {
    if !applied {
      return Failed, 0;
    }
    var i := 0;
    while i < 2
      invariant i <= 2 && forall k: nat :: k < i ==> settles(k)
    {
      if !settles(i) {
        return Failed, 0;
      }
      i := i + 1;
    }
    r, captured := RunLoop(feed, judge, lace, count);
    if r.Scored? {
      ScoredMeans(feed, judge, lace, count, captured, r);
    } else {
      UnscoredMeans(feed, judge, lace, count, captured, r);
    }
    if !lace {
      ProgressiveEnd(feed, judge, count, captured, r);
    }
  }

  lemma ProgressiveEnd(feed: Feed, judge: Judge, count: nat, captured: nat, r: Outcome)
    requires Decided(feed, judge, false, count, captured, r)
    ensures AllRecur(feed, false, count) && (r.Scored? ==> captured == count + 1)
  {
    ProgressiveRecurs(feed, count);
    ProgressiveSamples(feed, captured);
    ProgressiveSamples(feed, count + 1);
    assert QuotasMet(feed, false, count, count + 1);
  }

  lemma ProgressiveRecurs(feed: Feed, count: nat)
    ensures AllRecur(feed, false, count)
  {
    forall n: nat | Incomplete(feed, false, 0, count, n)
      ensures exists k: nat :: n <= k < n + FieldLimit(count) && Field(feed, false, k) == 0
    {
      assert Field(feed, false, n) == 0;
    }
  }
}
