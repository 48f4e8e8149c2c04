/** Classification of the presented receive slot, against a card that numbers its frames, and the
    framer's drain budget. */
module NetRx {

  const WORD := 0x1_0000
  const OFFSET2 := 0x8000
  const MIN_FRAME := 14
  const MAX_FRAME := 1518
  const MAX_GAP := 128

  /** struct zznet_rx_state */
  datatype Rx = Rx(oldSerial: nat, haveBaseline: bool, readyValid: bool)

  datatype Action = Wait | Drop | Deliver

  datatype Decision = Decision(action: Action, empty: bool, badData: nat, overruns: nat, size: nat, serial: nat, offset2: bool)

  /** What one call sees: the presented length and serial words, and, if it asks, whether the card has
      frames waiting and whether the slot still reads the same. */
  datatype Look = Look(length: nat, serial: nat, waiting: bool, same: bool)

  function Size(length: nat): nat { length % OFFSET2 }

  predicate Stale(rx: Rx, look: Look) {
    look.serial == rx.oldSerial && (look.serial == 0 || !rx.readyValid || !look.waiting || !look.same)
  }

  /** The step between two serials as the driver computes it: two less when it wrapped */
  function Gap(oldSerial: nat, serial: nat): nat {
    var raw := (serial as int - oldSerial) % WORD;
    if serial < oldSerial then (raw - 2) % WORD else raw
  }

  /** zznet_rx_next */
  function Next(rx: Rx, look: Look): (Rx, Decision) {
    var size := Size(look.length);
    var d := Decision(Wait, false, 0, 0, size, look.serial, look.length >= OFFSET2);
    if size == 0 && look.serial == 0 then (rx, d.(empty := true))
    else if Stale(rx, look) then (rx, d)
    else
      var rx' := rx.(haveBaseline := true, oldSerial := look.serial);
      if size < MIN_FRAME || size > MAX_FRAME then (rx', d.(action := Drop, badData := 1))
      else
        var gap := if rx.haveBaseline then Gap(rx.oldSerial, look.serial) else 1;
        (rx', d.(action := Deliver, overruns := if 1 < gap <= MAX_GAP then gap - 1 else 0,
                 badData := if gap > MAX_GAP then 1 else 0))
  }

  // ---- serials ----

  const CYCLE := 65534

  /** The serial of frame i on firmware that skips 0 and 1, when frame 0 had serial first */
  function Serial(first: nat, i: nat): nat { 2 + (first + i) % CYCLE }

  /** On older firmware: all 65536 serials in turn */
  function OldSerial(first: nat, i: nat): nat { (first + i) % WORD }

  /** Two serials g frames apart read as a gap of g, across the wrap too. */
  lemma GapIsDistance(first: nat, i: nat, g: nat)
    requires 0 < g < CYCLE
    ensures Gap(Serial(first, i), Serial(first, i + g)) == g
    ensures Serial(first, i) != Serial(first, i + g)
  {
    Cycles(first + i, g);
  }

  lemma Cycles(a: nat, g: nat)
    requires 0 < g < CYCLE
    ensures (a + g) % CYCLE == if a % CYCLE + g < CYCLE then a % CYCLE + g else a % CYCLE + g - CYCLE
  {
  }

  /** A frame is counted right exactly when at most 127 were lost before it: then the frames missed are
      its overruns; beyond that the step counts as bad data. */
  lemma GapCounted(rx: Rx, first: nat, i: nat, g: nat, look: Look)
    requires 0 < g < CYCLE && rx.haveBaseline && rx.oldSerial == Serial(first, i)
    requires look.serial == Serial(first, i + g) && MIN_FRAME <= Size(look.length) <= MAX_FRAME
    ensures var d := Next(rx, look).1;
            d.action.Deliver? && (d.overruns == g - 1 && d.badData == 0 <==> g <= MAX_GAP)
            && (g > MAX_GAP ==> d.overruns == 0 && d.badData == 1)
  {
    GapIsDistance(first, i, g);
  }

  /** On older firmware the discount for the skipped serials is wrong: a frame is counted right exactly
      when the serial did not wrap since the frame before it. */
  lemma OldFirmwareCounted(rx: Rx, first: nat, i: nat, g: nat, look: Look)
    requires 0 < g <= MAX_GAP && rx.haveBaseline && rx.oldSerial == OldSerial(first, i)
    requires look.serial == OldSerial(first, i + g) && MIN_FRAME <= Size(look.length) <= MAX_FRAME
    ensures var d := Next(rx, look).1;
            d.overruns == g - 1 && d.badData == 0 <==> OldSerial(first, i) < OldSerial(first, i + g)
  {
    var a := first + i;
    assert (a + g) % WORD == if a % WORD + g < WORD then a % WORD + g else a % WORD + g - WORD;
  }

  /** The step from serial 0xffff to 0, with nothing lost, is bad data. */
  lemma OldFirmwareWrap()
    ensures var d := Next(Rx(0xffff, true, true), Look(60, 0, true, true)).1; d.action.Deliver? && d.badData == 1
  {
  }

  // ---- runs ----

  /** What the framer finds: nothing; the last header again, with what the status and the second read
      say; or the first frame published after skipping some. */
  datatype Event = Empty | Again(length: nat, waiting: bool, same: bool) | Frame(skipped: nat, length: nat)

  /** Counters of a run, the number of the last frame presented, and whether there was one. */
  datatype Totals = Totals(rx: Rx, last: nat, seen: bool, delivered: nat, overruns: nat, badData: nat)

  function LookAt(t: Totals, first: nat, e: Event): Look {
    match e
    case Empty => Look(0, 0, false, true)
    case Again(length, waiting, same) => Look(length, t.rx.oldSerial, waiting, same)
    case Frame(skipped, length) => Look(length, Serial(first, Number(t, skipped)), true, true)
  }

  /** The frame presented when so many were skipped */
  function Number(t: Totals, skipped: nat): nat { if t.seen then t.last + 1 + skipped else skipped }

  /** Without a restart, a header with the last serial is an old one: nothing waits, or the frame that
      waits replaces it between the two reads, or the firmware has no such status. */
  predicate Possible(t: Totals, e: Event) {
    match e
    case Empty => true
    case Again(length, waiting, same) => t.seen ==> !t.rx.readyValid || !waiting || !same
    case Frame(skipped, length) => MIN_FRAME <= Size(length) <= MAX_FRAME && (t.seen ==> skipped < MAX_GAP)
  }

  function Take(t: Totals, first: nat, e: Event): Totals {
    var (rx, d) := Next(t.rx, LookAt(t, first, e));
    Totals(rx, if e.Frame? then Number(t, e.skipped) else t.last, t.seen || e.Frame?,
           t.delivered + if d.action.Deliver? then 1 else 0, t.overruns + d.overruns, t.badData + d.badData)
  }

  predicate AllPossible(t: Totals, first: nat, events: seq<Event>)
    decreases |events|
  {
    events != [] ==> Possible(t, events[0]) && AllPossible(Take(t, first, events[0]), first, events[1..])
  }

  function TakeAll(t: Totals, first: nat, events: seq<Event>): Totals
    decreases |events|
  {
    if events == [] then t else TakeAll(Take(t, first, events[0]), first, events[1..])
  }

  /** Delivered and missed frames together are those issued since the first one delivered. */
  predicate Accounted(t: Totals, first: nat, from: nat) {
    && t.badData == 0
    && (t.seen ==> t.rx.haveBaseline && t.rx.oldSerial == Serial(first, t.last) && from <= t.last
                   && t.delivered + t.overruns == t.last - from + 1)
    && (!t.seen ==> !t.rx.haveBaseline && t.delivered == 0 && t.overruns == 0 && t.rx.oldSerial == 0)
  }

  lemma TakeAccounts(t: Totals, first: nat, from: nat, e: Event)
    requires Accounted(t, first, from) && Possible(t, e) && (!t.seen && e.Frame? ==> from == e.skipped)
    ensures Accounted(Take(t, first, e), first, from)
  {
    if e.Frame? && t.seen {
      GapCounted(t.rx, first, t.last, e.skipped + 1, LookAt(t, first, e));
      GapIsDistance(first, t.last, e.skipped + 1);
    }
  }

  /** Number of the first frame a run delivers */
  function FirstTaken(events: seq<Event>): nat {
    if events == [] then 0 else if events[0].Frame? then events[0].skipped else FirstTaken(events[1..])
  }

  lemma {:induction false} RunAccounts(t: Totals, first: nat, from: nat, events: seq<Event>)
    requires Accounted(t, first, from) && AllPossible(t, first, events) && (!t.seen ==> from == FirstTaken(events))
    ensures Accounted(TakeAll(t, first, events), first, from)
    decreases |events|
  {
    if events != [] {
      TakeAccounts(t, first, from, events[0]);
      RunAccounts(Take(t, first, events[0]), first, from, events[1..]);
    }
  }

  function StartTotals(readyValid: bool): Totals {
    Totals(Rx(0, false, readyValid), 0, false, 0, 0, 0)
  }

  /** Over any run with at most 127 frames lost between two presented ones, whatever serial comes first:
      nothing is bad data, and every frame since the first delivered one was delivered or counted. */
  lemma NoFrameUncounted(first: nat, readyValid: bool, events: seq<Event>)
    requires AllPossible(StartTotals(readyValid), first, events)
    ensures var t := TakeAll(StartTotals(readyValid), first, events);
            t.badData == 0 && (t.seen ==> t.delivered + t.overruns == t.last - FirstTaken(events) + 1)
  {
    RunAccounts(StartTotals(readyValid), first, FirstTaken(events), events);
  }

  // ---- the framer's object ----

  class Framer {
    var oldSerial: nat
    var haveBaseline: bool
    var readyValid: bool

    /** zznet_rx_reset */
    constructor (version: nat)
      ensures State() == Rx(0, false, version >= 0x0201)
    {
      oldSerial, haveBaseline, readyValid := 0, false, version >= 0x0201;
    }

    function State(): Rx
      reads this
    {
      Rx(oldSerial, haveBaseline, readyValid)
    }

    /** zznet_rx_next */
    method NextFrame(look: Look) returns (d: Decision)
      requires look.length < WORD && look.serial < WORD
      modifies this
      ensures (State(), d) == Next(old(State()), look)
    {
      d := Decision(Wait, false, 0, 0, Size(look.length), look.serial, look.length >= OFFSET2);
      if d.size == 0 && d.serial == 0 {
        return d.(empty := true);
      }
      if d.serial == oldSerial && (d.serial == 0 || !readyValid || !look.waiting || !look.same) {
        return;
      }
      if d.size < MIN_FRAME || d.size > MAX_FRAME {
        d := d.(action := Drop, badData := 1);
        haveBaseline, oldSerial := true, d.serial;
        return;
      }
      if haveBaseline {
        var delta := (d.serial as int - oldSerial) % WORD;
        if d.serial < oldSerial {
          delta := (delta - 2) % WORD;
        }
        if 1 < delta <= MAX_GAP {
          d := d.(overruns := delta - 1);
        } else if delta > MAX_GAP {
          d := d.(badData := 1);
        }
      }
      haveBaseline, oldSerial := true, d.serial;
      d := d.(action := Deliver);
    }
  }

  // ---- reading the header in two halves ----

  /** The slot as two bus cycles see it: empty until a frame is published at some moment. */
  datatype Slot = Slot(length: nat, serial: nat, published: nat)

  function Word16(s: Slot, moment: nat, serialWord: bool): nat {
    if moment < s.published then 0 else if serialWord then s.serial else s.length
  }

  /** zznet_rx_header_split: serial first */
  method HeaderSplit(s: Slot) returns (length: nat, serial: nat)
    requires s.serial != 0
    ensures (length, serial) == (0, 0) || (length, serial) == (s.length, s.serial)
    ensures s.published == 0 ==> (length, serial) == (s.length, s.serial)
  {
    serial := Word16(s, 0, true);
    if serial == 0 {
      return 0, 0;
    }
    length := Word16(s, 1, false);
  }

  /** Length first can read an empty length beside a fresh serial, and serial first takes a frame with
      serial 0 for an empty slot. */
  lemma SplitNeedsBoth()
    ensures exists s: Slot :: s.serial != 0 && Word16(s, 0, false) == 0 && Word16(s, 1, true) == s.serial
    ensures exists s: Slot :: s.length != 0 && s.published == 0 && Word16(s, 0, true) == 0
  {
    var torn, lost := Slot(60, 7, 1), Slot(60, 0, 0);
    assert torn.serial != 0 && Word16(torn, 0, false) == 0 && Word16(torn, 1, true) == torn.serial;
    assert lost.length != 0 && lost.published == 0 && Word16(lost, 0, true) == 0;
  }

  // ---- the drain budget ----

  const FRAMER_PRI := 10
  const YIELD_PRI := 0
  const BUDGET := 64

  /** struct zznet_rx_drain */
  datatype Drain = Drain(left: nat, lowered: bool)

  /** None is ZZNET_RX_PRI_KEEP. */
  datatype Switch = Keep | To(pri: int)

  function DrainReset(d: Drain): (Drain, Switch) {
    (Drain(BUDGET, false), if d.lowered then To(FRAMER_PRI) else Keep)
  }

  function DrainFrame(d: Drain): (Drain, Switch) {
    var left := (d.left as int - 1) % WORD;
    if left != 0 then (d.(left := left), Keep)
    else (Drain(BUDGET, !d.lowered), To(if d.lowered then FRAMER_PRI else YIELD_PRI))
  }

  datatype Wake = Handle | Sleep

  /** The framer's priority, and the frames handled at it without sleeping or yielding */
  datatype Framing = Framing(drain: Drain, pri: int, row: nat)

  function Apply(pri: int, s: Switch): int { if s.To? then s.pri else pri }

  function FramingStep(f: Framing, w: Wake): Framing {
    match w
    case Handle =>
      var (d, s) := DrainFrame(f.drain);
      Framing(d, Apply(f.pri, s), if s.Keep? then f.row + 1 else 0)
    case Sleep =>
      var (d, s) := DrainReset(f.drain);
      Framing(d, Apply(f.pri, s), 0)
  }

  function FramingRun(f: Framing, wakes: seq<Wake>): Framing
    decreases |wakes|
  {
    if wakes == [] then f else FramingRun(FramingStep(f, wakes[0]), wakes[1..])
  }

  predicate Budgeted(f: Framing) {
    && f.pri == (if f.drain.lowered then YIELD_PRI else FRAMER_PRI)
    && 1 <= f.drain.left <= BUDGET && f.row == BUDGET - f.drain.left
  }

  /** The framer always sleeps at its own priority, and never handles its budget of frames at it without
      having yielded or slept. */
  lemma {:induction false} BudgetKept(f: Framing, wakes: seq<Wake>)
    requires Budgeted(f)
    ensures var g := FramingRun(f, wakes);
            Budgeted(g) && g.row < BUDGET && FramingStep(g, Sleep).pri == FRAMER_PRI
    decreases |wakes|
  {
    if wakes != [] {
      BudgetKept(FramingStep(f, wakes[0]), wakes[1..]);
    }
  }
}
