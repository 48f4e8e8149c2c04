/** The launcher's AHI audio: a ring shared with the application, drained through two requests. */
module AhiRing {
  import opened Bytes

  const WORD := 0x1_0000_0000
  const BUFFER := 8192
  const SLOTS := 2

  /** The ring's size: whole stereo frames, and a divisor of the counters' range. */
  predicate GoodCap(cap: nat) { 4 <= cap < WORD && cap % 4 == 0 && WORD % cap == 0 }

  /** One request and its buffer. */
  datatype Slot = Slot(pending: bool, bytes: nat, buffer: seq<byte>)

  datatype Driver = Driver(
    slots: seq<Slot>,
    port: seq<nat>,      // requests AHI has returned, not yet collected
    open: bool, rate: nat, channels: nat,
    epoch: nat, valid: bool,
    underruns: nat,
    failed: bool)

  /** The audio header the application, the firmware and the launcher share, with the ring behind it. */
  datatype Header = Header(ahi: bool, epoch: nat, rate: nat, channels: nat, head: nat, tail: nat, underruns: nat,
                           ring: seq<byte>)

  predicate Distinct(port: seq<nat>) { forall i, j :: 0 <= i < j < |port| ==> port[i] != port[j] }

  predicate SlotOk(s: Slot) { |s.buffer| == BUFFER && s.bytes <= BUFFER && (s.pending <==> s.bytes > 0) }

  predicate SlotsOk(slots: seq<Slot>) { |slots| == SLOTS && SlotOk(slots[0]) && SlotOk(slots[1]) }

  predicate PortOk(slots: seq<Slot>, port: seq<nat>) {
    Distinct(port) && forall i :: 0 <= i < |port| ==> port[i] < |slots| && slots[port[i]].pending
  }

  /** What the launcher keeps true of its own state. */
  predicate Shape(d: Driver) {
    && SlotsOk(d.slots) && PortOk(d.slots, d.port)
    && (d.open <==> d.valid)
    && (d.open ==> d.channels == 2 && d.rate > 0 && !d.failed)
    && (!d.open ==> d.port == [] && !d.slots[0].pending && !d.slots[1].pending)
  }

  function InFlight(slots: seq<Slot>): nat
    requires |slots| == SLOTS
  {
    slots[0].bytes + slots[1].bytes
  }

  // ---- a poll ----

  function Swap(s: seq<byte>): (r: seq<byte>)
    requires |s| % 2 == 0
    ensures |r| == |s|
  {
    seq(|s|, i requires 0 <= i < |s| => if i % 2 == 0 then s[i + 1] else s[i - 1])
  }

  function Idle(s: Slot): Slot { s.(pending := false, bytes := 0) }

  /** ahi_abort_pending */
  function Abort(d: Driver): Driver
    requires |d.slots| == SLOTS
  {
    d.(slots := [Idle(d.slots[0]), Idle(d.slots[1])], port := [])
  }

  /** ahi_close */
  function Close(d: Driver): Driver
    requires |d.slots| == SLOTS
  {
    Abort(d).(open := false, rate := 0, channels := 0, epoch := 0, valid := false)
  }

  /** The replacement of a stream: requests of the old one are dropped before anything is counted. */
  function Replace(d: Driver, h: Header): Driver
    requires |d.slots| == SLOTS
  {
    var stopped := if d.open && (h.rate != d.rate || h.channels != d.channels) then Close(d) else Abort(d);
    stopped.(underruns := 0, valid := false)
  }

  predicate Replaced(d: Driver, h: Header) { d.valid && h.epoch != d.epoch }

  predicate Openable(h: Header, opens: bool) { opens && h.channels == 2 && h.rate > 0 }

  function Open(d: Driver, h: Header): Driver {
    if d.open then d else d.(open := true, rate := h.rate, channels := h.channels, underruns := 0)
  }

  datatype Reaped = Reaped(slots: seq<Slot>, tail: nat, completed: bool)

  /** ahi_reap */
  function Reap(slots: seq<Slot>, port: seq<nat>, tail: nat, completed: bool): Reaped
    requires SlotsOk(slots) && forall i :: 0 <= i < |port| ==> port[i] < SLOTS
    decreases |port|
  {
    if port == [] then Reaped(slots, tail, completed)
    else
      var p := port[0];
      if slots[p].pending then
        Reap(slots[p := Idle(slots[p])], port[1..], (tail + slots[p].bytes) % WORD, true)
      else Reap(slots, port[1..], tail, completed)
  }

  function Minus(a: nat, b: nat): nat { (a as int - b) % WORD }

  function Min(a: nat, b: nat): nat { if a < b then a else b }

  /** How many bytes the next buffer takes: what is there, up to the end of the ring, a fiftieth of a
      second and the buffer, in whole frames of two 16-bit channels. */
  function Amount(available: nat, contiguous: nat, frames: nat): (n: nat)
    ensures n <= available && n <= contiguous && n <= 4 * frames && n <= BUFFER && n % 4 == 0 && n % 2 == 0
    ensures n > 0 <==> available >= 4 && contiguous >= 4 && frames > 0
  {
    var most := Min(Min(Min(available, contiguous), 4 * frames), BUFFER);
    Fours(most / 4);
    Twos(2 * (most / 4));
    most - most % 4
  }

  lemma Fours(k: nat)
    ensures 4 * k % 4 == 0
  {
  }

  lemma Twos(k: nat)
    ensures 2 * k % 2 == 0
  {
  }

  /** ahi_free_slot */
  function Free(slots: seq<Slot>): int
    requires |slots| == SLOTS
  {
    if !slots[0].pending then 0 else if !slots[1].pending then 1 else -1
  }

  /** ahi_submit, of the copied bytes */
  function Submit(s: Slot, data: seq<byte>): Slot
    requires |s.buffer| == BUFFER && |data| <= BUFFER
  {
    Slot(true, |data|, data + s.buffer[|data|..])
  }

  datatype Polled = Polled(d: Driver, h: Header, sent: seq<byte>, slot: int)

  /** Stops before a submission. */
  function Quiet(d: Driver, h: Header): Polled { Polled(d, h, [], -1) }

  /** The launcher with a replaced stream's requests dropped. */
  function Kept(d: Driver, h: Header): Driver
    requires |d.slots| == SLOTS
  {
    if Replaced(d, h) then Replace(d, h) else d
  }

  predicate Joins(d: Driver, h: Header, opens: bool)
    requires |d.slots| == SLOTS
  {
    !Kept(d, h).failed && (Kept(d, h).open || Openable(h, opens))
  }

  /** The launcher as it enters, or stays in, the header's stream. */
  function Joined(d: Driver, h: Header): Driver
    requires |d.slots| == SLOTS
  {
    Open(Kept(d, h), h).(epoch := h.epoch, valid := true)
  }

  /** service_ahi_audio.  The parameter says whether the AHI device could be opened now. */
  function Poll(d: Driver, h: Header, opens: bool): (p: Polled)
    requires Shape(d) && GoodCap(|h.ring|)
    ensures Shape(p.d) && |p.h.ring| == |h.ring|
  {
    if !h.ahi then Quiet(Close(d), h)
    else if h.epoch == 0 then Quiet(d, h)
    else if Joins(d, h, opens) then Serve(Joined(d, h), h)
    else if Kept(d, h).failed then Quiet(Kept(d, h), h)
    else Quiet(Close(Kept(d, h)).(failed := true), h)
  }

  /** The part of a poll in which the launcher's stream is the header's. */
  function Serve(d: Driver, h: Header): (p: Polled)
    requires SlotsOk(d.slots) && PortOk(d.slots, d.port) && GoodCap(|h.ring|) && d.channels == 2
    ensures SlotsOk(p.d.slots) && PortOk(p.d.slots, p.d.port) && |p.h.ring| == |h.ring|
    ensures p.d == d.(slots := p.d.slots, port := p.d.port, underruns := p.d.underruns)
  {
    if Minus(h.head, h.tail) > |h.ring| then Quiet(d, h)
    else
      var r := Reap(d.slots, d.port, h.tail, false);
      ReapShape(d.slots, d.port, h.tail, false);
      Refill(d.(slots := r.slots, port := []), h.(tail := r.tail), r.completed)
  }

  /** Behind the published tail and everything in flight. */
  function Staged(slots: seq<Slot>, h: Header): nat
    requires |slots| == SLOTS
  {
    (h.tail + InFlight(slots)) % WORD
  }

  /** How many bytes are to be taken next, from where Staged stands. */
  function Next(d: Driver, h: Header): (n: nat)
    requires |d.slots| == SLOTS && GoodCap(|h.ring|)
    ensures n <= BUFFER && n % 4 == 0 && n % 2 == 0 && Staged(d.slots, h) % |h.ring| + n <= |h.ring|
  {
    Amount(Minus(h.head, Staged(d.slots, h)), |h.ring| - Staged(d.slots, h) % |h.ring|, d.rate / 50)
  }

  function Refill(d: Driver, h: Header, completed: bool): (p: Polled)
    requires SlotsOk(d.slots) && GoodCap(|h.ring|) && d.channels == 2
    ensures SlotsOk(p.d.slots) && |p.h.ring| == |h.ring|
    ensures p.d == d.(slots := p.d.slots, underruns := p.d.underruns)
  {
    var staged := Staged(d.slots, h);
    if Minus(h.head, staged) > |h.ring| || d.rate / 50 == 0 then Quiet(d, h)
    else
      var n := Next(d, h);
      if n == 0 then
        if completed && staged == h.tail then
          var u := (d.underruns + 1) % WORD;
          Quiet(d.(underruns := u), h.(underruns := u))
        else Quiet(d, h)
      else
        var slot := Free(d.slots);
        if slot < 0 then Quiet(d, h)
        else
          var at := staged % |h.ring|;
          var data := Swap(h.ring[at..at + n]);
          Polled(d.(slots := d.slots[slot := Submit(d.slots[slot], data)]), h, data, slot)
  }

  lemma {:induction false} ReapShape(slots: seq<Slot>, port: seq<nat>, tail: nat, completed: bool)
    requires SlotsOk(slots) && forall i :: 0 <= i < |port| ==> port[i] < SLOTS
    ensures SlotsOk(Reap(slots, port, tail, completed).slots)
    decreases |port|
  {
    if port != [] {
      var p := port[0];
      if slots[p].pending {
        ReapShape(slots[p := Idle(slots[p])], port[1..], (tail + slots[p].bytes) % WORD, true);
      } else {
        ReapShape(slots, port[1..], tail, completed);
      }
    }
  }

  // ---- the launcher among the others ----

  /** Beside the launcher and the header, what has happened to the current stream: where in the counters
      it began, its bytes, how many the published tail has released, the buffers handed to AHI, and which
      of them each slot carries. */
  datatype World = World(
    d: Driver, h: Header,
    start: nat, stream: seq<byte>, released: nat,
    submitted: seq<seq<byte>>, carries: seq<nat>)

  datatype Label =
    | Write(data: seq<byte>)   // the application, into the room the header shows
    | Complete(slot: nat)      // AHI returns a request, in any order
    | Opening(h: Header)       // the firmware is replacing the stream: its epoch is zero meanwhile
    | Stream(h: Header)        // the firmware publishes a new stream
    | Service(opens: bool)     // the launcher polls

  predicate Formed(w: World) { Shape(w.d) && GoodCap(|w.h.ring|) && |w.carries| == SLOTS }

  predicate Enabled(w: World, l: Label)
    requires Shape(w.d)
  {
    match l
    case Write(data) => w.h.epoch != 0 && Minus(w.h.head, w.h.tail) + |data| <= |w.h.ring|
    case Complete(slot) => slot < SLOTS && w.d.slots[slot].pending && slot !in w.d.port
    case Opening(h) => h.epoch == 0 && |h.ring| == |w.h.ring|
    case Stream(h) =>
      && w.h.epoch == 0 && h.epoch != 0 && |h.ring| == |w.h.ring|
      && h.head == h.tail < WORD && h.tail % 4 == 0
    case Service(_) => true
  }

  /** The bytes land behind the head, wrapping at the ring's end. */
  function Fill(ring: seq<byte>, at: nat, data: seq<byte>): (r: seq<byte>)
    requires |ring| > 0
    ensures |r| == |ring|
  {
    seq(|ring|, i requires 0 <= i < |ring| =>
      var j := (i - at) % |ring|; if j < |data| then data[j] else ring[i])
  }

  function Step(w: World, l: Label): (next: World)
    requires Formed(w) && Enabled(w, l)
    ensures Formed(next)
  {
    match l
    case Write(data) =>
      w.(stream := w.stream + data,
         h := w.h.(head := (w.h.head + |data|) % WORD, ring := Fill(w.h.ring, w.h.head, data)))
    case Complete(slot) => w.(d := w.d.(port := w.d.port + [slot]))
    case Opening(h) => w.(h := h, stream := [], released := 0, submitted := [])
    case Stream(h) => w.(h := h, start := h.tail, stream := [], released := 0, submitted := [])
    case Service(opens) =>
      Afterwards(w, Poll(w.d, w.h, opens))
  }

  /** What a poll changes, the released count following the published tail. */
  function Afterwards(w: World, p: Polled): World
    requires |w.carries| == SLOTS
  {
    var after := w.(d := p.d, h := p.h, released := w.released + Minus(p.h.tail, w.h.tail));
    if p.slot < 0 then after
    else after.(submitted := w.submitted + [p.sent],
                carries := if p.slot < SLOTS then w.carries[p.slot := |w.submitted|] else w.carries)
  }

  /** A stream published under the number the launcher has already accepted. */
  predicate Reuses(w: World, l: Label) { l.Stream? && w.d.valid && w.d.epoch == l.h.epoch }

  /** It is published so while requests of an older one are still out. */
  predicate CarriesOver(w: World, l: Label)
    requires Formed(w)
  {
    Reuses(w, l) && InFlight(w.d.slots) > 0
  }

  predicate Runs(w: World, labels: seq<Label>)
    requires Formed(w)
    decreases |labels|
  {
    labels == [] || (Enabled(w, labels[0]) && Runs(Step(w, labels[0]), labels[1..]))
  }

  function Run(w: World, labels: seq<Label>): (v: World)
    requires Formed(w) && Runs(w, labels)
    ensures Formed(v)
    decreases |labels|
  {
    if labels == [] then w else Run(Step(w, labels[0]), labels[1..])
  }

  predicate NothingCarriedOver(w: World, labels: seq<Label>)
    requires Formed(w) && Runs(w, labels)
    decreases |labels|
  {
    labels == [] || (!CarriesOver(w, labels[0]) && NothingCarriedOver(Step(w, labels[0]), labels[1..]))
  }
}
