/** What holds after every run of the audio ring. */
module AhiTheorems {
  import opened Bytes
  import opened AhiRing
  import opened AhiProof

  // ---- the next buffer ----

  /** Where the launcher looks: just behind what it has taken, at a whole frame, with no more than a ring
      of bytes to come. */
  lemma Position(w: World)
    requires Inv(w) && w.h.epoch != 0 && Accepted(w)
    ensures var staged := Staged(w.d.slots, w.h);
      && staged == (w.start + Taken(w)) % WORD
      && Minus(w.h.head, staged) == |w.stream| - Taken(w) <= |w.h.ring|
      && staged % |w.h.ring| % 4 == 0
  {
    Looking(w.start, w.released, InFlight(w.d.slots), |w.stream|, |w.h.ring|, w.h.head, w.h.tail);
  }

  /** The bytes to be taken next: there, within the ring, and none only if fewer than a frame is left. */
  lemma NextFits(w: World)
    requires Inv(w) && w.h.epoch != 0 && Accepted(w)
    ensures var n := Next(w.d, w.h);
      && n <= |w.stream| - Taken(w) && (n == 0 ==> w.d.rate < 50 || |w.stream| - Taken(w) < 4)
  {
    Position(w);
    RoomToEnd(Staged(w.d.slots, w.h) % |w.h.ring|, |w.h.ring|);
  }

  lemma RoomToEnd(at: nat, cap: nat)
    requires at < cap && at % 4 == 0 && cap % 4 == 0
    ensures cap - at >= 4
  {
  }

  function Hand(w: World, slot: nat, data: seq<byte>): World
    requires Formed(w) && slot < SLOTS && 0 < |data| <= BUFFER
  {
    w.(d := w.d.(slots := w.d.slots[slot := Submit(w.d.slots[slot], data)]),
       submitted := w.submitted + [data], carries := w.carries[slot := |w.submitted|])
  }

  /** Bytes that continue the stream behind what has been taken. */
  predicate Continues(w: World, data: seq<byte>)
    requires Formed(w)
  {
    var taken, n := Taken(w), |data|;
    0 < n <= BUFFER && n % 4 == 0 && n % 2 == 0 && taken + n <= |w.stream| && data == Swap(w.stream[taken..taken + n])
  }

  /** Either at most an underrun is counted, or the next bytes of the stream go to the free slot. */
  predicate Refilled(w: World, p: Polled)
    requires Formed(w)
  {
    if p.slot < 0 then
      && p.d == w.d.(underruns := p.d.underruns) && p.h == w.h.(underruns := p.h.underruns)
      && (w.d.rate < 50 || |w.stream| - Taken(w) < 4 || Free(w.d.slots) < 0)
    else
      && p.slot == Free(w.d.slots) < SLOTS && Continues(w, p.sent)
      && p.d == Hand(w, p.slot, p.sent).d && p.h == w.h
  }

  /** A refill by its outcomes, n bytes being wanted from the place `at`. */
  predicate Cases(d: Driver, h: Header, p: Polled, n: nat, at: nat)
    requires |d.slots| == SLOTS
  {
    if p.slot < 0 then
      && p.d == d.(underruns := p.d.underruns) && p.h == h.(underruns := p.h.underruns)
      && (Minus(h.head, Staged(d.slots, h)) > |h.ring| || d.rate < 50 || n == 0 || Free(d.slots) < 0)
    else
      && 0 < n <= BUFFER && n % 2 == 0 && at + n <= |h.ring| && |d.slots[0].buffer| == |d.slots[1].buffer| == BUFFER
      && p.slot == Free(d.slots) < SLOTS && p.sent == Swap(h.ring[at..at + n]) && p.h == h
      && p.d == d.(slots := d.slots[p.slot := Submit(d.slots[p.slot], p.sent)])
  }

  lemma RefillCases(d: Driver, h: Header, completed: bool)
    requires SlotsOk(d.slots) && GoodCap(|h.ring|) && d.channels == 2
    ensures Cases(d, h, Refill(d, h, completed), Next(d, h), Staged(d.slots, h) % |h.ring|)
  {
  }

  lemma CasesMean(w: World, p: Polled, n: nat, at: nat)
    requires Formed(w) && Cases(w.d, w.h, p, n, at) && n % 4 == 0
    requires Minus(w.h.head, Staged(w.d.slots, w.h)) <= |w.h.ring|
    requires Taken(w) + n <= |w.stream| && (n == 0 ==> w.d.rate < 50 || |w.stream| - Taken(w) < 4)
    requires at + n <= |w.h.ring| && w.h.ring[at..at + n] == w.stream[Taken(w)..Taken(w) + n]
    ensures Refilled(w, p)
  {
  }

  lemma RefillIs(w: World, completed: bool)
    requires Inv(w) && w.h.epoch != 0 && Accepted(w)
    ensures Refilled(w, Refill(w.d, w.h, completed))
  {
    var n, at := Next(w.d, w.h), Staged(w.d.slots, w.h) % |w.h.ring|;
    Position(w);
    NextFits(w);
    NextSlice(w.h.ring, w.start, w.stream, Taken(w), n);
    RefillCases(w.d, w.h, completed);
    CasesMean(w, Refill(w.d, w.h, completed), n, at);
  }

  lemma HandIsFormed(w: World, slot: nat, data: seq<byte>)
    requires Formed(w) && slot < SLOTS && !w.d.slots[slot].pending && w.d.open && 0 < |data| <= BUFFER
    ensures Formed(Hand(w, slot, data))
  {
  }

  lemma HandServes(w: World, slot: nat, data: seq<byte>)
    requires Inv(w) && w.h.epoch != 0 && w.h.ahi && Accepted(w)
    requires slot < SLOTS && !w.d.slots[slot].pending && Continues(w, data) && Formed(Hand(w, slot, data))
    ensures Serving(Hand(w, slot, data))
  {
    var taken, n, next := Taken(w), |data|, Hand(w, slot, data);
    WholeSum(taken, n);
    OneMoreBuffer(w.submitted, w.stream, taken, n);
    SubmittedCarries(w.d.slots, w.carries, w.submitted, slot, data);
    assert Taken(next) == taken + n;
  }

  lemma HandKeeps(w: World, slot: nat, data: seq<byte>)
    requires Inv(w) && w.h.epoch != 0 && w.h.ahi && Accepted(w)
    requires slot < SLOTS && !w.d.slots[slot].pending && Continues(w, data)
    ensures Inv(Hand(w, slot, data)) && Accepted(Hand(w, slot, data))
  {
    HandIsFormed(w, slot, data);
    HandServes(w, slot, data);
  }

  lemma QuietKeeps(w: World, d: Driver, h: Header)
    requires Inv(w) && w.h.epoch != 0 && Accepted(w)
    requires d == w.d.(underruns := d.underruns) && h == w.h.(underruns := h.underruns)
    ensures Inv(w.(d := d, h := h)) && Accepted(w.(d := d, h := h))
  {
  }

  lemma RefillKeeps(w: World, p: Polled)
    requires Inv(w) && w.h.epoch != 0 && w.h.ahi && Accepted(w) && Refilled(w, p)
    ensures Inv(Afterwards(w, p)) && Accepted(Afterwards(w, p)) && p.h.tail == w.h.tail
  {
    assert Minus(w.h.tail, w.h.tail) == 0;
    if p.slot < 0 {
      QuietKeeps(w, p.d, p.h);
      assert Afterwards(w, p) == w.(d := p.d, h := p.h);
    } else {
      HandKeeps(w, p.slot, p.sent);
      assert Afterwards(w, p) == Hand(w, p.slot, p.sent);
    }
  }

  // ---- a whole poll ----

  /** Collecting the returned requests moves bytes from in flight to released. */
  function Collected(w: World): (c: World)
    requires Formed(w) && w.h.tail < WORD
    ensures SlotsOk(c.d.slots) && PortOk(c.d.slots, c.d.port)
  {
    var r := Reap(w.d.slots, w.d.port, w.h.tail, false);
    ReapCounts(w.d.slots, w.d.port, w.h.tail, false);
    w.(d := w.d.(slots := r.slots, port := []), h := w.h.(tail := r.tail),
       released := w.released + (InFlight(w.d.slots) - InFlight(r.slots)))
  }

  lemma CollectCounts(w: World)
    requires Inv(w) && w.h.epoch != 0 && Accepted(w)
    ensures Collected(w).h.tail == (w.start + Collected(w).released) % WORD
    ensures Taken(Collected(w)) == Taken(w) && Collected(w).released >= w.released
    ensures Minus(Collected(w).h.tail, w.h.tail) == Collected(w).released - w.released
    ensures Cleared(w.d.slots, Collected(w).d.slots, w.d.port) && SlotsOk(Collected(w).d.slots)
  {
    var slots, port, tail := w.d.slots, w.d.port, w.h.tail;
    ReapCounts(slots, port, tail, false);
    var done := InFlight(slots) - InFlight(Reap(slots, port, tail, false).slots);
    WordSum(w.start + w.released, done);
    Difference(w.start + w.released, w.start + w.released + done);
  }

  lemma CollectKeeps(w: World)
    requires Inv(w) && w.h.epoch != 0 && Accepted(w)
    ensures Inv(Collected(w)) && Accepted(Collected(w))
  {
    CollectCounts(w);
  }

  lemma ServeIs(w: World)
    requires Inv(w) && w.h.epoch != 0 && Accepted(w)
    ensures Serve(w.d, w.h) == Refill(Collected(w).d, Collected(w).h, Reap(w.d.slots, w.d.port, w.h.tail, false).completed)
  {
    Difference(w.start + w.released, w.start + |w.stream|);
  }

  /** A poll of an accepted stream: collecting, then refilling. */
  lemma ServeKeeps(w: World, p: Polled)
    requires Inv(w) && w.h.epoch != 0 && w.h.ahi && Accepted(w) && p == Serve(w.d, w.h)
    ensures Inv(Afterwards(w, p)) && Accepted(Afterwards(w, p))
    ensures Refilled(Collected(w), p)
  {
    CollectKeeps(w);
    ServeIs(w);
    RefillIs(Collected(w), Reap(w.d.slots, w.d.port, w.h.tail, false).completed);
    RefillKeeps(Collected(w), p);
    CollectCounts(w);
    assert Minus(Collected(w).h.tail, Collected(w).h.tail) == 0;
    assert Afterwards(w, p) == Afterwards(Collected(w), p);
  }

  lemma JoinKeeps(w: World, opens: bool)
    requires Inv(w) && w.h.epoch != 0 && w.h.ahi && Joins(w.d, w.h, opens)
    ensures var j := w.(d := Joined(w.d, w.h));
      Inv(j) && Accepted(j) && (Accepted(w) ==> j == w) && (!Accepted(w) ==> Taken(j) == 0)
  {
    if !Accepted(w) {
      assert Concat([]) == Swap(w.stream[..0]);
    }
  }

  /** A poll either serves the stream it has joined, or leaves the counters and stays outside it. */
  lemma ServiceIs(w: World, opens: bool)
    requires Inv(w)
    ensures var p := Poll(w.d, w.h, opens);
      if w.h.ahi && w.h.epoch != 0 && Joins(w.d, w.h, opens) then p == Serve(Joined(w.d, w.h), w.h)
      else
        && p.slot < 0 && p.h == w.h && Shape(p.d)
        && (w.h.epoch != 0 ==> !Accepted(w.(d := p.d)) && w.released == 0 && w.submitted == [])
  {
  }

  lemma ServiceKeeps(w: World, opens: bool)
    requires Inv(w)
    ensures Inv(Step(w, Service(opens)))
  {
    ServiceIs(w, opens);
    var p := Poll(w.d, w.h, opens);
    if w.h.ahi && w.h.epoch != 0 && Joins(w.d, w.h, opens) {
      JoinKeeps(w, opens);
      var j := w.(d := Joined(w.d, w.h));
      ServeKeeps(j, p);
      assert Afterwards(w, p) == Afterwards(j, p);
    } else {
      assert Minus(w.h.tail, w.h.tail) == 0;
      assert Afterwards(w, p) == w.(d := p.d);
    }
  }

  lemma StepKeeps(w: World, l: Label)
    requires Inv(w) && Enabled(w, l) && !CarriesOver(w, l)
    ensures Inv(Step(w, l))
  {
    match l
    case Write(data) => WriteKeeps(w, data);
    case Complete(slot) => CompleteKeeps(w, slot);
    case Opening(_) => FirmwareKeeps(w, l);
    case Stream(_) => FirmwareKeeps(w, l);
    case Service(opens) => ServiceKeeps(w, opens);
  }

  lemma {:induction false} RunKeeps(w: World, labels: seq<Label>)
    requires Inv(w) && Runs(w, labels) && NothingCarriedOver(w, labels)
    ensures Inv(Run(w, labels))
    decreases |labels|
  {
    if labels != [] {
      StepKeeps(w, labels[0]);
      RunKeeps(Step(w, labels[0]), labels[1..]);
    }
  }

  // ---- what every run keeps ----

  /** Nothing open yet, and no stream published. */
  predicate Beginning(w: World) {
    && Formed(w) && !w.d.open && w.h.epoch == 0
  }

  /** The account of a stream: the buffers handed to AHI, joined and swapped back, are its first bytes; the
      bytes released and those in flight add up to them; and the tail never passes the head. */
  predicate Accounted(v: World) {
    && Formed(v)
    && v.h.tail == (v.start + v.released) % WORD && v.h.head == (v.start + |v.stream|) % WORD
    && v.released <= |v.stream| <= v.released + |v.h.ring|
    && if !Accepted(v) then v.submitted == [] && v.released == 0
       else
         var handed := Concat(v.submitted);
         && |handed| == v.released + InFlight(v.d.slots) <= |v.stream| && |handed| % 4 == 0
         && |handed| % 2 == 0 && Swap(handed) == v.stream[..|handed|]
  }

  lemma InvAccounts(v: World)
    requires Inv(v) && v.h.epoch != 0
    ensures Accounted(v)
  {
    if Accepted(v) {
      WholeSum(Taken(v), Taken(v));
      SwapTwice(v.stream[..Taken(v)]);
    }
  }

  /** In every run every byte is handed over once, in order and byte-swapped, in whole frames, whatever the
      order in which requests return and however often the stream is replaced. */
  lemma HandedIsStream(w: World, labels: seq<Label>)
    requires Beginning(w) && Runs(w, labels) && NothingCarriedOver(w, labels) && Run(w, labels).h.epoch != 0
    ensures Accounted(Run(w, labels))
  {
    RunKeeps(w, labels);
    InvAccounts(Run(w, labels));
  }

  /** A request in flight for the current stream still holds one submitted buffer, unchanged, and no two
      requests hold the same one. */
  lemma InFlightIsIntact(w: World, labels: seq<Label>, slot: nat)
    requires Beginning(w) && Runs(w, labels) && NothingCarriedOver(w, labels) && slot < SLOTS
    requires var v := Run(w, labels); v.h.epoch != 0 && Shape(v.d) && Accepted(v) && v.d.slots[slot].pending
    ensures var v := Run(w, labels);
      && |v.carries| == SLOTS && v.carries[slot] < |v.submitted|
      && v.d.slots[slot].bytes == |v.submitted[v.carries[slot]]|
      && v.d.slots[slot].buffer[..v.d.slots[slot].bytes] == v.submitted[v.carries[slot]]
      && (v.d.slots[1 - slot].pending ==> v.carries[1 - slot] != v.carries[slot])
  {
    RunKeeps(w, labels);
  }

  /** Requests of a replaced stream never move the new stream's tail, however many of them have returned. */
  lemma OldRequestsAreDropped(d: Driver, h: Header, opens: bool)
    requires Shape(d) && GoodCap(|h.ring|) && h.tail < WORD && Replaced(d, h)
    ensures Poll(d, h, opens).h.tail == h.tail
    ensures h.epoch != 0 ==> forall i :: 0 <= i < SLOTS && i != Poll(d, h, opens).slot ==> !Poll(d, h, opens).d.slots[i].pending
  {
    assert Reap(Joined(d, h).slots, [], h.tail, false).tail == h.tail;
  }

  /** A poll that can serve the stream hands over a buffer unless less than a frame is waiting, both
      requests are still out, or the rate is below fifty frames a second: the ring never stalls at its end. */
  lemma ServiceDelivers(w: World, opens: bool)
    requires Inv(w) && w.h.epoch != 0 && w.h.ahi && Joins(w.d, w.h, opens)
    ensures var v := Step(w, Service(opens));
      Poll(w.d, w.h, opens).slot < 0 ==>
        v.d.rate < 50 || |v.stream| - Taken(v) < 4 || (v.d.slots[0].pending && v.d.slots[1].pending)
  {
    ServiceIs(w, opens);
    JoinKeeps(w, opens);
    var j, p := w.(d := Joined(w.d, w.h)), Poll(w.d, w.h, opens);
    ServeKeeps(j, p);
    CollectCounts(j);
    IdleMeans(j, p);
    assert Afterwards(w, p) == Afterwards(j, p);
  }

  lemma IdleMeans(j: World, p: Polled)
    requires Inv(j) && j.h.tail < WORD && Formed(Collected(j)) && Refilled(Collected(j), p) && Taken(Collected(j)) == Taken(j)
    requires Minus(Collected(j).h.tail, j.h.tail) == Collected(j).released - j.released
    ensures var v := Afterwards(j, p);
      p.slot < 0 ==> v.d.rate < 50 || |v.stream| - Taken(v) < 4 || (v.d.slots[0].pending && v.d.slots[1].pending)
  {
  }

  /** The rate is the stream's own, unless the launcher took it for one already accepted. */
  lemma ServiceRate(w: World, opens: bool)
    requires Formed(w) && w.h.epoch != 0 && w.h.ahi && Joins(w.d, w.h, opens)
    ensures Step(w, Service(opens)).d.rate == if Accepted(w) then w.d.rate else w.h.rate
  {
  }
}
