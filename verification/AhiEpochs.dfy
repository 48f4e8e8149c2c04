/** What the epoch number is for: exactly when a stream is charged with an older one's requests. */
module AhiEpochs {
  import opened Bytes
  import opened AhiRing
  import opened AhiProof
  import opened AhiTheorems

  // ---- one poll ----

  /** A refill leaves the tail where it is. */
  lemma RefillKeepsTail(d: Driver, h: Header, completed: bool)
    requires SlotsOk(d.slots) && GoodCap(|h.ring|) && d.channels == 2
    ensures Refill(d, h, completed).h.tail == h.tail
  {
  }

  /** Collecting moves the tail exactly if something was returned. */
  lemma ReapMoves(slots: seq<Slot>, port: seq<nat>, tail: nat)
    requires SlotsOk(slots) && PortOk(slots, port) && tail < WORD
    ensures Reap(slots, port, tail, false).tail == tail <==> port == []
  {
    ReapCounts(slots, port, tail, false);
    var after := Reap(slots, port, tail, false).slots;
    var n := InFlight(slots) - InFlight(after);
    if port != [] {
      assert port[0] in port && slots[port[0]].pending;
      assert 0 < n < WORD;
      Difference(tail, tail + n);
    }
  }

  lemma ServeTail(d: Driver, h: Header)
    requires SlotsOk(d.slots) && PortOk(d.slots, d.port) && GoodCap(|h.ring|) && d.channels == 2
    requires h.head == h.tail < WORD
    ensures Serve(d, h).h.tail == h.tail <==> d.port == []
  {
    assert Minus(h.head, h.tail) == 0;
    ReapMoves(d.slots, d.port, h.tail);
    var r := Reap(d.slots, d.port, h.tail, false);
    ReapShape(d.slots, d.port, h.tail, false);
    RefillKeepsTail(d.(slots := r.slots, port := []), h.(tail := r.tail), r.completed);
  }

  /** The first poll of a stream just published leaves its tail alone if and only if the stream's number is
      seen to be new, or no request of an older one has come back. */
  lemma TailStaysExactlyWhen(d: Driver, h: Header, opens: bool)
    requires Shape(d) && GoodCap(|h.ring|) && h.ahi && h.epoch != 0 && h.head == h.tail < WORD
    requires Joins(d, h, opens)
    ensures Poll(d, h, opens).h.tail == h.tail <==> Replaced(d, h) || d.port == []
  {
    var j := Joined(d, h);
    ServeTail(j, h);
    assert j.port == if Replaced(d, h) then [] else d.port;
  }

  // ---- whole runs ----

  /** The account holds now and after every further step. */
  ghost predicate AlwaysAccounted(w: World, labels: seq<Label>)
    requires Formed(w) && Runs(w, labels)
    decreases |labels|
  {
    && (w.h.epoch != 0 ==> Accounted(w))
    && (labels != [] ==> AlwaysAccounted(Step(w, labels[0]), labels[1..]))
  }

  /** Publishing over requests that are still out breaks the account at once. */
  lemma CarriedIsCharged(w: World, l: Label)
    requires Inv(w) && Enabled(w, l) && CarriesOver(w, l)
    ensures Step(w, l).h.epoch != 0 && !Accounted(Step(w, l))
  {
    var v := Step(w, l);
    assert Accepted(v) && v.submitted == [] && Concat(v.submitted) == [];
    assert |Concat(v.submitted)| != v.released + InFlight(v.d.slots);
  }

  lemma {:induction false} AccountedFrom(w: World, labels: seq<Label>)
    requires Inv(w) && Runs(w, labels)
    ensures AlwaysAccounted(w, labels) <==> NothingCarriedOver(w, labels)
    decreases |labels|
  {
    if w.h.epoch != 0 {
      InvAccounts(w);
    }
    if labels != [] {
      var l, next, rest := labels[0], Step(w, labels[0]), labels[1..];
      if CarriesOver(w, l) {
        CarriedIsCharged(w, l);
        assert !AlwaysAccounted(next, rest);
      } else {
        StepKeeps(w, l);
        AccountedFrom(next, rest);
      }
    }
  }

  /** In every run from the beginning: every stream's account holds throughout if and only if no stream is
      published, under the number the launcher has already accepted, while requests are still out. */
  lemma AccountedExactlyWhen(w: World, labels: seq<Label>)
    requires Beginning(w) && Runs(w, labels)
    ensures AlwaysAccounted(w, labels) <==> NothingCarriedOver(w, labels)
  {
    AccountedFrom(w, labels);
  }

  // ---- the stream's own rate ----

  ghost predicate FreshEpochs(w: World, labels: seq<Label>)
    requires Formed(w) && Runs(w, labels)
    decreases |labels|
  {
    labels == [] || (!Reuses(w, labels[0]) && FreshEpochs(Step(w, labels[0]), labels[1..]))
  }

  /** The launcher plays an accepted stream at that stream's rate. */
  predicate Tuned(w: World) {
    w.h.epoch != 0 && Accepted(w) ==> w.d.rate == w.h.rate && w.d.channels == w.h.channels
  }

  lemma PollTuned(d: Driver, h: Header, opens: bool)
    requires Shape(d) && GoodCap(|h.ring|)
    requires h.epoch != 0 && d.valid && d.epoch == h.epoch ==> d.rate == h.rate && d.channels == h.channels
    ensures var v := Poll(d, h, opens).d;
      h.epoch != 0 && v.valid && v.epoch == h.epoch ==> v.rate == h.rate && v.channels == h.channels
    ensures var q := Poll(d, h, opens).h; q.epoch == h.epoch && q.rate == h.rate && q.channels == h.channels
  {
    if h.ahi && h.epoch != 0 && Joins(d, h, opens) {
      ServeKeepsHeader(Joined(d, h), h);
    }
  }

  lemma ServeKeepsHeader(d: Driver, h: Header)
    requires SlotsOk(d.slots) && PortOk(d.slots, d.port) && GoodCap(|h.ring|) && d.channels == 2
    ensures Serve(d, h).h == h.(tail := Serve(d, h).h.tail, underruns := Serve(d, h).h.underruns)
  {
  }

  lemma StepTuned(w: World, l: Label)
    requires Formed(w) && Tuned(w) && Enabled(w, l) && !Reuses(w, l)
    ensures Tuned(Step(w, l))
  {
    if l.Service? {
      PollTuned(w.d, w.h, l.opens);
    }
  }

  /** If no number is ever reused, every accepted stream is played at its own rate. */
  lemma {:induction false} FreshIsTuned(w: World, labels: seq<Label>)
    requires Formed(w) && Tuned(w) && Runs(w, labels) && FreshEpochs(w, labels)
    ensures Tuned(Run(w, labels))
    decreases |labels|
  {
    if labels != [] {
      StepTuned(w, labels[0]);
      FreshIsTuned(Step(w, labels[0]), labels[1..]);
    }
  }

  // ---- the number does matter ----

  lemma RunsOn(w: World, labels: seq<Label>, l: Label)
    requires Formed(w) && Runs(w, labels) && Enabled(Run(w, labels), l)
    ensures Runs(w, labels + [l]) && Run(w, labels + [l]) == Step(Run(w, labels), l)
    decreases |labels|
  {
    if labels == [] {
      assert labels + [l] == [l] && [l][1..] == [];
    } else {
      assert (labels + [l])[1..] == labels[1..] + [l];
      RunsOn(Step(w, labels[0]), labels[1..], l);
    }
  }

  function Published(ring: seq<byte>): Header { Header(true, 1, 8000, 2, 0, 0, 0, ring) }

  lemma FrameGoesOut(b: World)
    requires Formed(b) && !b.d.open && !b.d.failed && b.h.(head := 0, ring := []) == Published([]) && b.h.head == 4
    ensures var v := Step(b, Service(true));
      && v.d.valid && v.d.epoch == 1 && v.d.port == [] && |v.h.ring| == |b.h.ring|
      && v.d.slots[0].bytes == 4 && v.d.slots[1].bytes == 0
  {
    var j := Joined(b.d, b.h);
    assert Poll(b.d, b.h, true) == Serve(j, b.h);
    assert Reap(j.slots, j.port, 0, false) == Reaped(j.slots, 0, false);
    assert Serve(j, b.h) == Refill(j, b.h, false);
    FrameFills(j, b.h);
  }

  lemma FrameFills(d: Driver, h: Header)
    requires SlotsOk(d.slots) && GoodCap(|h.ring|) && d.channels == 2 && d.rate == 8000
    requires h.head == 4 && h.tail == 0 && !d.slots[0].pending && !d.slots[1].pending
    ensures var p := Refill(d, h, false); p.d.slots[0].bytes == 4 && p.d.slots[1].bytes == 0 && p.d.port == d.port
  {
    assert Staged(d.slots, h) == 0;
    assert Next(d, h) == 4;
  }

  lemma FrameIsCharged(f: World)
    requires Formed(f) && f.d.valid && f.d.epoch == 1 && f.d.port == [0] && f.h == Published(f.h.ring)
    requires f.d.slots[0].bytes == 4
    ensures var v := Step(f, Service(true)); v.h.epoch == 1 && v.stream == f.stream && v.h.tail == 4 && v.h.head == 0
  {
    var idle := f.d.slots[0 := Idle(f.d.slots[0])];
    assert [0][1..] == [];
    assert Reap(f.d.slots, [0], 0, false) == Reap(idle, [], 4, true);
    assert Reap(idle, [], 4, true).tail == 4;
    ServeIsPoll(f.d, f.h);
    RefillKeepsTail(f.d.(slots := idle, port := []), f.h.(tail := 4), true);
  }

  lemma ServeIsPoll(d: Driver, h: Header)
    requires Shape(d) && GoodCap(|h.ring|) && d.valid && d.epoch == h.epoch != 0 && h.ahi
    ensures Poll(d, h, true) == Serve(d, h)
  {
  }

  /** One frame written and handed over. */
  lemma FrameOutRun(w: World) returns (labels: seq<Label>)
    requires Beginning(w) && !w.d.failed
    ensures Runs(w, labels)
    ensures var v := Run(w, labels);
      && v.d.valid && v.d.epoch == 1 && v.d.port == [] && |v.h.ring| == |w.h.ring|
      && v.d.slots[0].bytes == 4 && v.d.slots[1].bytes == 0
  {
    var h := Published(w.h.ring);
    var data: seq<byte> := [1, 2, 3, 4];
    assert Runs(w, []) && Run(w, []) == w;
    RunsOn(w, [], Stream(h));
    RunsOn(w, [] + [Stream(h)], Write(data));
    labels := [] + [Stream(h)] + [Write(data)];
    FrameGoesOut(Run(w, labels));
    RunsOn(w, labels, Service(true));
    labels := labels + [Service(true)];
  }

  /** Its request comes back, and the next stream is published over it. */
  lemma RepublishRun(w: World, before: seq<Label>) returns (labels: seq<Label>)
    requires Formed(w) && Runs(w, before)
    requires var v := Run(w, before);
      && v.d.valid && v.d.epoch == 1 && v.d.port == [] && v.d.slots[0].bytes == 4
    ensures Runs(w, labels)
    ensures var u, v := Run(w, before), Run(w, labels);
      v.d == u.d.(port := [0]) && v.h == Published(u.h.ring) && v.stream == []
  {
    var h := Published(Run(w, before).h.ring);
    RunsOn(w, before, Complete(0));
    labels := before + [Complete(0)];
    assert Run(w, labels).d.port == [] + [0];
    RunsOn(w, labels, Opening(h.(epoch := 0)));
    labels := labels + [Opening(h.(epoch := 0))];
    RunsOn(w, labels, Stream(h));
    labels := labels + [Stream(h)];
  }

  /** A frame is written and handed over, its request comes back, and the firmware publishes the next, still
      empty stream under the same number before the launcher looks again: that stream's tail then stands a
      frame past its head. */
  lemma ReusedEpochRun(w: World) returns (labels: seq<Label>)
    requires Beginning(w) && !w.d.failed
    ensures Runs(w, labels) && labels != [] && labels[|labels| - 1].Service? && !NothingCarriedOver(w, labels)
    ensures var v := Run(w, labels); v.h.epoch != 0 && v.stream == [] && v.h.tail == 4 && v.h.head == 0
  {
    labels := FrameOutRun(w);
    labels := RepublishRun(w, labels);
    var f := Run(w, labels);
    FrameIsCharged(f);
    RunsOn(w, labels, Service(true));
    labels := labels + [Service(true)];
    PastHeadIsCarried(w, labels);
  }

  lemma PastHeadIsCarried(w: World, labels: seq<Label>)
    requires Beginning(w) && Runs(w, labels)
    requires var v := Run(w, labels); v.h.epoch != 0 && v.stream == [] && v.h.tail != v.h.head
    ensures !NothingCarriedOver(w, labels)
  {
    if NothingCarriedOver(w, labels) {
      HandedIsStream(w, labels);
    }
  }
}
