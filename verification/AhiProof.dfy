/** Over every run of application, firmware, AHI and launcher, the bytes handed to AHI are the stream,
    byte-swapped, each once and in order, and the counters account for all of them. */
module AhiProof {
  import opened Bytes
  import opened AhiRing

  // ---- arithmetic ----

  lemma Multiples(a: int, b: int, m: nat)
    requires a < b
    ensures a * m + m <= b * m
  {
    assert (b - a - 1) * m >= 0;
  }

  lemma RemainderOfSum(q: int, m: nat, r: nat)
    requires r < m
    ensures (q * m + r) % m == r
  {
    var x := q * m + r;
    var k := x / m;
    assert x == k * m + x % m;
    if k < q { Multiples(k, q, m); }
    if q < k { Multiples(q, k, m); }
  }

  /** Reducing a counter does not move its place in the ring. */
  lemma PlaceOfWord(x: nat, cap: nat)
    requires GoodCap(cap)
    ensures x % WORD % cap == x % cap
  {
    var k := WORD / cap;
    assert WORD == cap * k;
    var q, r := x / WORD, x % WORD;
    assert x == q * WORD + r;
    var s := r % cap;
    var p := r / cap;
    assert x == (q * k + p) * cap + s by {
      assert q * WORD == q * k * cap;
    }
    RemainderOfSum(q * k + p, cap, s);
  }

  /** Two counters less than a whole range apart differ by what their words differ by. */
  lemma Difference(a: nat, b: nat)
    requires a <= b < a + WORD
    ensures Minus(b % WORD, a % WORD) == b - a
  {
    var qa, qb := a / WORD, b / WORD;
    assert a == qa * WORD + a % WORD && b == qb * WORD + b % WORD;
  }

  lemma WordSum(a: nat, b: nat)
    ensures (a % WORD + b) % WORD == (a + b) % WORD
  {
    var qa := a / WORD;
    assert a == qa * WORD + a % WORD;
  }

  /** Within the ring, the place after some bytes is that many further, until the end. */
  lemma PlaceAhead(x: nat, cap: nat, j: nat)
    requires cap > 0 && x % cap + j < cap
    ensures (x + j) % cap == x % cap + j
  {
    var q := x / cap;
    assert x + j == q * cap + (x % cap + j);
    RemainderOfSum(q, cap, x % cap + j);
  }

  lemma WholeSum(a: nat, b: nat)
    requires a % 4 == 0 && b % 4 == 0
    ensures (a + b) % 4 == 0 && a % 2 == 0 && b % 2 == 0 && (a + b) % 2 == 0
  {
    Fours(a / 4 + b / 4);
    Twos(2 * (a / 4));
    Twos(2 * (b / 4));
    Twos(2 * (a / 4 + b / 4));
  }

  /** Where the launcher looks for more: just behind what it has taken, at a whole frame. */
  lemma Looking(start: nat, released: nat, flight: nat, length: nat, cap: nat, head: nat, tail: nat)
    requires GoodCap(cap) && start % 4 == 0 && (released + flight) % 4 == 0
    requires head == (start + length) % WORD && tail == (start + released) % WORD
    requires released + flight <= length <= released + cap
    ensures var staged := (tail + flight) % WORD;
      && staged == (start + released + flight) % WORD
      && Minus(head, staged) == length - (released + flight) <= cap
      && staged % cap % 4 == 0
  {
    var x := start + (released + flight);
    WordSum(start + released, flight);
    Difference(x, start + length);
    PlaceOfWord(x, cap);
    WholeSum(start, released + flight);
    PlaceIsWhole(x, cap);
  }

  lemma PlaceIsWhole(x: nat, cap: nat)
    requires cap > 0 && cap % 4 == 0 && x % 4 == 0
    ensures x % cap % 4 == 0
  {
    var q, k := x / cap, cap / 4;
    assert x == q * cap + x % cap && cap == 4 * k;
    assert x % cap == x - 4 * (q * k);
  }

  // ---- swapping ----

  /** Swapping is its own inverse. */
  lemma SwapTwice(s: seq<byte>)
    requires |s| % 2 == 0
    ensures Swap(Swap(s)) == s
  {
  }

  lemma SwapAppends(a: seq<byte>, b: seq<byte>)
    requires |a| % 2 == 0 && |b| % 2 == 0
    ensures Swap(a + b) == Swap(a) + Swap(b)
  {
    forall i | 0 <= i < |a + b| ensures Swap(a + b)[i] == (Swap(a) + Swap(b))[i] {
      if i >= |a| {
        assert (i - |a|) % 2 == i % 2;
      }
    }
  }

  // ---- the invariant ----

  predicate RingHolds(ring: seq<byte>, start: nat, stream: seq<byte>)
    requires |ring| > 0
  {
    forall p :: 0 <= p < |stream| && |stream| <= p + |ring| ==> ring[(start + p) % |ring|] == stream[p]
  }

  predicate CountersOk(w: World) {
    && w.h.head == (w.start + |w.stream|) % WORD && w.h.tail == (w.start + w.released) % WORD
    && w.released <= |w.stream| <= w.released + |w.h.ring| && w.start % 4 == 0
  }

  /** The launcher has accepted the current stream. */
  predicate Accepted(w: World) { w.d.valid && w.d.epoch == w.h.epoch }

  function Taken(w: World): nat
    requires |w.d.slots| == SLOTS
  {
    w.released + InFlight(w.d.slots)
  }

  /** A pending slot still holds, untouched, the one submitted buffer it carries. */
  predicate CarriesOne(s: Slot, carries: nat, submitted: seq<seq<byte>>) {
    s.pending ==> carries < |submitted| && s.bytes == |submitted[carries]| <= |s.buffer| &&
                  s.buffer[..s.bytes] == submitted[carries]
  }

  predicate Carried(slots: seq<Slot>, carries: seq<nat>, submitted: seq<seq<byte>>)
    requires |slots| == |carries| == SLOTS
  {
    && CarriesOne(slots[0], carries[0], submitted) && CarriesOne(slots[1], carries[1], submitted)
    && (slots[0].pending && slots[1].pending ==> carries[0] != carries[1])
  }

  /** The launcher's part in the current stream. */
  predicate Serving(w: World)
    requires Formed(w)
  {
    && (w.h.ahi || (w.released == 0 && w.submitted == []))
    && Taken(w) <= |w.stream| && Taken(w) % 4 == 0
    && Concat(w.submitted) == Swap(w.stream[..Taken(w)])
    && Carried(w.d.slots, w.carries, w.submitted)
  }

  predicate Inv(w: World) {
    && Formed(w)
    && (w.h.epoch != 0 ==>
          && CountersOk(w) && RingHolds(w.h.ring, w.start, w.stream)
          && if Accepted(w) then Serving(w) else w.released == 0 && w.submitted == [])
  }

  // ---- the application and AHI ----

  lemma FillHolds(ring: seq<byte>, start: nat, stream: seq<byte>, head: nat, data: seq<byte>)
    requires GoodCap(|ring|) && RingHolds(ring, start, stream) && |data| <= |ring|
    requires head == (start + |stream|) % WORD
    ensures RingHolds(Fill(ring, head, data), start, stream + data)
  {
    var cap, all, after := |ring|, stream + data, Fill(ring, head, data);
    PlaceOfWord(start + |stream|, cap);
    forall p | 0 <= p < |all| && |all| <= p + cap ensures after[(start + p) % cap] == all[p] {
      PlaceFromHead(start, |stream|, head, cap, p);
    }
  }

  /** How far behind the head a place of the ring is. */
  lemma PlaceFromHead(start: nat, length: nat, head: nat, cap: nat, p: nat)
    requires cap > 0 && head % cap == (start + length) % cap && p < length + cap && length <= p + cap
    ensures ((start + p) % cap - head) % cap == if p < length then p - length + cap else p - length
  {
    var d := if p < length then p - length + cap else p - length;
    var a, b, c := (start + p) / cap, (start + length) / cap, head / cap;
    assert start + p == a * cap + (start + p) % cap;
    assert start + length == b * cap + (start + length) % cap;
    assert head == c * cap + head % cap;
    var x := (start + p) % cap - head;
    var e := if p < length then -1 else 0;
    assert x == (b - a - c + e) * cap + d;
    RemainderOfSum(b - a - c + e, cap, d);
  }

  lemma WriteKeeps(w: World, data: seq<byte>)
    requires Inv(w) && Enabled(w, Write(data))
    ensures Inv(Step(w, Write(data)))
  {
    Difference(w.start + w.released, w.start + |w.stream|);
    FillHolds(w.h.ring, w.start, w.stream, w.h.head, data);
    WordSum(w.start + |w.stream|, |data|);
    if Accepted(w) {
      assert (w.stream + data)[..Taken(w)] == w.stream[..Taken(w)];
    }
  }

  lemma CompleteKeeps(w: World, slot: nat)
    requires Inv(w) && Enabled(w, Complete(slot))
    ensures Inv(Step(w, Complete(slot)))
  {
  }

  lemma FirmwareKeeps(w: World, l: Label)
    requires Inv(w) && Enabled(w, l) && (l.Opening? || l.Stream?) && !CarriesOver(w, l)
    ensures Inv(Step(w, l))
  {
    if l.Stream? {
      var next := Step(w, l);
      assert next.stream[..0] == [] && Concat([]) == [] == Swap([]);
    }
  }

  // ---- the launcher: collecting returned requests ----

  predicate Cleared(before: seq<Slot>, after: seq<Slot>, port: seq<nat>)
    requires |before| == |after| == SLOTS
  {
    && after[0] == (if 0 in port then Idle(before[0]) else before[0])
    && after[1] == (if 1 in port then Idle(before[1]) else before[1])
  }

  /** Whatever the order in which requests return, the tail advances by what they carried. */
  lemma {:induction false} ReapCounts(slots: seq<Slot>, port: seq<nat>, tail: nat, completed: bool)
    requires SlotsOk(slots) && PortOk(slots, port) && tail < WORD
    ensures var r := Reap(slots, port, tail, completed);
      && SlotsOk(r.slots) && Cleared(slots, r.slots, port)
      && InFlight(r.slots) <= InFlight(slots) <= 2 * BUFFER
      && r.tail == (tail + (InFlight(slots) - InFlight(r.slots))) % WORD
      && r.completed == (completed || port != [])
    decreases |port|
  {
    if port != [] {
      var p := port[0];
      var next := slots[p := Idle(slots[p])];
      FirstReturns(slots, port, p, next);
      var here := (tail + slots[p].bytes) % WORD;
      ReapCounts(next, port[1..], here, true);
      var rest := Reap(next, port[1..], here, true);
      WordSum(tail + slots[p].bytes, InFlight(next) - InFlight(rest.slots));
    }
  }

  lemma FirstReturns(slots: seq<Slot>, port: seq<nat>, p: nat, next: seq<Slot>)
    requires SlotsOk(slots) && PortOk(slots, port) && port != [] && p == port[0] && next == slots[p := Idle(slots[p])]
    ensures SlotsOk(next) && PortOk(next, port[1..]) && InFlight(next) == InFlight(slots) - slots[p].bytes
    ensures forall x :: x in port <==> x == p || x in port[1..]
  {
    assert forall x :: x in port <==> x == p || x in port[1..];
  }

  // ---- the launcher: the next buffer ----

  /** What stands in the ring behind the bytes already taken is the next of the stream. */
  lemma NextSlice(ring: seq<byte>, start: nat, stream: seq<byte>, taken: nat, n: nat)
    requires GoodCap(|ring|) && RingHolds(ring, start, stream)
    requires taken + n <= |stream| <= taken + |ring|
    requires (start + taken) % WORD % |ring| + n <= |ring|
    ensures var at := (start + taken) % WORD % |ring|; ring[at..at + n] == stream[taken..taken + n]
  {
    var cap := |ring|;
    PlaceOfWord(start + taken, cap);
    var at := (start + taken) % cap;
    var a, b := ring[at..at + n], stream[taken..taken + n];
    forall j | 0 <= j < n ensures a[j] == b[j] {
      PlaceAhead(start + taken, cap, j);
      assert start + taken + j == start + (taken + j);
      assert ring[(start + (taken + j)) % cap] == stream[taken + j];
    }
  }

  lemma {:induction false} ConcatSnoc(pieces: seq<seq<byte>>, last: seq<byte>)
    ensures Concat(pieces + [last]) == Concat(pieces) + last
  {
    var all := pieces + [last];
    ConcatNext(all, |pieces|);
    assert all[..|pieces|] == pieces && all[..|pieces| + 1] == all;
  }

  lemma OneMoreBuffer(submitted: seq<seq<byte>>, stream: seq<byte>, taken: nat, n: nat)
    requires taken % 4 == 0 && n % 4 == 0 && taken % 2 == 0 && taken + n <= |stream|
    requires Concat(submitted) == Swap(stream[..taken])
    ensures (taken + n) % 4 == 0 && taken % 2 == 0 && n % 2 == 0 && (taken + n) % 2 == 0
    ensures Concat(submitted + [Swap(stream[taken..taken + n])]) == Swap(stream[..taken + n])
  {
    WholeSum(taken, n);
    ConcatSnoc(submitted, Swap(stream[taken..taken + n]));
    SwapAppends(stream[..taken], stream[taken..taken + n]);
    assert stream[..taken + n] == stream[..taken] + stream[taken..taken + n];
  }

  lemma SubmittedCarries(slots: seq<Slot>, carries: seq<nat>, submitted: seq<seq<byte>>, slot: nat, data: seq<byte>)
    requires SlotsOk(slots) && |carries| == SLOTS && Carried(slots, carries, submitted)
    requires slot < SLOTS && !slots[slot].pending && 0 < |data| <= BUFFER
    ensures var after := slots[slot := Submit(slots[slot], data)];
      && SlotsOk(after) && Carried(after, carries[slot := |submitted|], submitted + [data])
      && InFlight(after) == InFlight(slots) + |data|
  {
    var s := Submit(slots[slot], data);
    assert s.buffer[..|data|] == data;
  }
}
