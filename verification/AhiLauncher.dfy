/** The launcher's audio service in its own form: two requests with their buffers, changed in place. */
module AhiLauncher {
  import opened Bytes
  import opened AhiRing

  class Request {
    var pending: bool
    var bytes: nat
    const buffer: array<byte>

    constructor ()
      ensures !pending && bytes == 0 && buffer.Length == BUFFER && fresh(buffer)
    {
      pending, bytes := false, 0;
      buffer := new byte[BUFFER](_ => 0);
    }

    function Value(): Slot
      reads this, buffer
    {
      Slot(pending, bytes, buffer[..])
    }
  }

  /** The audio part of the application window. */
  class Window {
    var ahi: bool
    var epoch: nat
    var rate: nat
    var channels: nat
    var head: nat
    var tail: nat
    var underruns: nat
    const ring: array<byte>

    constructor (cap: nat)
      ensures Value() == Header(false, 0, 0, 0, 0, 0, 0, ring[..]) && ring.Length == cap && fresh(ring)
    {
      ahi, epoch, rate, channels, head, tail, underruns := false, 0, 0, 0, 0, 0, 0;
      ring := new byte[cap](_ => 0);
    }

    function Value(): Header
      reads this, ring
    {
      Header(ahi, epoch, rate, channels, head, tail, underruns, ring[..])
    }
  }

  lemma {:induction false} NoneReturned(slots: seq<Slot>, port: seq<nat>, tail: nat, completed: bool)
    requires SlotsOk(slots) && forall i :: 0 <= i < |port| ==> port[i] < SLOTS
    ensures var r := Reap(slots, port, tail, completed);
      !r.completed ==> !completed && r.tail == tail && r.slots == slots
    ensures completed ==> Reap(slots, port, tail, completed).completed
    decreases |port|
  {
    if port != [] {
      var p := port[0];
      if slots[p].pending {
        NoneReturned(slots[p := Idle(slots[p])], port[1..], (tail + slots[p].bytes) % WORD, true);
      } else {
        NoneReturned(slots, port[1..], tail, completed);
      }
    }
  }

  class Launcher {
    const first: Request
    const second: Request
    var port: seq<nat>
    var open: bool
    var rate: nat
    var channels: nat
    var epoch: nat
    var valid: bool
    var underruns: nat
    var failed: bool

    constructor ()
      ensures Apart() && Shape(Value()) && !open && fresh(Parts())
    {
      first := new Request();
      second := new Request();
      port := [];
      open, rate, channels, epoch, valid, underruns, failed := false, 0, 0, 0, false, 0, false;
    }

    function Parts(): set<object> { {this, first, second, first.buffer, second.buffer} }

    predicate Apart() { first != second && first.buffer != second.buffer }

    function Value(): Driver
      reads Parts()
    {
      Driver([first.Value(), second.Value()], port, open, rate, channels, epoch, valid, underruns, failed)
    }

    function At(i: nat): Request { if i == 0 then first else second }

    /** ahi_abort_pending */
    method AbortPending()
      requires Apart()
      modifies first, second, `port
      ensures Value() == Abort(old(Value()))
    {
      for i := 0 to SLOTS
        invariant first.buffer[..] == old(first.buffer[..]) && second.buffer[..] == old(second.buffer[..])
        invariant first.Value() == if i > 0 then Idle(old(first.Value())) else old(first.Value())
        invariant second.Value() == if i > 1 then Idle(old(second.Value())) else old(second.Value())
        invariant port == old(port)
      {
        At(i).pending := false;
        At(i).bytes := 0;
      }
      port := [];
    }

    /** ahi_close */
    method CloseDevice()
      requires Apart()
      modifies first, second, this
      ensures Value() == Close(old(Value()))
    {
      AbortPending();
      open, rate, channels, epoch, valid := false, 0, 0, 0, false;
    }

    /** ahi_reap: the returned requests, in the order of their return */
    method Collect(from: nat) returns (tail: nat, completed: bool)
      requires Apart() && Shape(Value())
      modifies first, second, `port
      ensures port == [] && first.buffer[..] == old(first.buffer[..]) && second.buffer[..] == old(second.buffer[..])
      ensures Reaped(Value().slots, tail, completed) == Reap(old(Value()).slots, old(port), from, false)
    {
      tail, completed := from, false;
      ghost var whole := Reap(Value().slots, port, from, false);
      while port != []
        invariant SlotsOk(Value().slots) && forall i :: 0 <= i < |port| ==> port[i] < SLOTS
        invariant first.buffer[..] == old(first.buffer[..]) && second.buffer[..] == old(second.buffer[..])
        invariant Reap(Value().slots, port, tail, completed) == whole
        decreases |port|
      {
        var request, p := At(port[0]), port[0];
        port := port[1..];
        if request.pending {
          tail := (tail + request.bytes) % WORD;
          Retire(p);
          completed := true;
        }
      }
    }

    method Retire(i: nat)
      requires Apart() && i < SLOTS
      modifies At(i)
      ensures Value() == old(Value()).(slots := old(Value()).slots[i := Idle(old(Value()).slots[i])])
    {
      At(i).bytes := 0;
      At(i).pending := false;
      assert Value().slots == old(Value()).slots[i := Idle(old(Value()).slots[i])];
    }

    /** ahi_free_slot */
    method FreeSlot() returns (slot: int)
      ensures slot == Free(Value().slots)
    {
      for i := 0 to SLOTS
        invariant i > 0 ==> first.pending
        invariant i > 1 ==> second.pending
      {
        if !At(i).pending { return i; }
      }
      return -1;
    }

    /** The copy into a request's buffer, each sample's bytes exchanged, and ahi_submit. */
    method Send(slot: nat, window: Window, at: nat, n: nat)
      requires Apart() && slot < SLOTS && At(slot).buffer.Length == BUFFER
      requires n % 2 == 0 && n <= BUFFER && at + n <= window.ring.Length
      requires window.ring != At(slot).buffer
      modifies At(slot), At(slot).buffer
      ensures At(slot).Value() == Submit(old(At(slot).Value()), Swap(window.ring[at..at + n]))
    {
      var request := At(slot);
      var buffer, ring := request.buffer, window.ring;
      ghost var swapped, was := Swap(ring[at..at + n]), buffer[..];
      var i := 0;
      while i < n
        invariant 0 <= i <= n && i % 2 == 0
        invariant forall j :: 0 <= j < i ==> buffer[j] == swapped[j]
        invariant forall j :: i <= j < BUFFER ==> buffer[j] == was[j]
      {
        buffer[i] := ring[at + i + 1];
        buffer[i + 1] := ring[at + i];
        i := i + 2;
      }
      request.bytes, request.pending := n, true;
      assert buffer[..] == swapped + was[n..];
    }

    predicate Beside(window: Window)
    {
      Apart() && window.ring !in Parts() && GoodCap(window.ring.Length)
    }

    method StagedNow(window: Window) returns (staged: nat)
      ensures staged == Staged(Value().slots, window.Value())
    {
      staged := window.tail;
      for i := 0 to SLOTS
        invariant staged == window.tail + (if i > 0 then first.bytes else 0) + (if i > 1 then second.bytes else 0)
      {
        staged := staged + At(i).bytes;
      }
      staged := staged % WORD;
    }

    /** The cuts to the end of the ring, a fiftieth of a second, the buffer and whole frames. */
    method Cut(available: nat, contiguous: nat, frames: nat) returns (n: nat)
      ensures n == Amount(available, contiguous, frames)
    {
      n := if available < contiguous then available else contiguous;
      if n > frames * 4 { n := frames * 4; }
      if n > BUFFER { n := BUFFER; }
      n := n - n % 4;
    }

    method CountUnderrun(window: Window)
      requires Beside(window)
      modifies `underruns, window`underruns
      ensures var u := (old(underruns) + 1) % WORD;
        Value() == old(Value()).(underruns := u) && window.Value() == old(window.Value()).(underruns := u)
    {
      underruns := (underruns + 1) % WORD;
      window.underruns := underruns;
    }

    /** Handing the next n bytes to a free request. */
    method SendFrom(slot: nat, window: Window, at: nat, n: nat) returns (ghost sent: seq<byte>)
      requires Beside(window) && SlotsOk(Value().slots) && slot < SLOTS
      requires n % 2 == 0 && n <= BUFFER && at + n <= window.ring.Length
      modifies first, second, first.buffer, second.buffer
      ensures window.Value() == old(window.Value()) && sent == Swap(window.Value().ring[at..at + n])
      ensures Value() == old(Value()).(slots := old(Value()).slots[slot := Submit(old(Value()).slots[slot], sent)])
    {
      assert window.ring[..][at..at + n] == window.ring[at..at + n];
      sent := Swap(window.ring[at..at + n]);
      Send(slot, window, at, n);
      assert [first.Value(), second.Value()] == old(Value()).slots[slot := Submit(old(Value()).slots[slot], sent)];
    }

    /** The last part of a poll: the next buffer, if there is room and something to send. */
    method RefillNext(window: Window, completed: bool) returns (slot: int, ghost sent: seq<byte>)
      requires Beside(window) && SlotsOk(Value().slots) && channels == 2
      modifies Parts(), window
      ensures Polled(Value(), window.Value(), sent, slot) == Refill(old(Value()), old(window.Value()), completed)
    {
      slot, sent := -1, [];
      var cap := window.ring.Length;
      var staged := StagedNow(window);
      var available := Minus(window.head, staged);
      if available > cap { return; }
      var at := staged % cap;
      var frames := rate / 50;
      if frames == 0 { return; }
      var n := Cut(available, cap - at, frames);
      assert n == Next(Value(), window.Value());
      if n == 0 {
        if completed && staged == window.tail { CountUnderrun(window); }
        return;
      }
      slot := FreeSlot();
      if slot < 0 { return; }
      sent := SendFrom(slot, window, at, n);
    }

    /** The part of a poll in which the launcher has accepted the header's stream. */
    method ServeStream(window: Window) returns (slot: int, ghost sent: seq<byte>)
      requires Beside(window) && Shape(Value()) && channels == 2
      modifies Parts(), window
      ensures Polled(Value(), window.Value(), sent, slot) == Serve(old(Value()), old(window.Value()))
    {
      if Minus(window.head, window.tail) > window.ring.Length { return -1, []; }
      ReapShape(Value().slots, port, window.tail, false);
      var tail, completed := Collect(window.tail);
      NoneReturned(old(Value()).slots, old(port), old(window.tail), false);
      if completed { window.tail := tail; }
      ghost var d, h := Value(), window.Value();
      slot, sent := RefillNext(window, completed);
    }

    /** Dropping a replaced stream's requests. */
    method DropOld(window: Window)
      requires Beside(window)
      modifies first, second, this
      ensures Value() == Replace(old(Value()), window.Value())
    {
      if open && (window.rate != rate || window.channels != channels) {
        CloseDevice();
      } else {
        AbortPending();
      }
      underruns, valid := 0, false;
    }

    /** ahi_open, which succeeds only for two channels, a rate, and a device that can be opened */
    method OpenDevice(window: Window, opens: bool) returns (ok: bool)
      requires Beside(window) && !open
      modifies first, second, this
      ensures ok == Openable(window.Value(), opens)
      ensures Value() == if ok then Open(old(Value()), window.Value()) else Close(old(Value()))
    {
      if window.channels != 2 || window.rate == 0 || !opens {
        CloseDevice();
        return false;
      }
      open, rate, channels, underruns := true, window.rate, window.channels, 0;
      ok := true;
    }

    /** Entering, or staying in, the header's stream. */
    method Join(window: Window, opens: bool) returns (joined: bool)
      requires Beside(window) && Shape(Value())
      modifies first, second, this
      ensures var d, h := old(Value()), window.Value();
        && joined == Joins(d, h, opens)
        && Value() == if joined then Joined(d, h) else if Kept(d, h).failed then Kept(d, h)
                      else Close(Kept(d, h)).(failed := true)
    {
      if valid && window.epoch != epoch { DropOld(window); }
      if failed { return false; }
      if !open {
        var ok := OpenDevice(window, opens);
        if !ok {
          failed := true;
          return false;
        }
      }
      epoch, valid := window.epoch, true;
      joined := true;
    }

    /** service_ahi_audio: one poll */
    method Service(window: Window, opens: bool) returns (slot: int, ghost sent: seq<byte>)
      requires Beside(window) && Shape(Value())
      modifies Parts(), window
      ensures Polled(Value(), window.Value(), sent, slot) == Poll(old(Value()), old(window.Value()), opens)
    {
      slot, sent := -1, [];
      if !window.ahi {
        CloseDevice();
        return;
      }
      if window.epoch == 0 { return; }
      var joined := Join(window, opens);
      if joined { slot, sent := ServeStream(window); }
    }
  }
}
