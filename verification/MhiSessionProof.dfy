/** What submitted_bytes, the recorded stream ends and the played marks mean, in terms of the
    card's side of the session: true as long as no chunk is booked on a list that a Stop has
    drained and whose session that Stop has not closed yet. */
module MhiSessionProof {
  import opened MhiBuffers
  import opened MhiWorld
  import opened MhiListProof

  /** Where the i-th node ends in the stream of everything queued since the last drain. */
  function EndOf(list: seq<Node>, returned: seq<Buffer>, i: nat): nat
    requires i < |list|
  {
    |Flatten(returned)| + QueuedBytes(list[..i + 1])
  }

  /** A session is open and no Stop is about to close it. */
  predicate Open(w: World) {
    w.p.session != 0 && !StopOpen(w)
  }

  predicate Active(f: Feeder) {
    !f.Idle? && !f.Locked? && !f.Unlock?
  }

  predicate Holding(f: Feeder) {
    f.Stage? || f.Call? || f.Accepted?
  }

  ghost predicate Transport(w: World) {
    && (StopOpen(w) ==> w.p.status.Stopped? && w.h.fed == [])
    && (w.p.status.Stopped? && !StopOpen(w) && !w.control.PlayPublish? ==> w.p.session == 0)
    && (w.control.PlayPublish? ==> w.p.session != 0)
    && (w.p.session == 0 ==> w.h.fed == [])
    && (Active(w.feeder) ==> w.p.session != 0)
    && (Holding(w.feeder) && w.feeder.chunk.gen != w.p.listGen ==> StopOpen(w))
  }

  /** The card's consumed cursor, as last reported. */
  ghost predicate Cursor(w: World) {
    w.p.session != 0 ==>
      && w.p.result.consumed == U32(w.h.seen)
      && w.h.seen <= |w.card.accepted| <= w.h.seen + RingBytes(w.p.zorro3)
      && w.h.drainedTo <= |w.card.accepted|
      && (w.p.result.drained ==> w.h.drainedTo == |w.card.accepted|)
      && (w.feeder.DrainRelease? ==> w.p.result.drained)
  }

  /** The bytes behind submitted_bytes are the bytes fed off this list, and the card holds those
      bytes and no others; a backpressured retry adds nothing. */
  ghost predicate Ledger(w: World) {
    Open(w) ==>
      && w.h.counted == w.h.fed
      && w.p.submitted == U32(|w.h.fed|)
      && w.card.accepted == w.h.fed + if w.feeder.Accepted? then w.p.staging else []
  }

  ghost predicate EndsRecorded(list: seq<Node>, returned: seq<Buffer>) {
    forall i :: 0 <= i < |list| && list[i].endValid ==> list[i].streamEnd == U32(EndOf(list, returned, i))
  }

  /** A played buffer ends at or before the consumed cursor, or before a finished drain. */
  ghost predicate PlayedJustified(list: seq<Node>, h: History) {
    forall i :: 0 <= i < |list| && list[i].played ==>
      EndOf(list, h.returned, i) <= h.seen || EndOf(list, h.returned, i) <= h.drainedTo
  }

  ghost predicate Marks(w: World) {
    Open(w) ==> EndsRecorded(w.p.list, w.h.returned) && PlayedJustified(w.p.list, w.h)
  }

  ghost predicate Books(w: World) {
    Locks(w) && Transport(w) && Cursor(w) && Ledger(w)
  }

  ghost predicate SessionInv(w: World) {
    Books(w) && Marks(w)
  }

  // ---- stream ends ----

  lemma {:induction false} SameSizes(a: seq<Node>, b: seq<Node>)
    requires |a| == |b| && forall i :: 0 <= i < |a| ==> a[i].buffer == b[i].buffer
    ensures QueuedBytes(a) == QueuedBytes(b)
  {
    if a != [] {
      SameSizes(a[1..], b[1..]);
    }
  }

  lemma EndsUnmoved(a: seq<Node>, b: seq<Node>, returned: seq<Buffer>)
    requires |a| <= |b| && forall i :: 0 <= i < |a| ==> a[i].buffer == b[i].buffer
    ensures forall i :: 0 <= i < |a| ==> EndOf(a, returned, i) == EndOf(b, returned, i)
  {
    forall i | 0 <= i < |a| ensures EndOf(a, returned, i) == EndOf(b, returned, i) {
      SameSizes(a[..i + 1], b[..i + 1]);
    }
  }

  lemma EndsShift(list: seq<Node>, returned: seq<Buffer>)
    requires list != []
    ensures forall i :: 0 <= i < |list| - 1 ==>
              EndOf(list[1..], returned + [list[0].buffer], i) == EndOf(list, returned, i + 1)
  {
    ReturnOne(returned, list);
    forall i | 0 <= i < |list| - 1
      ensures EndOf(list[1..], returned + [list[0].buffer], i) == EndOf(list, returned, i + 1)
    {
      assert list[..i + 2][0] == list[0] && list[..i + 2][1..] == list[1..][..i + 1];
    }
  }

  lemma {:induction false} PrefixBytes(list: seq<Node>, i: nat, j: nat)
    requires i <= j <= |list|
    ensures QueuedBytes(list[..i]) <= QueuedBytes(list[..j])
  {
    assert list[..j] == list[..i] + list[i..j];
    QueuedBytesSplit(list[..i], list[i..j]);
  }

  /** A fully fed node ends within the bytes fed so far, and less than the queue's length behind them. */
  lemma FedNodeEnds(list: seq<Node>, h: History, i: nat)
    requires Fifo(list) && i < |list| && list[i].index == list[i].Size() != 0
    requires |h.fed| == |Flatten(h.returned)| + FedBytes(list)
    ensures EndOf(list, h.returned, i) <= |h.fed| <= EndOf(list, h.returned, i) + QueuedBytes(list)
  {
    var u := FirstUnfed(list);
    assert i < u;
    assert FedBytes(list) >= QueuedBytes(list[..u]) by {
      FedPosition(list);
    }
    assert FedBytes(list) <= QueuedBytes(list) by {
      FedWithinQueued(list);
    }
    PrefixBytes(list, i + 1, u);
  }

  lemma {:induction false} FedWithinQueued(list: seq<Node>)
    requires forall i :: 0 <= i < |list| ==> list[i].index <= list[i].Size()
    ensures FedBytes(list) <= QueuedBytes(list)
  {
    if list != [] {
      FedWithinQueued(list[1..]);
    }
  }

  lemma {:induction false} NothingFedMeansUntouched(list: seq<Node>)
    requires FedBytes(list) == 0
    ensures forall i :: 0 <= i < |list| ==> list[i].index == 0
  {
    if list != [] {
      NothingFedMeansUntouched(list[1..]);
    }
  }

  lemma UntouchedIsUnmarked(list: seq<Node>)
    requires Shape(list) && FedBytes(list) == 0
    ensures forall i :: 0 <= i < |list| ==> !list[i].endValid && !list[i].played
  {
    NothingFedMeansUntouched(list);
  }

  // ---- steps that move the ends or the marks ----

  lemma AppKeepsBooks(w: World, call: AppCall)
    requires Books(w) && AppEnabled(w, call) && Flags(w.p)
    ensures Books(if call.Queue? then QueueStep(w, call.addr, call.buffer) else ReclaimStep(w))
  {
  }

  lemma QueueKeepsMarks(list: seq<Node>, n: Node, h: History)
    requires EndsRecorded(list, h.returned) && PlayedJustified(list, h) && !n.endValid && !n.played
    ensures EndsRecorded(list + [n], h.returned) && PlayedJustified(list + [n], h)
  {
    EndsUnmoved(list, list + [n], h.returned);
  }

  lemma QueueKeepsSession(w: World, addr: nat, buffer: Buffer)
    requires SessionInv(w) && Flags(w.p) && AppEnabled(w, Queue(addr, buffer))
    ensures SessionInv(QueueStep(w, addr, buffer))
  {
    AppKeepsBooks(w, Queue(addr, buffer));
    var v := QueueStep(w, addr, buffer);
    if Open(v) {
      QueueKeepsMarks(w.p.list, FreshNode(addr, buffer), w.h);
      assert PlayedJustified(v.p.list, v.h);
    }
  }

  lemma DropKeepsMarks(list: seq<Node>, h: History)
    requires list != [] && EndsRecorded(list, h.returned) && PlayedJustified(list, h)
    ensures var g := h.(returned := h.returned + [list[0].buffer]);
            EndsRecorded(list[1..], g.returned) && PlayedJustified(list[1..], g)
  {
    EndsShift(list, h.returned);
    var rest := list[1..];
    forall i | 0 <= i < |rest| ensures rest[i] == list[i + 1] {
    }
  }

  lemma ReclaimKeepsSession(w: World)
    requires SessionInv(w) && Flags(w.p)
    ensures SessionInv(ReclaimStep(w))
  {
    AppKeepsBooks(w, Reclaim);
    if w.p.list != [] && w.p.list[0].played && Open(w) {
      DropKeepsMarks(w.p.list, w.h);
    }
  }

  /** The node a chunk completes ends exactly where the fed bytes now end. */
  lemma BookedEnd(list: seq<Node>, h: History, length: nat, total: nat)
    requires Addresses(list) && Shape(list) && Fifo(list) && Words(list) && total < WRAP
    requires |h.fed| == |Flatten(h.returned)| + FedBytes(list)
    requires AnyUnfed(list) && 0 < length <= list[FirstUnfed(list)].Size() - list[FirstUnfed(list)].index
    ensures var u := FirstUnfed(list);
            var after := list[u := Fed(list[u], length, total)];
            after[u].endValid ==> EndOf(after, h.returned, u) == |h.fed| + length
  {
    var u := FirstUnfed(list);
    var n := Fed(list[u], length, total);
    var after := list[u := n];
    FeedKeepsShape(list, length, total);
    FeedKeepsFifo(list, length, total);
    FeedKeepsCounts(list, u, n);
    if n.endValid {
      FedPosition(after);
      assert FirstUnfed(after) == u + 1;
    }
  }

  lemma BookKeepsEnds(list: seq<Node>, h: History, length: nat, total: nat)
    requires Addresses(list) && Shape(list) && Fifo(list) && Words(list) && total < WRAP
    requires |h.fed| == |Flatten(h.returned)| + FedBytes(list)
    requires AnyUnfed(list) && 0 < length <= list[FirstUnfed(list)].Size() - list[FirstUnfed(list)].index
    requires total == U32(|h.fed| + length)
    requires EndsRecorded(list, h.returned) && PlayedJustified(list, h)
    ensures var u := FirstUnfed(list);
            var after := list[u := Fed(list[u], length, total)];
            EndsRecorded(after, h.returned) && PlayedJustified(after, h)
  {
    var u := FirstUnfed(list);
    var after := list[u := Fed(list[u], length, total)];
    EndsUnmoved(list, after, h.returned);
    BookedEnd(list, h, length, total);
  }

  /** No chunk is booked while a Stop is closing the session. */
  predicate BooksInWindow(w: World, l: Label) {
    l == Feed(Book) && StopOpen(w) && w.feeder.Accepted? && w.feeder.chunk.gen == w.p.listGen
  }

  lemma BookKeepsBooks(w: World)
    requires Books(w) && w.feeder.Accepted? && |w.p.staging| == w.feeder.chunk.length
    requires !BooksInWindow(w, Feed(Book))
    requires w.feeder.chunk.gen == w.p.listGen ==> At(w.p.list, w.feeder.chunk.addr) < |w.p.list|
    ensures Books(BookStep(w))
  {
    var c := w.feeder.chunk;
    assert U32(U32(|w.h.fed|) + c.length) == U32(|w.h.fed| + c.length);
  }

  lemma BookKeepsMarks(w: World)
    requires w.feeder.Accepted? && AnyUnfed(w.p.list)
    requires At(w.p.list, w.feeder.chunk.addr) == FirstUnfed(w.p.list)
    requires var n := w.p.list[FirstUnfed(w.p.list)];
             0 < w.feeder.chunk.length <= n.Size() - n.index
    requires Addresses(w.p.list) && Shape(w.p.list) && Fifo(w.p.list) && Words(w.p.list)
    requires |w.h.fed| == |Flatten(w.h.returned)| + FedBytes(w.p.list)
    requires w.p.submitted == U32(|w.h.fed|)
    requires EndsRecorded(w.p.list, w.h.returned) && PlayedJustified(w.p.list, w.h)
    ensures var v := Booked(w);
            EndsRecorded(v.p.list, v.h.returned) && PlayedJustified(v.p.list, v.h)
  {
    var c := w.feeder.chunk;
    assert U32(U32(|w.h.fed|) + c.length) == U32(|w.h.fed| + c.length);
    BookKeepsEnds(w.p.list, w.h, c.length, U32(w.p.submitted + c.length));
    var v := Booked(w);
    assert v.h.returned == w.h.returned && v.h.seen == w.h.seen && v.h.drainedTo == w.h.drainedTo;
  }

  lemma BookKeepsSession(w: World)
    requires ListInv(w) && SessionInv(w) && w.feeder.Accepted? && !BooksInWindow(w, Feed(Book))
    ensures SessionInv(BookStep(w))
  {
    if w.feeder.chunk.gen == w.p.listGen {
      PointerValid(w.p, w.feeder.chunk);
      BookKeepsMarks(w);
    }
    BookKeepsBooks(w);
  }

  /** Marking by the wrapped cursor comparison marks exactly what the true cursor has passed. */
  lemma ConsumedIsPassed(list: seq<Node>, h: History, consumed: nat, i: nat)
    requires consumed < WRAP && i < |list| && Shape(list) && Fifo(list) && QueuedBytes(list) < HALF
    requires |h.fed| == |Flatten(h.returned)| + FedBytes(list)
    requires list[i].endValid && list[i].streamEnd == U32(EndOf(list, h.returned, i))
    requires consumed == U32(h.seen) && h.seen <= |h.fed| < h.seen + HALF
    ensures list[i].streamEnd < WRAP
    ensures Consumable(list[i], consumed, false) <==> EndOf(list, h.returned, i) <= h.seen
  {
    var end := EndOf(list, h.returned, i);
    assert end <= |h.fed| <= end + QueuedBytes(list) by {
      FedNodeEnds(list, h, i);
    }
    CursorDecides(list[i], consumed, h.seen, end);
  }

  lemma CursorDecides(n: Node, consumed: nat, seen: nat, end: nat)
    requires consumed == U32(seen) && n.streamEnd == U32(end) && n.endValid && !n.Unfed()
    requires seen - end < HALF && end - seen < HALF
    ensures Consumable(n, consumed, false) <==> end <= seen
  {
    SignedDistanceDecides(seen, end);
  }

  /** mhi_complete_consumed marks a buffer only when the card's cursor has reached its end, or when
      a drain has finished that covers it. */
  lemma RetireJustified(list: seq<Node>, h: History, consumed: nat, drainAll: bool)
    requires consumed < WRAP && Words(list) && Shape(list) && Fifo(list) && QueuedBytes(list) < HALF
    requires |h.fed| == |Flatten(h.returned)| + FedBytes(list)
    requires EndsRecorded(list, h.returned) && PlayedJustified(list, h)
    requires consumed == U32(h.seen) && h.seen <= |h.fed| < h.seen + HALF
    requires drainAll ==> |h.fed| <= h.drainedTo
    ensures var after := Complete(list, consumed, drainAll);
            EndsRecorded(after, h.returned) && PlayedJustified(after, h)
  {
    var after := Complete(list, consumed, drainAll);
    EndsUnmoved(list, after, h.returned);
    forall i | 0 <= i < |after| && after[i].played
      ensures EndOf(after, h.returned, i) <= h.seen || EndOf(after, h.returned, i) <= h.drainedTo
    {
      if !list[i].played {
        if drainAll {
          FedNodeEnds(list, h, i);
        } else {
          ConsumedIsPassed(list, h, consumed, i);
        }
      }
    }
  }

  lemma RetireKeepsSession(w: World, drainAll: bool)
    requires ListInv(w) && SessionInv(w) && !w.feeder.Accepted? && Active(w.feeder)
    requires drainAll ==> w.feeder.DrainRelease?
    ensures SessionInv(Retired(w, drainAll))
  {
    if Open(w) {
      RetireJustified(w.p.list, w.h, w.p.result.consumed, drainAll);
    }
  }

  // ---- all the other steps ----

  lemma QuietKeepsMarks(w: World, v: World)
    requires Marks(w) && v.p.list == w.p.list && v.h.returned == w.h.returned
    requires Open(v) ==> Open(w) && w.h.seen <= v.h.seen && w.h.drainedTo <= v.h.drainedTo
    ensures Marks(v)
  {
  }

  lemma FeedKeepsTransport(w: World, m: FeedMove)
    requires Sane(w) && Locks(w) && Transport(w) && FeedEnabled(w, m) && FeedQuiet(m)
    ensures Transport(FeedStep(w, m))
  {
  }

  lemma FeedKeepsCursor(w: World, m: FeedMove)
    requires Sane(w) && Locks(w) && Transport(w) && Cursor(w) && FeedEnabled(w, m) && FeedQuiet(m)
    ensures Cursor(FeedStep(w, m))
  {
  }

  lemma FeedKeepsLedger(w: World, m: FeedMove)
    requires Sane(w) && Locks(w) && Transport(w) && Ledger(w) && FeedEnabled(w, m) && FeedQuiet(m)
    ensures Ledger(FeedStep(w, m))
  {
  }

  lemma ChunkKeepsBooks(w: World, m: FeedMove)
    requires Sane(w) && Books(w) && FeedEnabled(w, m) && (m.ScanList? || m.FillStaging? || m.FeedAccepted?)
    ensures Books(FeedStep(w, m))
  {
  }

  lemma MovingFeedKeepsSession(w: World, m: FeedMove)
    requires Sane(w) && SessionInv(w) && FeedEnabled(w, m)
    requires FeedQuiet(m) || m.ScanList? || m.FillStaging? || m.FeedAccepted?
    ensures SessionInv(FeedStep(w, m))
  {
    if FeedQuiet(m) {
      FeedKeepsTransport(w, m);
      FeedKeepsCursor(w, m);
      FeedKeepsLedger(w, m);
    } else {
      ChunkKeepsBooks(w, m);
    }
    QuietKeepsMarks(w, FeedStep(w, m));
  }

  lemma RetiringKeepsSession(w: World, v: World)
    requires SessionInv(w) && Active(v.feeder) && Active(w.feeder)
    requires !Holding(v.feeder) && !w.feeder.Accepted? && !v.feeder.DrainRelease?
    requires v == w.(p := w.p.(backpressure := v.p.backpressure), feeder := v.feeder)
    ensures SessionInv(v)
  {
  }

  lemma RetiringFeedOnlyMoves(w: World, m: FeedMove)
    requires Sane(w) && FeedEnabled(w, m) && (m.Retire? || m.RetireRefused?)
    ensures Active(w.feeder) && !w.feeder.Accepted?
    ensures var v, u := Retired(w, false), FeedStep(w, m);
            && u == v.(p := v.p.(backpressure := u.p.backpressure), feeder := u.feeder)
            && Active(u.feeder) && !Holding(u.feeder) && !u.feeder.DrainRelease?
  {
  }

  lemma RetiringFeedKeepsSession(w: World, m: FeedMove)
    requires ListInv(w) && SessionInv(w) && FeedEnabled(w, m) && (m.Retire? || m.RetireRefused?)
    ensures SessionInv(FeedStep(w, m))
  {
    RetiringFeedOnlyMoves(w, m);
    RetireKeepsSession(w, false);
    RetiringKeepsSession(Retired(w, false), FeedStep(w, m));
  }

  lemma FeedKeepsSession(w: World, m: FeedMove)
    requires ListInv(w) && SessionInv(w) && FeedEnabled(w, m) && !BooksInWindow(w, Feed(m))
    ensures SessionInv(FeedStep(w, m))
  {
    if m.Book? {
      BookKeepsSession(w);
    } else if m.Retire? || m.RetireRefused? {
      RetiringFeedKeepsSession(w, m);
    } else {
      MovingFeedKeepsSession(w, m);
    }
  }

  lemma DrainKeepsTransport(w: World, m: DrainMove)
    requires Sane(w) && Locks(w) && Transport(w) && DrainEnabled(w, m) && DrainQuiet(m)
    ensures Transport(DrainStep(w, m))
  {
  }

  lemma DrainKeepsCursor(w: World, m: DrainMove)
    requires Sane(w) && Locks(w) && Transport(w) && Cursor(w) && DrainEnabled(w, m) && DrainQuiet(m)
    ensures Cursor(DrainStep(w, m))
  {
  }

  lemma DrainKeepsLedger(w: World, m: DrainMove)
    requires Sane(w) && Locks(w) && Transport(w) && Ledger(w) && DrainEnabled(w, m) && DrainQuiet(m)
    ensures Ledger(DrainStep(w, m))
  {
  }

  lemma MovingDrainKeepsSession(w: World, m: DrainMove)
    requires Sane(w) && SessionInv(w) && DrainEnabled(w, m) && DrainQuiet(m)
    ensures SessionInv(DrainStep(w, m))
  {
    DrainKeepsTransport(w, m);
    DrainKeepsCursor(w, m);
    DrainKeepsLedger(w, m);
    QuietKeepsMarks(w, DrainStep(w, m));
  }

  lemma DrainKeepsSession(w: World, m: DrainMove)
    requires ListInv(w) && SessionInv(w) && DrainEnabled(w, m)
    ensures SessionInv(DrainStep(w, m))
  {
    if DrainQuiet(m) {
      MovingDrainKeepsSession(w, m);
    } else {
      RetiringDrainKeepsSession(w, m);
    }
  }

  lemma RetiringDrainOnlyMoves(w: World, m: DrainMove)
    requires Sane(w) && DrainEnabled(w, m) && !DrainQuiet(m)
    ensures Active(w.feeder) && !w.feeder.Accepted? && (m.RetireAll? ==> w.feeder.DrainRelease?)
    ensures var v, u := Retired(w, m.RetireAll?), DrainStep(w, m);
            u == v.(feeder := u.feeder) && Active(u.feeder) && !Holding(u.feeder) && !u.feeder.DrainRelease?
  {
  }

  lemma RetiringDrainKeepsSession(w: World, m: DrainMove)
    requires ListInv(w) && SessionInv(w) && DrainEnabled(w, m) && !DrainQuiet(m)
    ensures SessionInv(DrainStep(w, m))
  {
    RetiringDrainOnlyMoves(w, m);
    RetireKeepsSession(w, m.RetireAll?);
    RetiringKeepsSession(Retired(w, m.RetireAll?), DrainStep(w, m));
  }

  lemma ControlKeepsTransport(w: World, m: ControlMove)
    requires Locks(w) && Transport(w) && ControlEnabled(w, m)
    ensures Transport(ControlStep(w, m))
  {
  }

  lemma ControlKeepsCursor(w: World, m: ControlMove)
    requires Locks(w) && Transport(w) && Cursor(w) && ControlEnabled(w, m)
    ensures Cursor(ControlStep(w, m))
  {
  }

  lemma ControlKeepsLedger(w: World, m: ControlMove)
    requires Locks(w) && Transport(w) && Ledger(w) && ControlEnabled(w, m)
    ensures Ledger(ControlStep(w, m))
  {
  }

  lemma OpenKeepsMarks(w: World, session: nat)
    requires Transport(w) && Marks(w) && w.control.PlayOpen? && Shape(w.p.list)
    requires w.h.fed == [] ==> FedBytes(w.p.list) == 0
    ensures Marks(OpenStep(w, session))
  {
    if w.p.session == 0 {
      UntouchedIsUnmarked(w.p.list);
    }
  }

  lemma ControlKeepsMarks(w: World, m: ControlMove)
    requires Transport(w) && Cursor(w) && Marks(w) && ControlEnabled(w, m) && !m.OpenSession?
    ensures Marks(ControlStep(w, m))
  {
    if !m.Stop? && !m.CloseSession? {
      QuietKeepsMarks(w, ControlStep(w, m));
    }
  }

  lemma ControlKeepsSession(w: World, m: ControlMove)
    requires SessionInv(w) && ControlEnabled(w, m)
    requires Shape(w.p.list) && (w.h.fed == [] ==> FedBytes(w.p.list) == 0)
    ensures SessionInv(ControlStep(w, m))
  {
    ControlKeepsTransport(w, m);
    ControlKeepsCursor(w, m);
    ControlKeepsLedger(w, m);
    ControlKeepsLocks(w, m);
    if m.OpenSession? {
      OpenKeepsMarks(w, m.session);
    } else {
      ControlKeepsMarks(w, m);
    }
  }

  lemma ControlKeepsLocks(w: World, m: ControlMove)
    requires Locks(w) && ControlEnabled(w, m)
    ensures Locks(ControlStep(w, m))
  {
  }

  /** Every step keeps the session invariant, except booking a chunk inside a Stop's window. */
  lemma StepKeepsSession(w: World, l: Label)
    requires ListInv(w) && SessionInv(w) && Enabled(w, l) && !BooksInWindow(w, l)
    ensures SessionInv(Step(w, l))
  {
    match l
    case App(Queue(addr, buffer)) => QueueKeepsSession(w, addr, buffer);
    case App(Reclaim) => ReclaimKeepsSession(w);
    case Feed(m) => FeedKeepsSession(w, m);
    case Service(m) => DrainKeepsSession(w, m);
    case Command(m) => ControlKeepsSession(w, m);
  }
}
