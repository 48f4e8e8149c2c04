/** What every interleaving keeps: the buffer list, the in-flight chunk, the staging memo and
    the public status, whatever the card answers and whoever calls. */
module MhiListProof {
  import opened MhiBuffers
  import opened MhiWorld

  ghost predicate Addresses(list: seq<Node>) {
    forall i, j :: 0 <= i < j < |list| ==> list[i].addr != list[j].addr
  }

  /** A stream position is recorded exactly when the last byte has been handed over, only such
      nodes are played, and the played nodes come first. */
  ghost predicate Shape(list: seq<Node>) {
    && (forall i :: 0 <= i < |list| ==>
          && list[i].buffer.data != []
          && (list[i].endValid <==> !list[i].Unfed())
          && (list[i].played ==> list[i].endValid))
    && (forall i, j :: 0 <= i < j < |list| && list[j].played ==> list[i].played)
  }

  /** The bytes fed off this list are the first bytes of everything queued since it was last
      drained: none skipped, none repeated, none out of order. */
  ghost predicate Accounted(list: seq<Node>, queued: seq<Buffer>, returned: seq<Buffer>, fed: seq<bv8>) {
    && queued == returned + Buffers(list)
    && |fed| == |Flatten(returned)| + FedBytes(list)
    && fed <= Flatten(queued)
  }

  ghost predicate Flags(p: Player) {
    && (AnyUnfed(p.list) ==> p.haveUnfed)
    && (p.status.OutOfData? ==> !p.haveUnfed)
  }

  /** A chunk in flight is the one a scan would pick now, unless the list has been drained since. */
  ghost predicate Current(p: Player, c: Chunk) {
    && c.gen <= p.listGen && 0 < c.length == |c.source|
    && (c.gen == p.listGen ==> AnyUnfed(p.list) && c == Pick(p.list, p.listGen, p.zorro3))
  }

  ghost predicate MemoTrue(p: Player) {
    p.memo.Memo? ==>
      && p.memo.gen <= p.listGen && |p.staging| == p.memo.chunk
      && (p.memo.gen == p.listGen ==>
            && AnyUnfed(p.list)
            && var k := Pick(p.list, p.listGen, p.zorro3);
               MemoHit(p, k) && p.staging == k.source)
  }

  ghost predicate InFlight(w: World) {
    match w.feeder
    case Stage(c) => Current(w.p, c)
    case Call(c) => Current(w.p, c) && MemoHit(w.p, c)
    case Accepted(c) =>
      && Current(w.p, c) && w.p.memo.NoMemo? && |w.p.staging| == c.length
      && (c.gen == w.p.listGen ==> w.p.staging == c.source)
    case Recheck(gen) => gen <= w.p.listGen
    case _ => true
  }

  ghost predicate Locks(w: World) {
    && (w.lock.ByFeeder? <==> !w.feeder.Idle?)
    && (w.lock.ByControl? <==>
          w.control.StopClose? || w.control.PlayOpen? || w.control.PlayPublish?
          || w.control.ResumeCall? || w.control.PauseCall?)
  }

  ghost predicate ListInv(w: World) {
    && Sane(w) && Locks(w)
    && Addresses(w.p.list) && Shape(w.p.list) && Fifo(w.p.list) && QueuedBytes(w.p.list) < HALF
    && Accounted(w.p.list, w.h.queued, w.h.returned, w.h.fed) && Flags(w.p) && MemoTrue(w.p) && InFlight(w)
  }

  // ---- one lemma for each step that touches the list ----

  lemma PickUnmoved(a: Player, b: Player)
    requires a.zorro3 == b.zorro3
    requires FirstUnfed(a.list) < |a.list|
    requires FirstUnfed(b.list) < |b.list|
    requires var n, m := a.list[FirstUnfed(a.list)], b.list[FirstUnfed(b.list)];
             n.addr == m.addr && n.index == m.index && n.buffer == m.buffer
    ensures forall gen: nat :: Pick(a.list, gen, a.zorro3) == Pick(b.list, gen, b.zorro3)
  {
  }

  lemma AppendKeepsShape(list: seq<Node>, n: Node)
    requires Addresses(list) && Shape(list) && Words(list)
    requires n == FreshNode(n.addr, n.buffer) && n.buffer.data != []
    requires forall i :: 0 <= i < |list| ==> list[i].addr != n.addr
    ensures Addresses(list + [n]) && Shape(list + [n]) && Words(list + [n])
  {
  }

  lemma AppendKeepsFirst(list: seq<Node>, n: Node)
    requires n.index == 0 && n.buffer.data != []
    ensures FirstUnfed(list + [n]) == FirstUnfed(list)
  {
    FirstUnfedIs(list + [n], FirstUnfed(list));
  }

  lemma AppendKeepsFifo(list: seq<Node>, n: Node)
    requires Fifo(list) && n.index == 0 && FirstUnfed(list + [n]) == FirstUnfed(list)
    ensures Fifo(list + [n])
    ensures QueuedBytes(list + [n]) == QueuedBytes(list) + n.Size()
    ensures FedBytes(list + [n]) == FedBytes(list)
    ensures Buffers(list + [n]) == Buffers(list) + [n.buffer]
  {
    QueuedBytesSplit(list, [n]);
    assert QueuedBytes([n]) == n.Size() + QueuedBytes([]) && FedBytes([n]) == 0 + FedBytes([]);
  }

  lemma QueueKeepsAccount(list: seq<Node>, queued: seq<Buffer>, returned: seq<Buffer>, fed: seq<bv8>, n: Node)
    requires Accounted(list, queued, returned, fed)
    requires FedBytes(list + [n]) == FedBytes(list)
    requires Buffers(list + [n]) == Buffers(list) + [n.buffer]
    ensures Accounted(list + [n], queued + [n.buffer], returned, fed)
  {
    FlattenAppends(queued, [n.buffer]);
  }

  lemma QueueKeepsList(w: World, addr: nat, buffer: Buffer)
    requires ListInv(w) && AppEnabled(w, Queue(addr, buffer))
    ensures ListInv(QueueStep(w, addr, buffer))
  {
    var w' := QueueStep(w, addr, buffer);
    var n := FreshNode(addr, buffer);
    AppendKeepsShape(w.p.list, n);
    AppendKeepsFirst(w.p.list, n);
    AppendKeepsFifo(w.p.list, n);
    QueueKeepsAccount(w.p.list, w.h.queued, w.h.returned, w.h.fed, n);
    if AnyUnfed(w.p.list) {
      PickUnmoved(w.p, w'.p);
    }
  }

  lemma DropKeepsShape(list: seq<Node>)
    requires Addresses(list) && Shape(list) && Fifo(list) && Words(list) && list != [] && list[0].played
    ensures Addresses(list[1..]) && Shape(list[1..]) && Fifo(list[1..]) && Words(list[1..])
    ensures FirstUnfed(list) == FirstUnfed(list[1..]) + 1
    ensures list[0].index == list[0].Size()
  {
    var rest := list[1..];
    forall i | 0 <= i < |rest| ensures rest[i] == list[i + 1] {
    }
  }

  lemma Regroup<T>(a: seq<T>, x: T, b: seq<T>)
    ensures a + ([x] + b) == (a + [x]) + b
  {
  }

  lemma FlattenOne(x: Buffer)
    ensures Flatten([x]) == x.data
  {
    assert Flatten([x]) == x.data + Flatten([]);
  }

  lemma ReturnOne(returned: seq<Buffer>, list: seq<Node>)
    requires list != []
    ensures returned + Buffers(list) == (returned + [list[0].buffer]) + Buffers(list[1..])
    ensures |Flatten(returned + [list[0].buffer])| == |Flatten(returned)| + list[0].Size()
  {
    var x := list[0].buffer;
    assert Buffers(list) == [x] + Buffers(list[1..]);
    Regroup(returned, x, Buffers(list[1..]));
    FlattenAppends(returned, [x]);
    FlattenOne(x);
  }

  lemma ReclaimKeepsAccount(list: seq<Node>, queued: seq<Buffer>, returned: seq<Buffer>, fed: seq<bv8>)
    requires Accounted(list, queued, returned, fed) && list != [] && list[0].index == list[0].Size()
    ensures Accounted(list[1..], queued, returned + [list[0].buffer], fed)
  {
    ReturnOne(returned, list);
  }

  lemma ReclaimKeepsList(w: World)
    requires ListInv(w)
    ensures ListInv(ReclaimStep(w))
  {
    if w.p.list != [] && w.p.list[0].played {
      var w' := ReclaimStep(w);
      DropKeepsShape(w.p.list);
      ReclaimKeepsAccount(w.p.list, w.h.queued, w.h.returned, w.h.fed);
        if AnyUnfed(w.p.list) {
        PickUnmoved(w.p, w'.p);
      }
    }
  }

  lemma ScanKeepsList(w: World)
    requires ListInv(w) && w.feeder.Scan?
    ensures ListInv(ScanStep(w))
  {
  }

  lemma StageKeepsList(w: World, ok: bool, junk: seq<bv8>)
    requires ListInv(w) && w.feeder.Stage? && |junk| == w.feeder.chunk.length
    ensures ListInv(StageStep(w, ok, junk))
  {
  }

  /** The pointer taken in the scan still leads to the node the chunk was cut from. */
  lemma PointerValid(p: Player, c: Chunk)
    requires Addresses(p.list) && Current(p, c) && c.gen == p.listGen
    ensures At(p.list, c.addr) == FirstUnfed(p.list)
  {
    var u := FirstUnfed(p.list);
    assert p.list[u].addr == c.addr;
    assert At(p.list, c.addr) < |p.list| by {
    }
  }

  lemma FeedKeepsShape(list: seq<Node>, length: nat, total: nat)
    requires Addresses(list) && Shape(list) && Fifo(list) && Words(list) && total < WRAP
    requires AnyUnfed(list) && 0 < length <= list[FirstUnfed(list)].Size() - list[FirstUnfed(list)].index
    ensures var u := FirstUnfed(list);
            var after := list[u := Fed(list[u], length, total)];
            && Addresses(after) && Shape(after) && Words(after)
            && FirstUnfed(after) == if after[u].Unfed() then u else u + 1
  {
    var u := FirstUnfed(list);
    var n := Fed(list[u], length, total);
    var after := list[u := n];
    if u + 1 < |list| {
      assert after[u + 1].index == 0;
    }
    FirstUnfedIs(after, if n.Unfed() then u else u + 1);
  }

  lemma FeedKeepsFifo(list: seq<Node>, length: nat, total: nat)
    requires Fifo(list) && total < WRAP
    requires AnyUnfed(list) && 0 < length <= list[FirstUnfed(list)].Size() - list[FirstUnfed(list)].index
    requires var u := FirstUnfed(list);
             var after := list[u := Fed(list[u], length, total)];
             FirstUnfed(after) == if after[u].Unfed() then u else u + 1
    ensures var u := FirstUnfed(list);
            Fifo(list[u := Fed(list[u], length, total)])
  {
  }

  lemma FeedKeepsCounts(list: seq<Node>, u: nat, n: Node)
    requires u < |list| && n.buffer == list[u].buffer && list[u].index <= n.index
    ensures var after := list[u := n];
            && Buffers(after) == Buffers(list)
            && QueuedBytes(after) == QueuedBytes(list)
            && FedBytes(after) == FedBytes(list) + (n.index - list[u].index)
  {
    var before, rest := list[..u], list[u + 1..];
    assert list == before + ([list[u]] + rest);
    assert list[u := n] == before + ([n] + rest);
    QueuedBytesSplit(before, [list[u]] + rest);
    QueuedBytesSplit(before, [n] + rest);
    QueuedBytesSplit([list[u]], rest);
    QueuedBytesSplit([n], rest);
    assert QueuedBytes([n]) == n.Size() + QueuedBytes([]) == QueuedBytes([list[u]]);
    assert FedBytes([n]) == n.index + FedBytes([]);
    assert FedBytes([list[u]]) == list[u].index + FedBytes([]);
  }

  /** The counted chunk continues the stream exactly where the bytes fed so far end. */
  lemma ChunkContinues(p: Player, h: History, c: Chunk)
    requires Fifo(p.list) && Accounted(p.list, h.queued, h.returned, h.fed)
    requires AnyUnfed(p.list) && c == Pick(p.list, p.listGen, p.zorro3)
    ensures h.fed + c.source <= Flatten(h.queued)
  {
    var u := FirstUnfed(p.list);
    var n := p.list[u];
    var before, rest := Buffers(p.list[..u]), Buffers(p.list[u + 1..]);
    FedPosition(p.list);
    QueuedBytesLength(p.list[..u]);
    assert Buffers(p.list) == before + ([n.buffer] + rest);
    SplitStream(h.returned, before, n.buffer, rest);
    SliceContinues(Flatten(h.queued), h.fed, Flatten(h.returned) + Flatten(before),
                   n.buffer.data, Flatten(rest), n.index, c.length);
  }

  lemma SplitStream(a: seq<Buffer>, b: seq<Buffer>, x: Buffer, c: seq<Buffer>)
    ensures Flatten(a + (b + ([x] + c))) == (Flatten(a) + Flatten(b)) + (x.data + Flatten(c))
  {
    FlattenAppends(a, b + ([x] + c));
    FlattenAppends(b, [x] + c);
    FlattenAppends([x], c);
    assert Flatten([x]) == x.data + Flatten([]);
  }

  lemma SliceContinues(all: seq<bv8>, done: seq<bv8>, head: seq<bv8>, mid: seq<bv8>, tail: seq<bv8>, from: nat, n: nat)
    requires all == head + (mid + tail) && done <= all && |done| == |head| + from && from + n <= |mid|
    ensures done + mid[from..from + n] <= all
  {
    assert done == all[..|done|];
    assert mid[from..from + n] == all[|done|..|done| + n];
    assert done + mid[from..from + n] == all[..|done| + n];
  }

  /** The player after booking a chunk that is still current. */
  lemma BookKeepsPlayer(p: Player, h: History, c: Chunk, total: nat)
    requires Addresses(p.list) && Shape(p.list) && Fifo(p.list) && Words(p.list) && total < WRAP
    requires Accounted(p.list, h.queued, h.returned, h.fed) && Current(p, c) && c.gen == p.listGen && Flags(p)
    ensures At(p.list, c.addr) == FirstUnfed(p.list)
    ensures var u := FirstUnfed(p.list);
            var q := p.(list := p.list[u := Fed(p.list[u], c.length, total)]);
            && Addresses(q.list) && Shape(q.list) && Fifo(q.list) && Words(q.list)
            && QueuedBytes(q.list) == QueuedBytes(p.list)
            && Accounted(q.list, h.queued, h.returned, h.fed + c.source) && Flags(q)
  {
    var u := FirstUnfed(p.list);
    PointerValid(p, c);
    FeedKeepsShape(p.list, c.length, total);
    FeedKeepsFifo(p.list, c.length, total);
    FeedKeepsCounts(p.list, u, Fed(p.list[u], c.length, total));
    ChunkContinues(p, h, c);
  }

  lemma BookedKeepsList(w: World)
    requires Sane(w) && Locks(w) && Flags(w.p) && InFlight(w)
    requires w.feeder.Accepted? && w.feeder.chunk.gen == w.p.listGen
    requires At(w.p.list, w.feeder.chunk.addr) == FirstUnfed(w.p.list)
    requires Addresses(w.p.list) && Shape(w.p.list) && Fifo(w.p.list) && QueuedBytes(w.p.list) < HALF
    requires Accounted(w.p.list, w.h.queued, w.h.returned, w.h.fed)
    ensures AnyUnfed(w.p.list) && ListInv(Booked(w))
    ensures Booked(w).h.fed == w.h.fed + w.feeder.chunk.source
    ensures Booked(w).p.submitted == U32(w.p.submitted + w.feeder.chunk.length)
  {
    var c, v := w.feeder.chunk, Booked(w);
    BookKeepsPlayer(w.p, w.h, c, v.p.submitted);
    assert Flags(v.p) && MemoTrue(v.p) && InFlight(v);
  }

  lemma BookKeepsList(w: World)
    requires ListInv(w) && w.feeder.Accepted?
    ensures ListInv(BookStep(w))
    ensures w.feeder.chunk.gen == w.p.listGen ==>
              && BookStep(w).h.fed == w.h.fed + w.feeder.chunk.source
              && BookStep(w).p.submitted == U32(w.p.submitted + w.feeder.chunk.length)
  {
    if w.feeder.chunk.gen == w.p.listGen {
      PointerValid(w.p, w.feeder.chunk);
      BookedKeepsList(w);
    }
  }

  lemma MarkKeepsShape(list: seq<Node>, k: nat)
    requires k <= |list| && Addresses(list) && Shape(list)
    requires forall i :: 0 <= i < k ==> list[i].endValid
    ensures Addresses(MarkPlayed(list, k)) && Shape(MarkPlayed(list, k))
  {
    var after := MarkPlayed(list, k);
    forall i, j | 0 <= i < j < |after| ensures after[i].addr != after[j].addr {
      assert list[i].addr != list[j].addr;
    }
  }

  lemma MarkKeepsOrder(list: seq<Node>, k: nat)
    requires k <= |list| && Fifo(list)
    ensures FirstUnfed(MarkPlayed(list, k)) == FirstUnfed(list)
    ensures Fifo(MarkPlayed(list, k))
    ensures Buffers(MarkPlayed(list, k)) == Buffers(list)
    ensures QueuedBytes(MarkPlayed(list, k)) == QueuedBytes(list)
    ensures FedBytes(MarkPlayed(list, k)) == FedBytes(list)
  {
    FirstUnfedIs(MarkPlayed(list, k), FirstUnfed(list));
    SameCounts(list, MarkPlayed(list, k));
  }

  lemma {:induction false} SameCounts(a: seq<Node>, b: seq<Node>)
    requires |a| == |b|
    requires forall i :: 0 <= i < |a| ==> a[i].buffer == b[i].buffer && a[i].index == b[i].index
    ensures QueuedBytes(a) == QueuedBytes(b) && FedBytes(a) == FedBytes(b)
  {
    if a != [] {
      SameCounts(a[1..], b[1..]);
    }
  }

  lemma RetireKeepsPlayer(p: Player, h: History, drainAll: bool)
    requires p.result.consumed < WRAP && Words(p.list)
    requires Addresses(p.list) && Shape(p.list) && Fifo(p.list) && Flags(p)
    requires Accounted(p.list, h.queued, h.returned, h.fed)
    ensures var q := p.(list := Complete(p.list, p.result.consumed, drainAll));
            && Addresses(q.list) && Shape(q.list) && Fifo(q.list) && Words(q.list)
            && QueuedBytes(q.list) == QueuedBytes(p.list)
            && FirstUnfed(q.list) == FirstUnfed(p.list)
            && Accounted(q.list, h.queued, h.returned, h.fed) && Flags(q)
  {
    MarkKeepsShape(p.list, Reach(p.list, p.result.consumed, drainAll));
    MarkKeepsOrder(p.list, Reach(p.list, p.result.consumed, drainAll));
  }

  lemma RetireKeepsPick(p: Player, drainAll: bool)
    requires p.result.consumed < WRAP && Words(p.list) && AnyUnfed(p.list)
    requires var q := p.(list := Complete(p.list, p.result.consumed, drainAll));
             FirstUnfed(q.list) == FirstUnfed(p.list)
    ensures var q := p.(list := Complete(p.list, p.result.consumed, drainAll));
            forall gen: nat :: Pick(q.list, gen, q.zorro3) == Pick(p.list, gen, p.zorro3)
  {
    PickUnmoved(p, p.(list := Complete(p.list, p.result.consumed, drainAll)));
  }

  lemma RetireKeepsList(w: World, drainAll: bool)
    requires ListInv(w) && !w.feeder.Call? && !w.feeder.Stage? && !w.feeder.Accepted?
    ensures ListInv(Retired(w, drainAll))
  {
    RetireKeepsPlayer(w.p, w.h, drainAll);
    if AnyUnfed(w.p.list) {
      RetireKeepsPick(w.p, drainAll);
    }
  }

  lemma EmptyList()
    ensures Addresses([]) && Shape([]) && Fifo([]) && Words([]) && QueuedBytes([]) == 0 && FedBytes([]) == 0
    ensures Flatten([]) == [] && !AnyUnfed([])
  {
  }

  lemma StopKeepsList(w: World)
    requires Locks(w) && InFlight(w) && MemoTrue(w.p) && w.p.submitted < WRAP && w.p.result.consumed < WRAP
    requires w.control.Ready?
    ensures ListInv(StopStep(w))
  {
    EmptyList();
    var v := StopStep(w);
  }

  lemma AcceptedKeepsList(w: World, reply: Reply)
    requires ListInv(w) && FeedEnabled(w, FeedAccepted(reply))
    ensures ListInv(AcceptedStep(w, reply))
  {
  }

  /** A step that leaves alone everything the list invariant reads. */
  ghost predicate Quiet(w: World, v: World) {
    && v.p.list == w.p.list && v.p.listGen == w.p.listGen && v.p.haveUnfed == w.p.haveUnfed
    && v.p.memo == w.p.memo && v.p.staging == w.p.staging && v.p.zorro3 == w.p.zorro3
    && v.h.queued == w.h.queued && v.h.returned == w.h.returned && v.h.fed == w.h.fed
  }

  /** The feeder holds no chunk. */
  predicate EmptyHanded(f: Feeder) {
    !f.Stage? && !f.Call? && !f.Accepted? && !f.Recheck?
  }

  lemma QuietKeepsList(w: World, v: World)
    requires ListInv(w) && QuietResult(w, v) && Sane(v)
    ensures ListInv(v)
  {
  }

  predicate FeedQuiet(m: FeedMove) {
    m.FeederLock? || m.Gate? || m.FeedRefused? || m.Compare? || m.BindTest? || m.BindReply?
  }

  predicate DrainQuiet(m: DrainMove) {
    !m.RetireProbed? && !m.RetireDrain? && !m.RetireAll?
  }

  predicate ControlQuiet(m: ControlMove) {
    !m.Stop? && !m.CloseSession?
  }

  ghost predicate QuietResult(w: World, v: World) {
    && Quiet(w, v) && Locks(v) && (v.feeder == w.feeder || EmptyHanded(v.feeder))
    && (v.p.status.OutOfData? ==> w.p.status.OutOfData? || !w.p.haveUnfed)
  }

  lemma QuietFeedStep(w: World, m: FeedMove)
    requires Sane(w) && Locks(w) && FeedEnabled(w, m) && FeedQuiet(m)
    ensures QuietResult(w, FeedStep(w, m)) && Sane(FeedStep(w, m))
  {
    match m
    case FeederLock =>
    case Gate =>
    case FeedRefused(reply) =>
    case Compare =>
    case BindTest =>
    case BindReply(reply, bound) =>
  }

  lemma QuietDrainStep(w: World, m: DrainMove)
    requires Sane(w) && Locks(w) && DrainEnabled(w, m) && DrainQuiet(m)
    ensures QuietResult(w, DrainStep(w, m)) && Sane(DrainStep(w, m))
  {
    if m.ProbeReply? || m.DrainReply? {
      QuietReplyStep(w, m);
    } else {
      QuietServiceStep(w, m);
    }
  }

  lemma QuietReplyStep(w: World, m: DrainMove)
    requires Sane(w) && Locks(w) && DrainEnabled(w, m) && (m.ProbeReply? || m.DrainReply?)
    ensures QuietResult(w, DrainStep(w, m)) && Sane(DrainStep(w, m))
  {
  }

  lemma QuietServiceStep(w: World, m: DrainMove)
    requires Sane(w) && Locks(w) && DrainEnabled(w, m) && DrainQuiet(m) && !m.ProbeReply? && !m.DrainReply?
    ensures QuietResult(w, DrainStep(w, m)) && Sane(DrainStep(w, m))
  {
    match m
    case EnterService =>
    case DecideDrain =>
    case TestDrain =>
    case BookDrain =>
    case TestDrained =>
    case ReportEmpty =>
    case FeederUnlock =>
  }

  lemma QuietControlStep(w: World, m: ControlMove)
    requires Sane(w) && Locks(w) && ControlEnabled(w, m) && ControlQuiet(m)
    ensures QuietResult(w, ControlStep(w, m)) && Sane(ControlStep(w, m))
  {
    if m.Play? || m.PlayLock? || m.OpenSession? || m.Publish? {
      QuietPlayStep(w, m);
    } else if m.ResumeReply? {
      QuietResume(w, m.rebind);
    } else if m.StopLock? || m.ResumeLock? {
      QuietLockStep(w, m);
    } else if m.Pause? {
      QuietPause(w);
    } else {
      QuietPausedStep(w, m);
    }
  }

  lemma QuietPlayStep(w: World, m: ControlMove)
    requires Sane(w) && Locks(w) && ControlEnabled(w, m) && (m.Play? || m.PlayLock? || m.OpenSession? || m.Publish?)
    ensures QuietResult(w, ControlStep(w, m)) && Sane(ControlStep(w, m))
  {
    match m
    case Play =>
    case PlayLock =>
    case OpenSession(session) =>
    case Publish =>
  }

  lemma QuietLockStep(w: World, m: ControlMove)
    requires Sane(w) && Locks(w) && ControlEnabled(w, m) && (m.StopLock? || m.ResumeLock?)
    ensures QuietResult(w, ControlStep(w, m)) && Sane(ControlStep(w, m))
  {
  }

  lemma QuietPause(w: World)
    requires Sane(w) && Locks(w) && w.control.Ready?
    ensures QuietResult(w, PauseStep(w)) && Sane(PauseStep(w))
  {
  }

  lemma QuietPausedStep(w: World, m: ControlMove)
    requires Sane(w) && Locks(w) && ControlEnabled(w, m) && (m.PauseLock? || m.PauseDone?)
    ensures QuietResult(w, ControlStep(w, m)) && Sane(ControlStep(w, m))
  {
  }

  lemma QuietResume(w: World, reply: Reply)
    requires Sane(w) && Locks(w) && ControlEnabled(w, ResumeReply(reply))
    ensures QuietResult(w, ResumeStep(w, reply)) && Sane(ResumeStep(w, reply))
  {
  }

  lemma CloseKeepsList(w: World)
    requires ListInv(w) && w.control.StopClose?
    ensures ListInv(CloseStep(w))
  {
  }

  lemma FeedKeepsList(w: World, m: FeedMove)
    requires ListInv(w) && FeedEnabled(w, m)
    ensures ListInv(FeedStep(w, m))
  {
    if FeedQuiet(m) {
      QuietFeedStep(w, m);
      QuietKeepsList(w, FeedStep(w, m));
    } else {
      match m
      case ScanList => ScanKeepsList(w);
      case FillStaging(ok, junk) => StageKeepsList(w, ok, junk);
      case FeedAccepted(reply) => AcceptedKeepsList(w, reply);
      case Book => BookKeepsList(w);
      case RetireRefused =>
        RetireKeepsList(w, false);
        QuietKeepsList(Retired(w, false), FeedStep(w, m));
      case Retire =>
        RetireKeepsList(w, false);
        QuietKeepsList(Retired(w, false), FeedStep(w, m));
    }
  }

  lemma DrainKeepsList(w: World, m: DrainMove)
    requires ListInv(w) && DrainEnabled(w, m)
    ensures ListInv(DrainStep(w, m))
  {
    if DrainQuiet(m) {
      QuietDrainStep(w, m);
      QuietKeepsList(w, DrainStep(w, m));
    } else {
      RetiringDrainKeepsList(w, m);
    }
  }

  lemma RetiringDrainKeepsList(w: World, m: DrainMove)
    requires ListInv(w) && DrainEnabled(w, m) && !DrainQuiet(m)
    ensures ListInv(DrainStep(w, m))
  {
    RetireKeepsList(w, m.RetireAll?);
    QuietRetire(w, m);
    QuietKeepsList(Retired(w, m.RetireAll?), DrainStep(w, m));
  }

  lemma QuietRetire(w: World, m: DrainMove)
    requires Sane(w) && Locks(w) && DrainEnabled(w, m) && !DrainQuiet(m)
    ensures QuietResult(Retired(w, m.RetireAll?), DrainStep(w, m)) && Sane(DrainStep(w, m))
  {
  }

  lemma ControlKeepsList(w: World, m: ControlMove)
    requires ListInv(w) && ControlEnabled(w, m)
    ensures ListInv(ControlStep(w, m))
  {
    if ControlQuiet(m) {
      QuietControlStep(w, m);
      QuietKeepsList(w, ControlStep(w, m));
    } else if m.Stop? {
      StopKeepsList(w);
    } else {
      CloseKeepsList(w);
    }
  }

  /** Every step of every task keeps the list invariant. */
  lemma StepKeepsList(w: World, l: Label)
    requires ListInv(w) && Enabled(w, l)
    ensures ListInv(Step(w, l))
  {
    match l
    case App(Queue(addr, buffer)) => QueueKeepsList(w, addr, buffer);
    case App(Reclaim) => ReclaimKeepsList(w);
    case Feed(m) => FeedKeepsList(w, m);
    case Service(m) => DrainKeepsList(w, m);
    case Command(m) => ControlKeepsList(w, m);
  }

  lemma InitialList(w: World)
    requires Initial(w)
    ensures ListInv(w)
  {
    EmptyList();
    assert w.h.queued == w.h.returned + Buffers(w.p.list);
  }

  /** In every run, whatever the interleaving, the list invariant holds throughout. */
  lemma {:induction false} RunKeepsList(states: seq<World>, labels: seq<Label>, k: nat)
    requires Run(states, labels) && k < |states|
    ensures ListInv(states[k])
  {
    if k == 0 {
      InitialList(states[0]);
    } else {
      RunKeepsList(states, labels, k - 1);
      var w, l := states[k - 1], labels[k - 1];
      assert Enabled(w, l) && states[k] == Step(w, l);
      StepKeepsList(w, l);
    }
  }
}
