/** The MHI feed engine as a state machine: the feeder process, one control task issuing
    Play, Pause and Stop in sequence, and queue and reclaim calls from any task.
    A Forbid() section is one step.  A mailbox call is a step of its own, and others may run
    before and after it.  `io_lock` is a mutex held by the feeder or by the control task. */
module MhiWorld {
  import opened MhiBuffers

  datatype Status = Playing | Stopped | OutOfData | Paused

  /** What a card reply leaves in `mp->result`. */
  datatype Result = Result(consumed: nat, pcmReady: bool, needInput: bool, drained: bool)

  /** The backpressure memo: which chunk already sits in the staging buffer. */
  datatype Memo = NoMemo | Memo(addr: nat, index: nat, chunk: nat, gen: nat)

  datatype Player = Player(
    list: seq<Node>, listGen: nat, haveUnfed: bool,
    status: Status, playPending: bool, pausePending: bool,
    session: nat, submitted: nat, feedsAccepted: nat, backpressure: bool,
    drainRequested: bool, polls: nat,
    result: Result, memo: Memo, staging: seq<bv8>, zorro3: bool)

  /** A chunk the feeder took out of its Forbid() window. */
  datatype Chunk = Chunk(gen: nat, addr: nat, index: nat, length: nat, source: seq<bv8>)

  datatype Feeder =
    | Idle                        // waiting for a wake-up, lock not held
    | Locked                      // lock held, gate not yet tested
    | Scan                        // about to look for unfed data
    | Stage(chunk: Chunk)         // about to fill the staging buffer
    | Call(chunk: Chunk)          // FEED mailbox call in progress
    | Refused                     // FEED answered with backpressure
    | Accepted(chunk: Chunk)      // FEED accepted, bookkeeping still to do
    | Recheck(gen: nat)           // bookkeeping done
    | Consume                     // about to retire consumed buffers, then scan again
    | Bind(drainReply: bool, accepted: bool)
    | BindCall(drainReply: bool, accepted: bool)
    | Serve                       // mhi_stream_service_drain entered
    | ProbeCall
    | Probed
    | Decide
    | DrainGate
    | DrainCall
    | DrainAccepted
    | DrainConsume(accepted: bool)
    | DrainCheck
    | DrainRelease                // about to retire everything the drain covered
    | Report
    | Unlock

  datatype Control =
    | Ready
    | StopWait | StopClose        // list drained, session not yet closed
    | PlayWait | PlayOpen | PlayPublish
    | ResumeWait | ResumeCall
    | PauseWait | PauseCall

  datatype Lock = Free | ByFeeder | ByControl

  /** The card's side of the open session: every byte it accepted, and whether a resumable
      drain is in force. */
  datatype Card = Card(accepted: seq<bv8>, draining: bool)

  /** History kept beside the state.  `queued`, `returned` and `fed` start afresh when the list is
      drained: the buffers queued, the buffers reclaimed, and the bytes counted off the list.
      `counted` starts afresh with the session: the bytes behind submitted_bytes.  `seen` is the
      unwrapped consumed cursor last reported, `drainedTo` the end of input at the last DRAINED reply. */
  datatype History = History(
    queued: seq<Buffer>, returned: seq<Buffer>, fed: seq<bv8>,
    counted: seq<bv8>, seen: nat, drainedTo: nat)

  datatype World = World(p: Player, feeder: Feeder, control: Control, lock: Lock, card: Card, h: History)

  /** Transport geometry: the largest chunk staged per FEED and the capacity of the card's
      compressed ring (bytes accepted and not yet consumed). */
  function StagingBytes(zorro3: bool): nat { if zorro3 then 65536 else 4096 }

  function RingBytes(zorro3: bool): nat { if zorro3 then 131072 else 8192 }

  const DRAIN_IDLE_POLLS := 4

  datatype Reply = Failed | Answer(result: Result, cursor: nat)

  datatype AppCall = Queue(addr: nat, buffer: Buffer) | Reclaim

  /** Moves of the feeder from taking the lock to the end of mhi_feed_pending and mhi_try_bind. */
  datatype FeedMove =
    | FeederLock | Gate | ScanList
    | FillStaging(ok: bool, junk: seq<bv8>)
    | FeedRefused(refusal: Reply) | FeedAccepted(reply: Reply)
    | RetireRefused | Book | Compare | Retire
    | BindTest | BindReply(status: Reply, bound: bool)

  /** Moves of mhi_stream_service_drain, up to giving the lock back. */
  datatype DrainMove =
    | EnterService | ProbeReply(probe: Reply) | RetireProbed | DecideDrain
    | TestDrain | DrainReply(answer: Reply, refused: bool) | BookDrain | RetireDrain
    | TestDrained | RetireAll | ReportEmpty | FeederUnlock

  datatype ControlMove =
    | Stop | StopLock | CloseSession
    | Play | PlayLock | OpenSession(session: nat) | Publish
    | ResumeLock | ResumeReply(rebind: Reply)
    | Pause | PauseLock | PauseDone

  datatype Label = App(call: AppCall) | Feed(feed: FeedMove) | Service(drain: DrainMove) | Command(command: ControlMove)

  /** The chunk a scan picks: the rest of the first unfed node, cut to the staging buffer. */
  function Pick(list: seq<Node>, gen: nat, zorro3: bool): Chunk
    requires AnyUnfed(list)
  {
    var n := list[FirstUnfed(list)];
    var rest := n.Size() - n.index;
    var length := if rest > StagingBytes(zorro3) then StagingBytes(zorro3) else rest;
    Chunk(gen, n.addr, n.index, length, n.buffer.data[n.index..n.index + length])
  }

  /** What the card may answer: the cursor never moves back, never passes the accepted input, and
      never falls further behind it than the ring holds; DRAINED is only claimed during a drain. */
  predicate LawfulReply(card: Card, h: History, zorro3: bool, reply: Reply) {
    reply.Answer? ==>
      && h.seen <= reply.cursor <= |card.accepted| <= reply.cursor + RingBytes(zorro3)
      && reply.result.consumed == U32(reply.cursor)
      && (reply.result.drained ==> card.draining)
  }

  /** A reply lands in `mp->result`. */
  function Landed(w: World, reply: Reply): World
    requires reply.Answer?
  {
    w.(p := w.p.(result := reply.result),
       h := w.h.(seen := reply.cursor,
                 drainedTo := if reply.result.drained then |w.card.accepted| else w.h.drainedTo))
  }

  /** mhi_complete_consumed */
  function Retired(w: World, drainAll: bool): World
    requires w.p.result.consumed < WRAP && Words(w.p.list)
  {
    w.(p := w.p.(list := Complete(w.p.list, w.p.result.consumed, drainAll)))
  }

  function MemoHit(p: Player, c: Chunk): bool {
    p.memo == Memo(c.addr, c.index, c.length, c.gen)
  }

  predicate Sane(w: World) {
    w.p.result.consumed < WRAP && Words(w.p.list) && w.p.submitted < WRAP
  }

  /** The bytes queued and not yet reclaimed stay below 2^31, and a memory block in use is not
      handed out again. */
  predicate AppEnabled(w: World, call: AppCall) {
    match call
    case Queue(addr, buffer) =>
      && buffer.data != [] && (forall i :: 0 <= i < |w.p.list| ==> w.p.list[i].addr != addr)
      && QueuedBytes(w.p.list) + |buffer.data| < HALF
    case Reclaim => true
  }

  predicate FeedEnabled(w: World, m: FeedMove) {
    match m
    case FeederLock => w.feeder.Idle? && w.lock.Free?
    case Gate => w.feeder.Locked?
    case ScanList => w.feeder.Scan?
    case FillStaging(ok, junk) => w.feeder.Stage? && |junk| == w.feeder.chunk.length
    case FeedRefused(reply) => w.feeder.Call? && LawfulReply(w.card, w.h, w.p.zorro3, reply)
    case FeedAccepted(reply) =>
      && w.feeder.Call? && reply.Answer?
      && LawfulReply(Card(w.card.accepted + w.p.staging, false), w.h, w.p.zorro3, reply)
    case RetireRefused => w.feeder.Refused?
    case Book => w.feeder.Accepted?
    case Compare => w.feeder.Recheck?
    case Retire => w.feeder.Consume?
    case BindTest => w.feeder.Bind?
    case BindReply(reply, bound) => w.feeder.BindCall? && LawfulReply(w.card, w.h, w.p.zorro3, reply)
  }

  predicate DrainEnabled(w: World, m: DrainMove) {
    match m
    case EnterService => w.feeder.Serve?
    case ProbeReply(reply) => w.feeder.ProbeCall? && LawfulReply(w.card, w.h, w.p.zorro3, reply)
    case RetireProbed => w.feeder.Probed?
    case DecideDrain => w.feeder.Decide?
    case TestDrain => w.feeder.DrainGate?
    case DrainReply(reply, refused) =>
      && w.feeder.DrainCall?
      && LawfulReply(if refused then w.card else w.card.(draining := true), w.h, w.p.zorro3, reply)
    case BookDrain => w.feeder.DrainAccepted?
    case RetireDrain => w.feeder.DrainConsume?
    case TestDrained => w.feeder.DrainCheck?
    case RetireAll => w.feeder.DrainRelease?
    case ReportEmpty => w.feeder.Report?
    case FeederUnlock => w.feeder.Unlock?
  }

  predicate ControlEnabled(w: World, m: ControlMove) {
    match m
    case Stop => w.control.Ready?
    case StopLock => w.control.StopWait? && w.lock.Free?
    case CloseSession => w.control.StopClose?
    case Play => w.control.Ready?
    case PlayLock => w.control.PlayWait? && w.lock.Free?
    case OpenSession(_) => w.control.PlayOpen?
    case Publish => w.control.PlayPublish?
    case ResumeLock => w.control.ResumeWait? && w.lock.Free?
    case ResumeReply(reply) => w.control.ResumeCall? && LawfulReply(w.card, w.h, w.p.zorro3, reply)
    case Pause => w.control.Ready?
    case PauseLock => w.control.PauseWait? && w.lock.Free?
    case PauseDone => w.control.PauseCall?
  }

  predicate Enabled(w: World, l: Label) {
    match l
    case App(call) => AppEnabled(w, call)
    case Feed(m) => FeedEnabled(w, m)
    case Service(m) => DrainEnabled(w, m)
    case Command(m) => ControlEnabled(w, m)
  }

  // ---- application calls ----

  /** i_MHIQueueBuffer with a non-empty buffer */
  function QueueStep(w: World, addr: nat, buffer: Buffer): World {
    w.(p := w.p.(list := w.p.list + [FreshNode(addr, buffer)], haveUnfed := true,
                 drainRequested := false, polls := 0,
                 status := if w.p.status.OutOfData? then Playing else w.p.status),
       h := w.h.(queued := w.h.queued + [buffer]))
  }

  /** i_MHIGetEmpty */
  function ReclaimStep(w: World): World {
    if w.p.list != [] && w.p.list[0].played then
      w.(p := w.p.(list := w.p.list[1..]), h := w.h.(returned := w.h.returned + [w.p.list[0].buffer]))
    else w
  }

  // ---- the feeder ----

  function GateStep(w: World): World {
    w.(feeder := if w.p.session != 0 && w.p.status.Playing? then Scan else Unlock)
  }

  function ScanStep(w: World): World {
    var found := AnyUnfed(w.p.list);
    w.(p := w.p.(haveUnfed := found),
       feeder := if found then Stage(Pick(w.p.list, w.p.listGen, w.p.zorro3)) else Bind(false, false))
  }

  /** The copy is skipped when the memo names this very chunk.  Once the list has been drained the
      application may have reused the memory, so any bytes can be copied. */
  function StageStep(w: World, ok: bool, junk: seq<bv8>): World
    requires w.feeder.Stage?
  {
    var c := w.feeder.chunk;
    if MemoHit(w.p, c) then w.(feeder := Call(c))
    else if !ok then w.(feeder := Bind(false, false))
    else w.(p := w.p.(staging := if c.gen == w.p.listGen then c.source else junk,
                      memo := Memo(c.addr, c.index, c.length, c.gen)),
            feeder := Call(c))
  }

  function RefusedStep(w: World, reply: Reply): World {
    if reply.Failed? then w.(feeder := Bind(false, false))
    else Landed(w, reply).(feeder := Refused)
  }

  function AcceptedStep(w: World, reply: Reply): World
    requires w.feeder.Call? && reply.Answer?
  {
    var taken := w.(card := Card(w.card.accepted + w.p.staging, false));
    var landed := Landed(taken, reply);
    landed.(p := landed.p.(backpressure := false, memo := NoMemo, feedsAccepted := w.p.feedsAccepted + 1),
            feeder := Accepted(w.feeder.chunk))
  }

  /** The node a pointer leads to: its position in the list, or |list| when it has been freed. */
  function At(list: seq<Node>, addr: nat): (i: nat)
    ensures i <= |list|
    ensures i < |list| ==> list[i].addr == addr
    ensures forall j :: 0 <= j < i ==> list[j].addr != addr
  {
    if list == [] || list[0].addr == addr then 0 else 1 + At(list[1..], addr)
  }

  /** The bookkeeping window after an accepted FEED: done only while the list generation still
      matches.  The node pointer is followed only then. */
  function BookStep(w: World): World
    requires w.feeder.Accepted?
  {
    var c := w.feeder.chunk;
    if c.gen == w.p.listGen && At(w.p.list, c.addr) < |w.p.list| then Booked(w)
    else w.(feeder := Recheck(c.gen))
  }

  function Booked(w: World): World
    requires w.feeder.Accepted? && At(w.p.list, w.feeder.chunk.addr) < |w.p.list|
  {
    var c := w.feeder.chunk;
    var u := At(w.p.list, c.addr);
    var total := U32(w.p.submitted + c.length);
    w.(p := w.p.(drainRequested := false, polls := 0, submitted := total,
                 list := w.p.list[u := Fed(w.p.list[u], c.length, total)]),
       feeder := Recheck(c.gen),
       h := w.h.(fed := w.h.fed + w.p.staging, counted := w.h.counted + w.p.staging))
  }

  /** mhi_try_bind; also entered from the drain request */
  function BindStep(w: World): World
    requires w.feeder.Bind?
  {
    if !w.p.playPending || w.p.session == 0 || !w.p.status.Playing?
    then w.(feeder := AfterBind(w.feeder.drainReply, w.feeder.accepted))
    else w.(feeder := BindCall(w.feeder.drainReply, w.feeder.accepted))
  }

  function AfterBind(drainReply: bool, accepted: bool): Feeder {
    if !drainReply then Serve else if accepted then DrainCheck else Unlock
  }

  function BindReplyStep(w: World, reply: Reply, bound: bool): World
    requires w.feeder.BindCall?
  {
    var next := AfterBind(w.feeder.drainReply, w.feeder.accepted);
    if reply.Failed? then w.(feeder := next)
    else
      var landed := Landed(w, reply);
      landed.(p := landed.p.(playPending := if bound then false else w.p.playPending), feeder := next)
  }

  function ServiceStep(w: World): World {
    if w.p.session == 0 || !w.p.status.Playing? || w.p.haveUnfed || w.p.feedsAccepted == 0
    then w.(p := w.p.(polls := 0), feeder := Unlock)
    else w.(feeder := ProbeCall)
  }

  function ProbeStep(w: World, reply: Reply): World {
    if reply.Failed? then w.(feeder := Unlock) else Landed(w, reply).(feeder := Probed)
  }

  function DecideStep(w: World): World {
    if w.p.drainRequested then w.(feeder := DrainCheck)
    else if !w.p.result.needInput then w.(p := w.p.(polls := 0), feeder := Unlock)
    else
      var polls := if w.p.polls < DRAIN_IDLE_POLLS then w.p.polls + 1 else w.p.polls;
      w.(p := w.p.(polls := polls), feeder := if polls < DRAIN_IDLE_POLLS then Unlock else DrainGate)
  }

  function DrainGateStep(w: World): World {
    if w.p.session == 0 || w.p.haveUnfed || w.p.feedsAccepted == 0 then w.(feeder := Unlock)
    else if w.p.drainRequested then w.(feeder := DrainCheck)
    else w.(feeder := DrainCall)
  }

  function DrainReplyStep(w: World, reply: Reply, refused: bool): World {
    if reply.Failed? then w.(feeder := Unlock)
    else if refused then Landed(w, reply).(feeder := Unlock)
    else Landed(w.(card := w.card.(draining := true)), reply).(feeder := DrainAccepted)
  }

  function BookDrainStep(w: World): World {
    if w.p.haveUnfed then w.(feeder := DrainConsume(false))
    else w.(p := w.p.(drainRequested := true, polls := 0), feeder := DrainConsume(true))
  }

  function ReportStep(w: World): World {
    w.(p := w.p.(status := if w.p.status.Playing? && !w.p.haveUnfed then OutOfData else w.p.status),
       feeder := Unlock)
  }

  // ---- the control task ----

  /** The Forbid() window of i_MHIStop, with drain_buffer_list_locked inside it. */
  function StopStep(w: World): World {
    w.(p := w.p.(status := Stopped, playPending := false, pausePending := false,
                 list := [], listGen := w.p.listGen + 1, haveUnfed := false,
                 backpressure := false, drainRequested := false, polls := 0),
       control := if w.p.status.Stopped? then Ready else StopWait,
       h := w.h.(queued := [], returned := [], fed := []))
  }

  /** mhi_stream_close */
  function CloseStep(w: World): World {
    var closed :=
      if w.p.session == 0 then w
      else w.(p := w.p.(session := 0, memo := NoMemo, playPending := false,
                        drainRequested := false, polls := 0, submitted := 0),
              card := Card([], false),
              h := w.h.(counted := [], seen := 0, drainedTo := 0));
    closed.(control := Ready, lock := Free)
  }

  function PlayStep(w: World): World {
    match w.p.status
    case Stopped => w.(control := PlayWait)
    case OutOfData => w.(control := PlayWait)
    case Paused =>
      if w.p.playPending then w.(p := w.p.(status := Playing)) else w.(control := ResumeWait)
    case Playing => w
  }

  /** mhi_stream_open; session 0 stands for a BEGIN the card rejected */
  function OpenStep(w: World, session: nat): World {
    if w.p.session != 0 then w.(control := PlayPublish)
    else if session == 0 then w.(control := Ready, lock := Free)
    else
      w.(p := w.p.(session := session, backpressure := false, drainRequested := false, polls := 0,
                   submitted := 0, feedsAccepted := 0, result := Result(0, false, false, false)),
         control := PlayPublish,
         card := Card([], false),
         h := w.h.(counted := [], seen := 0, drainedTo := 0))
  }

  function PublishStep(w: World): World {
    w.(p := w.p.(pausePending := false, playPending := true,
                 status := if w.p.pausePending then Paused else Playing),
       control := Ready, lock := Free)
  }

  function ResumeStep(w: World, reply: Reply): World {
    if reply.Failed? then w.(control := Ready, lock := Free)
    else
      var landed := Landed(w, reply);
      landed.(p := landed.p.(status := if w.p.status.Paused? then Playing else w.p.status),
              control := Ready, lock := Free)
  }

  function PauseStep(w: World): World {
    if w.p.status.Playing? then
      w.(p := w.p.(status := Paused), control := if w.p.session != 0 then PauseWait else Ready)
    else if w.p.status.Stopped? then w.(p := w.p.(pausePending := true))
    else w
  }

  function FeedStep(w: World, m: FeedMove): World
    requires Sane(w) && FeedEnabled(w, m)
  {
    match m
    case FeederLock => w.(feeder := Locked, lock := ByFeeder)
    case Gate => GateStep(w)
    case ScanList => ScanStep(w)
    case FillStaging(ok, junk) => StageStep(w, ok, junk)
    case FeedRefused(reply) => RefusedStep(w, reply)
    case FeedAccepted(reply) => AcceptedStep(w, reply)
    case RetireRefused =>
      var r := Retired(w, false);
      r.(p := r.p.(backpressure := true), feeder := Bind(false, false))
    case Book => BookStep(w)
    case Compare => w.(feeder := if w.feeder.gen != w.p.listGen then Bind(false, false) else Consume)
    case Retire => Retired(w, false).(feeder := Scan)
    case BindTest => BindStep(w)
    case BindReply(reply, bound) => BindReplyStep(w, reply, bound)
  }

  function DrainStep(w: World, m: DrainMove): World
    requires Sane(w) && DrainEnabled(w, m)
  {
    match m
    case EnterService => ServiceStep(w)
    case ProbeReply(reply) => ProbeStep(w, reply)
    case RetireProbed => Retired(w, false).(feeder := Decide)
    case DecideDrain => DecideStep(w)
    case TestDrain => DrainGateStep(w)
    case DrainReply(reply, refused) => DrainReplyStep(w, reply, refused)
    case BookDrain => BookDrainStep(w)
    case RetireDrain => Retired(w, false).(feeder := Bind(true, w.feeder.accepted))
    case TestDrained => w.(feeder := if w.p.result.drained then DrainRelease else Unlock)
    case RetireAll => Retired(w, true).(feeder := Report)
    case ReportEmpty => ReportStep(w)
    case FeederUnlock => w.(feeder := Idle, lock := Free)
  }

  function ControlStep(w: World, m: ControlMove): World
    requires ControlEnabled(w, m)
  {
    match m
    case Stop => StopStep(w)
    case StopLock => w.(control := StopClose, lock := ByControl)
    case CloseSession => CloseStep(w)
    case Play => PlayStep(w)
    case PlayLock => w.(p := w.p.(pausePending := false), control := PlayOpen, lock := ByControl)
    case OpenSession(session) => OpenStep(w, session)
    case Publish => PublishStep(w)
    case ResumeLock =>
      if w.p.status.Paused? then w.(control := ResumeCall, lock := ByControl) else w.(control := Ready)
    case ResumeReply(reply) => ResumeStep(w, reply)
    case Pause => PauseStep(w)
    case PauseLock => w.(control := PauseCall, lock := ByControl)
    case PauseDone => w.(control := Ready, lock := Free)
  }

  function Step(w: World, l: Label): World
    requires Sane(w) && Enabled(w, l)
  {
    match l
    case App(Queue(addr, buffer)) => QueueStep(w, addr, buffer)
    case App(Reclaim) => ReclaimStep(w)
    case Feed(m) => FeedStep(w, m)
    case Service(m) => DrainStep(w, m)
    case Command(m) => ControlStep(w, m)
  }

  /** A freshly allocated decoder. */
  predicate Initial(w: World) {
    && w.p == Player([], 0, false, Stopped, false, false, 0, 0, 0, false, false, 0,
                     Result(0, false, false, false), NoMemo, [], w.p.zorro3)
    && w.feeder.Idle? && w.control.Ready? && w.lock.Free?
    && w.card == Card([], false)
    && w.h == History([], [], [], [], 0, 0)
  }

  /** `states` is a run of `labels` from a freshly allocated decoder.  Sane bounds the counters; every step
      keeps it (MhiListProof.StepKeepsList), so it excludes no run. */
  ghost predicate Run(states: seq<World>, labels: seq<Label>) {
    && |states| == |labels| + 1
    && Initial(states[0])
    && forall i :: 0 <= i < |labels| ==>
         Sane(states[i]) && Enabled(states[i], labels[i]) && states[i + 1] == Step(states[i], labels[i])
  }

  /** The list has been drained by a Stop that has not closed its session yet. */
  predicate StopOpen(w: World) {
    w.control.StopWait? || w.control.StopClose?
  }

  /** No buffer is queued between the list drain and the end of a Stop call. */
  ghost predicate QueuesOutsideStop(states: seq<World>, labels: seq<Label>)
    requires |states| == |labels| + 1
  {
    forall i :: 0 <= i < |labels| ==> labels[i].App? && labels[i].call.Queue? ==> !StopOpen(states[i])
  }
}
