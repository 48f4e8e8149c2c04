/** The MHI feed engine over whole runs. */
module MhiTheorems {
  import opened MhiBuffers
  import opened MhiWorld
  import opened MhiListProof
  import opened MhiSessionProof

  /** Every interleaving: what has been fed off the list is a prefix of what was queued since the
      last drain, in order and without repetition, and stops inside one buffer; buffers come back
      in queue order, each once, and only after their last byte was handed over. */
  lemma FedIsPrefixOfQueued(states: seq<World>, labels: seq<Label>, k: nat)
    requires Run(states, labels) && k < |states|
    ensures var w := states[k];
            && w.h.fed <= Flatten(w.h.queued)
            && |w.h.fed| == |Flatten(w.h.returned)| + FedBytes(w.p.list)
            && w.h.queued == w.h.returned + Buffers(w.p.list)
            && Fifo(w.p.list)
  {
    RunKeepsList(states, labels, k);
  }

  /** Every interleaving: the played buffers are the first ones of the queue, have_unfed is set
      whenever an unfed buffer exists, and OUT_OF_DATA never coexists with one. */
  lemma StatusAgreesWithQueue(states: seq<World>, labels: seq<Label>, k: nat)
    requires Run(states, labels) && k < |states|
    ensures var p := states[k].p;
            && (forall i, j :: 0 <= i < j < |p.list| && p.list[j].played ==> p.list[i].played)
            && (forall i :: 0 <= i < |p.list| && p.list[i].played ==> p.list[i].index == p.list[i].Size())
            && ((exists i :: 0 <= i < |p.list| && p.list[i].Unfed()) ==> p.haveUnfed && !p.status.OutOfData?)
  {
    RunKeepsList(states, labels, k);
  }

  /** A FEED that a drain overtook books nothing: the new list, its positions and submitted_bytes stay as they are. */
  lemma OvertakenChunkBooksNothing(states: seq<World>, labels: seq<Label>, k: nat)
    requires Run(states, labels) && k < |labels| && labels[k] == Feed(Book)
    ensures states[k].feeder.Accepted?
    ensures states[k].feeder.chunk.gen != states[k].p.listGen ==> states[k + 1].p == states[k].p
    ensures states[k].feeder.chunk.gen == states[k].p.listGen ==>
              states[k + 1].h.fed == states[k].h.fed + states[k].feeder.chunk.source
  {
    RunKeepsList(states, labels, k);
    assert Enabled(states[k], labels[k]) && states[k + 1] == Step(states[k], labels[k]);
    BookKeepsList(states[k]);
  }

  /** The staged memo is never stale: when it lets the feeder skip the copy, the staging buffer holds
      exactly the chunk just picked, even though freed nodes' addresses are reused. */
  lemma SkippedCopyIsSafe(states: seq<World>, labels: seq<Label>, k: nat)
    requires Run(states, labels) && k < |states|
    requires states[k].feeder.Stage? && MemoHit(states[k].p, states[k].feeder.chunk)
    requires states[k].feeder.chunk.gen == states[k].p.listGen
    ensures states[k].p.staging == states[k].feeder.chunk.source
  {
    RunKeepsList(states, labels, k);
  }

  // ---- sessions ----

  /** submitted_bytes and the card account for this list and nothing else. */
  ghost predicate Faithful(w: World) {
    && (w.p.session == 0 ==> w.h.fed == [])
    && (Open(w) ==>
          && w.h.counted == w.h.fed
          && w.p.submitted == U32(|w.h.fed|)
          && w.card.accepted == w.h.fed + if w.feeder.Accepted? then w.p.staging else [])
  }

  ghost predicate NoBookInWindow(states: seq<World>, labels: seq<Label>)
    requires |states| == |labels| + 1
  {
    forall i :: 0 <= i < |labels| ==> !BooksInWindow(states[i], labels[i])
  }

  lemma InitialSession(w: World)
    requires Initial(w)
    ensures SessionInv(w)
  {
  }

  lemma {:induction false} RunKeepsSession(states: seq<World>, labels: seq<Label>, k: nat)
    requires Run(states, labels) && k < |states|
    requires forall i :: 0 <= i < k ==> !BooksInWindow(states[i], labels[i])
    ensures SessionInv(states[k])
  {
    if k == 0 {
      InitialSession(states[0]);
    } else {
      RunKeepsSession(states, labels, k - 1);
      RunKeepsList(states, labels, k - 1);
      var w, l := states[k - 1], labels[k - 1];
      assert Enabled(w, l) && states[k] == Step(w, l) && !BooksInWindow(w, l);
      StepKeepsSession(w, l);
    }
  }

  /** Without queue calls in the window, a drained list stays empty until its session is closed. */
  lemma WindowStepKeepsEmpty(w: World, l: Label)
    requires Sane(w) && Enabled(w, l) && StopOpen(Step(w, l))
    requires StopOpen(w) ==> w.p.list == [] && !(l.App? && l.call.Queue?)
    ensures Step(w, l).p.list == []
  {
    if StopOpen(w) && l.Feed? {
      FeedKeepsEmpty(w, l.feed);
    } else if StopOpen(w) && l.Service? {
      DrainKeepsEmpty(w, l.drain);
    }
  }

  lemma FeedKeepsEmpty(w: World, m: FeedMove)
    requires Sane(w) && FeedEnabled(w, m) && w.p.list == []
    ensures FeedStep(w, m).p.list == []
  {
    if m.Retire? || m.RetireRefused? {
      assert Retired(w, false).p.list == [];
    }
  }

  lemma DrainKeepsEmpty(w: World, m: DrainMove)
    requires Sane(w) && DrainEnabled(w, m) && w.p.list == []
    ensures DrainStep(w, m).p.list == []
  {
    assert Retired(w, m.RetireAll?).p.list == [];
  }

  lemma {:induction false} WindowStaysEmpty(states: seq<World>, labels: seq<Label>, k: nat)
    requires Run(states, labels) && QueuesOutsideStop(states, labels) && k < |states|
    ensures StopOpen(states[k]) ==> states[k].p.list == []
  {
    if k > 0 {
      WindowStaysEmpty(states, labels, k - 1);
      var w, l := states[k - 1], labels[k - 1];
      assert Sane(w) && Enabled(w, l) && states[k] == Step(w, l);
      assert l.App? && l.call.Queue? ==> !StopOpen(w);
      if StopOpen(states[k]) {
        WindowStepKeepsEmpty(w, l);
      }
    }
  }

  lemma QueueDisciplineSuffices(states: seq<World>, labels: seq<Label>)
    requires Run(states, labels) && QueuesOutsideStop(states, labels)
    ensures NoBookInWindow(states, labels)
  {
    forall i | 0 <= i < |labels| ensures !BooksInWindow(states[i], labels[i]) {
      WindowStaysEmpty(states, labels, i);
      RunKeepsList(states, labels, i);
    }
  }

  /** When no buffer is queued between a Stop's list drain and its session close: the bytes counted
      as submitted in the open session are exactly the fed prefix of the queue, submitted_bytes is
      their number modulo 2^32, the card holds those bytes once each, every recorded stream end is
      the buffer's true end, and a buffer is played only once the card's cursor has reached that end
      or a drain that covers it has finished. */
  lemma SubmittedIsPrefix(states: seq<World>, labels: seq<Label>, k: nat)
    requires Run(states, labels) && QueuesOutsideStop(states, labels) && k < |states|
    ensures var w := states[k];
            && Faithful(w)
            && w.h.fed <= Flatten(w.h.queued)
            && (Open(w) ==> EndsRecorded(w.p.list, w.h.returned) && PlayedJustified(w.p.list, w.h))
  {
    QueueDisciplineSuffices(states, labels);
    RunKeepsSession(states, labels, k);
    RunKeepsList(states, labels, k);
  }

  /** Once a chunk of the new list has been booked in the window, closing the session loses it. */
  lemma {:induction false} CloseLosesBooked(states: seq<World>, labels: seq<Label>, k: nat)
    requires Run(states, labels) && k < |states| && states[|labels|].control.Ready?
    requires StopOpen(states[k]) && states[k].h.fed != []
    ensures exists m :: k < m < |states| && !Faithful(states[m])
    decreases |states| - k
  {
    var w, l := states[k], labels[k];
    assert Sane(w) && Enabled(w, l) && states[k + 1] == Step(w, l);
    WindowStep(w, l);
    if StopOpen(states[k + 1]) {
      CloseLosesBooked(states, labels, k + 1);
    } else {
      assert !Faithful(states[k + 1]);
    }
  }

  lemma WindowStep(w: World, l: Label)
    requires Sane(w) && Enabled(w, l) && StopOpen(w) && w.h.fed != []
    ensures var v := Step(w, l);
            v.h.fed != [] && (StopOpen(v) || v.p.session == 0)
  {
  }

  /** Exactly when the accounting is faithful, over every run that ends with no Stop in progress. */
  lemma FaithfulExactlyWhen(states: seq<World>, labels: seq<Label>)
    requires Run(states, labels) && states[|labels|].control.Ready?
    ensures (forall k :: 0 <= k < |states| ==> Faithful(states[k])) <==> NoBookInWindow(states, labels)
  {
    if NoBookInWindow(states, labels) {
      forall k | 0 <= k < |states| ensures Faithful(states[k]) {
        RunKeepsSession(states, labels, k);
      }
    } else {
      var i :| 0 <= i < |labels| && BooksInWindow(states[i], labels[i]);
      BookedIsLost(states, labels, i);
    }
  }

  lemma BookedIsLost(states: seq<World>, labels: seq<Label>, i: nat)
    requires Run(states, labels) && states[|labels|].control.Ready?
    requires i < |labels| && BooksInWindow(states[i], labels[i])
    ensures exists m :: 0 <= m < |states| && !Faithful(states[m])
  {
    RunKeepsList(states, labels, i);
    var w, l := states[i], labels[i];
    assert Sane(w) && Enabled(w, l) && states[i + 1] == Step(w, l);
    BookOpens(w, l);
    CloseLosesBooked(states, labels, i + 1);
  }

  lemma BookOpens(w: World, l: Label)
    requires ListInv(w) && Sane(w) && Enabled(w, l) && BooksInWindow(w, l)
    ensures StopOpen(Step(w, l)) && Step(w, l).h.fed != []
  {
    BookKeepsList(w);
  }

  // ---- the window is real ----

  lemma Extend(states: seq<World>, labels: seq<Label>, l: Label) returns (more: seq<World>, all: seq<Label>)
    requires Run(states, labels) && Sane(states[|labels|]) && Enabled(states[|labels|], l)
    ensures Run(more, all) && all == labels + [l]
    ensures more[|all|] == Step(states[|labels|], l)
  {
    more, all := states + [Step(states[|labels|], l)], labels + [l];
    forall i | 0 <= i < |all|
      ensures Sane(more[i]) && Enabled(more[i], all[i]) && more[i + 1] == Step(more[i], all[i])
    {
      if i < |labels| {
        assert more[i] == states[i] && more[i + 1] == states[i + 1] && all[i] == labels[i];
      }
    }
  }

  function Start(zorro3: bool): World {
    World(Player([], 0, false, Stopped, false, false, 0, 0, 0, false, false, 0,
                 Result(0, false, false, false), NoMemo, [], zorro3),
          Idle, Ready, Free, Card([], false), History([], [], [], [], 0, 0))
  }

  /** Play; the feeder passes its gate; Stop drains the list; another task queues a one-byte buffer
      before Stop gets the lock.  The feeder sends it to the session that Stop then closes, so the
      next session starts with that buffer already marked as handed over. */
  lemma QueueInWindowIsLost() returns (states: seq<World>, labels: seq<Label>)
    ensures Run(states, labels)
    ensures var w := states[|labels|];
            && w.control.Ready? && w.p.session == 0 && !Faithful(w)
            && |w.p.list| == 1 && !w.p.list[0].Unfed() && !w.p.haveUnfed
  {
    states, labels := StopAtScan();
    var buffer, last := Buffer(1, [1 as bv8]), states[|labels|];
    assert QueuedBytes([]) == 0;
    states, labels := Extend(states, labels, App(Queue(7, buffer)));
    assert states[|labels|].p.list == [FreshNode(7, buffer)];
    states, labels := FeedOneByte(states, labels, buffer);
    states, labels := FinishStop(states, labels);
  }

  /** Play up to the feeder's first scan, which a Stop overtakes. */
  lemma StopAtScan() returns (states: seq<World>, labels: seq<Label>)
    ensures Run(states, labels)
    ensures var w := states[|labels|];
            && Sane(w) && w.feeder.Scan? && w.control.StopWait? && w.lock.ByFeeder? && w.p.status.Stopped?
            && !w.p.playPending && w.p.list == [] && w.p.session == 1 && w.p.submitted == 0
            && w.p.memo.NoMemo? && w.card.accepted == [] && w.h.seen == 0 && w.h.fed == []
            && w.p.result.consumed == 0
  {
    states, labels := [Start(true)], [];
    states, labels := Extend(states, labels, Command(Play));
    states, labels := Extend(states, labels, Command(PlayLock));
    states, labels := Extend(states, labels, Command(OpenSession(1)));
    states, labels := Extend(states, labels, Command(Publish));
    states, labels := Extend(states, labels, Feed(FeederLock));
    states, labels := Extend(states, labels, Feed(Gate));
    states, labels := Extend(states, labels, Command(Stop));
  }

  /** The feeder picks the one-byte buffer just queued, and the card accepts it. */
  lemma FeedOneByte(states: seq<World>, labels: seq<Label>, buffer: Buffer)
    returns (more: seq<World>, all: seq<Label>)
    requires Run(states, labels) && |buffer.data| == 1
    requires var w := states[|labels|];
             && Sane(w) && w.feeder.Scan? && w.p.list == [FreshNode(7, buffer)] && w.p.submitted == 0
             && w.p.memo.NoMemo? && w.card.accepted == [] && w.h.seen == 0 && w.h.fed == []
             && w.p.result.consumed == 0
    ensures Run(more, all)
    ensures var w, v := states[|labels|], more[|all|];
            && Sane(v) && v.feeder.Scan? && v.control == w.control && v.lock == w.lock && v.p.status == w.p.status
            && v.p.playPending == w.p.playPending && |v.p.list| == 1 && !v.p.list[0].Unfed() && v.h.fed != []
  {
    FirstUnfedIs([FreshNode(7, buffer)], 0);
    more, all := Extend(states, labels, Feed(ScanList));
    more, all := Extend(more, all, Feed(FillStaging(true, [0])));
    more, all := Extend(more, all, Feed(FeedAccepted(Answer(Result(0, false, false, false), 0))));
    assert At([FreshNode(7, buffer)], 7) == 0;
    more, all := BookOneByte(more, all, FreshNode(7, buffer));
  }

  lemma BookOneByte(states: seq<World>, labels: seq<Label>, node: Node)
    returns (more: seq<World>, all: seq<Label>)
    requires Run(states, labels) && node.Size() == 1 && node.index == 0 && !node.played
    requires var w := states[|labels|];
             && Sane(w) && w.p.list == [node] && w.p.submitted == 0 && w.p.result.consumed == 0 && w.h.fed == []
             && w.feeder == Accepted(Chunk(w.p.listGen, node.addr, 0, 1, node.buffer.data)) && |w.p.staging| == 1
    ensures Run(more, all)
    ensures var w, v := states[|labels|], more[|all|];
            && Sane(v) && v.feeder.Scan? && v.control == w.control && v.lock == w.lock && v.p.status == w.p.status
            && v.p.playPending == w.p.playPending && |v.p.list| == 1 && !v.p.list[0].Unfed() && v.h.fed != []
  {
    more, all := Extend(states, labels, Feed(Book));
    assert more[|all|].p.list == [Fed(node, 1, 1)];
    more, all := Extend(more, all, Feed(Compare));
    more, all := Extend(more, all, Feed(Retire));
  }

  /** The feeder finds nothing more, gives the lock back, and Stop closes the session. */
  lemma FinishStop(states: seq<World>, labels: seq<Label>) returns (more: seq<World>, all: seq<Label>)
    requires Run(states, labels)
    requires var w := states[|labels|];
             && Sane(w) && w.feeder.Scan? && w.control.StopWait? && w.lock.ByFeeder? && w.p.status.Stopped?
             && !w.p.playPending && !AnyUnfed(w.p.list)
    ensures Run(more, all)
    ensures var w, v := states[|labels|], more[|all|];
            && v.control.Ready? && v.p.session == 0 && v.p.list == w.p.list && v.h.fed == w.h.fed
            && !v.p.haveUnfed
  {
    more, all := FeederLeaves(states, labels);
    more, all := Extend(more, all, Command(StopLock));
    more, all := Extend(more, all, Command(CloseSession));
  }

  lemma FeederLeaves(states: seq<World>, labels: seq<Label>) returns (more: seq<World>, all: seq<Label>)
    requires Run(states, labels)
    requires var w := states[|labels|];
             && Sane(w) && w.feeder.Scan? && w.control.StopWait? && w.lock.ByFeeder? && w.p.status.Stopped?
             && !w.p.playPending && !AnyUnfed(w.p.list)
    ensures Run(more, all)
    ensures var w, v := states[|labels|], more[|all|];
            && Sane(v) && v.feeder.Idle? && v.control.StopWait? && v.lock.Free? && v.p.list == w.p.list
            && v.h.fed == w.h.fed && !v.p.haveUnfed
  {
    more, all := Extend(states, labels, Feed(ScanList));
    more, all := Extend(more, all, Feed(BindTest));
    more, all := Extend(more, all, Service(EnterService));
    more, all := Extend(more, all, Service(FeederUnlock));
  }
}
