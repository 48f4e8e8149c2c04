/** The decoder object and the Forbid() sections that walk or change its buffer list, in the
    driver's own form.  Each leaves the object showing what the state machine of MhiWorld holds after
    that step; `w` is the machine's state before it. */
module MhiPlayer {
  import opened MhiBuffers
  import opened MhiWorld

  class ListNode {
    const addr: nat
    const buffer: Buffer
    var index: nat
    var streamEnd: nat
    var endValid: bool
    var played: bool

    constructor (addr: nat, buffer: Buffer)
      ensures Value() == FreshNode(addr, buffer)
    {
      this.addr, this.buffer := addr, buffer;
      index, streamEnd, endValid, played := 0, 0, false, false;
    }

    function Value(): Node
      reads this
    {
      Node(addr, buffer, index, streamEnd, endValid, played)
    }
  }

  function Values(list: seq<ListNode>): (r: seq<Node>)
    reads list
    ensures |r| == |list| && forall i :: 0 <= i < |list| ==> r[i] == list[i].Value()
  {
    seq(|list|, i requires 0 <= i < |list| reads list => list[i].Value())
  }

  lemma WalkResult(before: seq<Node>, after: seq<Node>, consumed: nat, drainAll: bool, i: nat)
    requires consumed < WRAP && Words(before) && i <= |before| == |after|
    requires forall j :: 0 <= j < i ==> before[j].played || Consumable(before[j], consumed, drainAll)
    requires i < |before| ==> !before[i].played && !Consumable(before[i], consumed, drainAll)
    requires forall j :: 0 <= j < i ==> after[j] == before[j].(played := true)
    requires forall j :: i <= j < |before| ==> after[j] == before[j]
    ensures after == Complete(before, consumed, drainAll)
    ensures Words(after)
    ensures (forall j :: 0 <= j < i ==> before[j].played) ==> after == before
  {
    ReachIs(before, consumed, drainAll, i);
    assert after == MarkPlayed(before, i);
  }

  lemma {:induction false} AtIs(list: seq<Node>, addr: nat, i: nat)
    requires i < |list| && list[i].addr == addr && forall j :: 0 <= j < |list| && j != i ==> list[j].addr != addr
    ensures At(list, addr) == i
  {
    assert list[At(list, addr)].addr == addr;
  }

  /** No two nodes are at one address. */
  ghost predicate Apart(list: seq<Node>) {
    forall i, j :: 0 <= i < j < |list| ==> list[i].addr != list[j].addr
  }

  function BookedPlayer(p: Player, u: nat, chunk: nat): Player
    requires u < |p.list|
  {
    var total := U32(p.submitted + chunk);
    p.(drainRequested := false, polls := 0, submitted := total, list := p.list[u := Fed(p.list[u], chunk, total)])
  }

  lemma BookedIs(w: World, u: nat)
    requires w.feeder.Accepted? && w.feeder.chunk.gen == w.p.listGen && Apart(w.p.list)
    requires u < |w.p.list| && w.p.list[u].addr == w.feeder.chunk.addr
    ensures BookStep(w).p == BookedPlayer(w.p, u, w.feeder.chunk.length)
  {
    AtIs(w.p.list, w.feeder.chunk.addr, u);
  }

  class Decoder {
    var list: seq<ListNode>
    var listGen: nat
    var haveUnfed: bool
    var status: Status
    var playPending: bool
    var pausePending: bool
    var backpressure: bool
    var submitted: nat
    var drainRequested: bool
    var polls: nat
    var consumed: nat

    ghost predicate Valid()
      reads this`list, this`submitted, this`consumed, list
    {
      && submitted < WRAP && consumed < WRAP
      && Apart(Values(list)) && Words(Values(list))
    }

    /** The player p with what the object holds in its place */
    ghost function Over(p: Player): Player
      reads this, list
    {
      p.(list := Values(list), listGen := listGen, haveUnfed := haveUnfed, status := status,
         playPending := playPending, pausePending := pausePending, submitted := submitted,
         backpressure := backpressure, drainRequested := drainRequested, polls := polls,
         result := p.result.(consumed := consumed))
    }

    ghost predicate Shows(p: Player)
      reads this, list
    {
      Over(p) == p
    }

    constructor (ghost w: World)
      ensures Valid() && (Initial(w) ==> Shows(w.p))
    {
      list, listGen, haveUnfed, status := [], 0, false, Stopped;
      playPending, pausePending, backpressure, submitted := false, false, false, 0;
      drainRequested, polls, consumed := false, 0, 0;
    }

    /** mhi_complete_consumed: marks, from the head on, every buffer the card is done with */
    method CompleteConsumed(drainAll: bool, ghost w: World) returns (notify: bool)
      requires Valid() && Sane(w) && Shows(w.p)
      modifies list
      ensures Valid() && Over(w.p) == Retired(w, drainAll).p
      ensures notify <==> Retired(w, drainAll).p.list != w.p.list
    {
      ghost var before := Values(list);
      var i;
      notify, i := Walk(drainAll);
      WalkResult(before, Values(list), consumed, drainAll, i);
      if !notify {
        assert Values(list) == before;
      }
    }

    /** Its loop, which stops at node i */
    method Walk(drainAll: bool) returns (notify: bool, i: nat)
      requires Valid()
      modifies list
      ensures i <= |list|
      ensures forall j :: 0 <= j < i ==> old(list[j].Value()).played || Consumable(old(list[j].Value()), consumed, drainAll)
      ensures i < |list| ==> !old(list[i].Value()).played && !Consumable(old(list[i].Value()), consumed, drainAll)
      ensures forall j :: 0 <= j < i ==> list[j].Value() == old(list[j].Value()).(played := true)
      ensures forall j :: i <= j < |list| ==> list[j].Value() == old(list[j].Value())
      ensures notify <==> exists j :: 0 <= j < i && !old(list[j].Value()).played
    {
      notify := false;
      ghost var before := Values(list);
      i := 0;
      while i < |list|
        invariant i <= |list| == |before|
        invariant forall j :: 0 <= j < i ==> before[j].played || Consumable(before[j], consumed, drainAll)
        invariant forall j :: 0 <= j < i ==> list[j].Value() == before[j].(played := true)
        invariant forall j :: i <= j < |list| ==> list[j].Value() == before[j]
        invariant notify <==> exists j :: 0 <= j < i && !before[j].played
      {
        var node := list[i];
        assert node.Value() == before[i];
        if !node.played {
          if !Consumable(node.Value(), consumed, drainAll) {
            break;
          }
          assert forall j :: 0 <= j < |list| && j != i ==> before[j].addr != before[i].addr && list[j] != node;
          node.played := true;
          notify := true;
        }
        i := i + 1;
      }
    }

    /** The scan window of mhi_feed_pending: finds the first node with bytes left and publishes
        have_unfed in the same section. */
    method ScanUnfed(ghost w: World) returns (node: ListNode?, gen: nat, index: nat)
      requires Valid() && Shows(w.p)
      modifies this`haveUnfed
      ensures Valid() && Over(w.p) == ScanStep(w).p && gen == listGen
      ensures node == null <==> !AnyUnfed(w.p.list)
      ensures node != null ==>
                node in list && node.Value() == w.p.list[FirstUnfed(w.p.list)] && index == node.index < |node.buffer.data|
    {
      gen, node, index := listGen, null, 0;
      var i := FindUnfed();
      if i < |list| {
        node, index := list[i], list[i].index;
        assert node.Value() == Values(list)[i];
      }
      haveUnfed := node != null;
    }

    /** After it: the chunk, cut to the staging buffer */
    method CutChunk(node: ListNode, gen: nat, index: nat, staging: nat, ghost w: World) returns (chunk: Chunk)
      requires AnyUnfed(w.p.list) && gen == w.p.listGen && staging == StagingBytes(w.p.zorro3)
      requires var n := w.p.list[FirstUnfed(w.p.list)]; n.addr == node.addr && n.buffer == node.buffer && n.index == index
      ensures ScanStep(w).feeder == Stage(chunk)
    {
      var length := |node.buffer.data| - index;
      if length > staging {
        length := staging;
      }
      chunk := Chunk(gen, node.addr, index, length, node.buffer.data[index..index + length]);
    }

    method FindUnfed() returns (i: nat)
      ensures i == FirstUnfed(Values(list))
    {
      i := 0;
      while i < |list| && list[i].index >= |list[i].buffer.data|
        invariant i <= |list|
        invariant forall j :: 0 <= j < i ==> !Values(list)[j].Unfed()
      {
        i := i + 1;
      }
      FirstUnfedIs(Values(list), i);
    }

    /** The window after an accepted FEED */
    method BookChunk(node: ListNode, gen: nat, chunk: nat, ghost w: World)
      requires Valid() && Shows(w.p) && (gen == listGen ==> node in list)
      requires w.feeder.Accepted? && w.feeder.chunk.gen == gen
      requires w.feeder.chunk.addr == node.addr && w.feeder.chunk.length == chunk
      modifies this`drainRequested, this`polls, this`submitted, node
      ensures Valid() && Over(w.p) == BookStep(w).p
      ensures gen != listGen ==> unchanged(this) && unchanged(node)
    {
      if gen == listGen {
        ghost var u :| 0 <= u < |list| && list[u] == node;
        BookedIs(w, u);
        BookNode(node, chunk, u, w.p);
      } else {
        assert BookStep(w).p == w.p;
      }
    }

    method BookNode(node: ListNode, chunk: nat, ghost u: nat, ghost p: Player)
      requires Valid() && p.list == Values(list) && p.submitted == submitted && u < |list| && list[u] == node
      modifies this`drainRequested, this`polls, this`submitted, node
      ensures Valid() && !drainRequested && polls == 0 && submitted == U32(p.submitted + chunk)
      ensures Values(list) == p.list[u := Fed(p.list[u], chunk, submitted)]
    {
      drainRequested, polls := false, 0;
      node.index := node.index + chunk;
      submitted := U32(submitted + chunk);
      if node.index >= |node.buffer.data| {
        node.streamEnd, node.endValid := submitted, true;
      }
    }

    /** The list half of i_MHIStop's window: drain_buffer_list_locked frees node after node */
    method DrainBufferList()
      requires Valid()
      modifies this`list, this`listGen, this`haveUnfed
      ensures Valid() && list == [] && listGen == old(listGen) + 1 && !haveUnfed
    {
      while list != []
        invariant Valid() && listGen == old(listGen)
        decreases |list|
      {
        assert forall i :: 0 <= i < |list| - 1 ==> Values(list[1..])[i] == Values(list)[i + 1];
        list := list[1..];
      }
      listGen := listGen + 1;
      haveUnfed := false;
    }

    /** i_MHIQueueBuffer for a non-empty buffer whose node could be allocated at `addr` */
    method QueueBuffer(addr: nat, buffer: Buffer, ghost w: World)
      requires Valid() && Shows(w.p) && AppEnabled(w, Queue(addr, buffer))
      modifies this`list, this`haveUnfed, this`drainRequested, this`polls, this`status
      ensures Valid() && Over(w.p) == QueueStep(w, addr, buffer).p
    {
      AppendNode(addr, buffer);
      Rearm();
    }

    /** AddTail of a fresh node */
    method AppendNode(addr: nat, buffer: Buffer)
      requires Valid() && forall i :: 0 <= i < |list| ==> list[i].addr != addr
      modifies this`list
      ensures Valid() && Values(list) == old(Values(list)) + [FreshNode(addr, buffer)]
    {
      var node := new ListNode(addr, buffer);
      list := list + [node];
      assert forall i :: 0 <= i < |list| - 1 ==> list[i].Value() == old(Values(list))[i];
    }

    /** There is data again: a drain is off, and playback goes on. */
    method Rearm()
      modifies this`haveUnfed, this`drainRequested, this`polls, this`status
      ensures haveUnfed && !drainRequested && polls == 0
      ensures status == if old(status).OutOfData? then Playing else old(status)
    {
      haveUnfed, drainRequested, polls := true, false, 0;
      if status.OutOfData? {
        status := Playing;
      }
    }

    /** i_MHIGetEmpty: one finished buffer, and only from the head */
    method GetEmpty(ghost w: World) returns (empty: seq<Buffer>)
      requires Valid() && Shows(w.p)
      modifies this`list
      ensures Valid() && Over(w.p) == ReclaimStep(w).p
      ensures ReclaimStep(w).h.returned == w.h.returned + empty
    {
      empty := [];
      if list != [] && list[0].played {
        empty := [list[0].buffer];
        assert forall i :: 0 <= i < |list| - 1 ==> Values(list[1..])[i] == Values(list)[i + 1];
        list := list[1..];
        assert Values(list) == w.p.list[1..];
      }
    }

    /** The whole window of i_MHIStop; the result says whether a session has to be closed */
    method Stop(ghost w: World) returns (wasRunning: bool)
      requires Valid() && Shows(w.p)
      modifies this
      ensures Valid() && Over(w.p) == StopStep(w).p
      ensures wasRunning <==> StopStep(w).control.StopWait?
    {
      wasRunning := !status.Stopped?;
      status, playPending, pausePending := Stopped, false, false;
      DrainBufferList();
      backpressure, drainRequested, polls := false, false, 0;
    }
  }
}
