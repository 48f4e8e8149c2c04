/** The buffer list of one MHI decoder as a value, and what each of the driver's short
    Forbid() sections does to it.  The driver's `ListNode` is a memory block whose address
    can be handed out again once it has been freed, so a node carries its address. */
module MhiBuffers {

  const WRAP := 0x1_0000_0000
  const HALF := 0x8000_0000

  /** The value an unsigned 32-bit field holds after a computation. */
  function U32(x: int): (r: nat)
    ensures r < WRAP && (0 <= x < WRAP ==> r == x)
  {
    x % WRAP
  }

  /** The driver's (LONG) cast of an unsigned 32-bit value. */
  function Signed32(x: nat): int
    requires x < WRAP
  {
    if x < HALF then x else x - WRAP
  }

  /** Two counters kept modulo 2^32 still compare correctly while they are less than 2^31 apart. */
  lemma SignedDistanceDecides(a: nat, b: nat)
    requires a - b < HALF && b - a < HALF
    ensures Signed32(U32(U32(a) - U32(b))) < 0 <==> a < b
  {
    assert U32(U32(a) - U32(b)) == U32(a - b);
  }

  /** An application buffer: its pointer and the bytes found there. */
  datatype Buffer = Buffer(pointer: nat, data: seq<bv8>)

  datatype Node = Node(addr: nat, buffer: Buffer, index: nat, streamEnd: nat, endValid: bool, played: bool) {
    function Size(): nat { |buffer.data| }

    predicate Unfed() { index < Size() }
  }

  function FreshNode(addr: nat, buffer: Buffer): Node {
    Node(addr, buffer, 0, 0, false, false)
  }

  /** Position of the first node that still has bytes to feed; |list| when there is none. */
  function FirstUnfed(list: seq<Node>): (i: nat)
    ensures i <= |list|
    ensures i < |list| ==> list[i].Unfed()
    ensures forall j :: 0 <= j < i ==> !list[j].Unfed()
  {
    if list == [] || list[0].Unfed() then 0 else 1 + FirstUnfed(list[1..])
  }

  predicate AnyUnfed(list: seq<Node>) {
    FirstUnfed(list) < |list|
  }

  /** Nothing but the end of the list being appended to, or its head removed, moves the first unfed node. */
  lemma FirstUnfedIs(list: seq<Node>, i: nat)
    requires i <= |list|
    requires i < |list| ==> list[i].Unfed()
    requires forall j :: 0 <= j < i ==> !list[j].Unfed()
    ensures FirstUnfed(list) == i
  {
    if FirstUnfed(list) < i {
      assert false;
    }
    if i < FirstUnfed(list) {
      assert false;
    }
  }

  /** May this node be given back to the application? */
  predicate Consumable(n: Node, consumed: nat, drainAll: bool)
    requires consumed < WRAP && n.streamEnd < WRAP
  {
    !n.Unfed() && n.endValid && (drainAll || Signed32(U32(consumed - n.streamEnd)) >= 0)
  }

  predicate Words(list: seq<Node>) {
    forall i :: 0 <= i < |list| ==> list[i].streamEnd < WRAP
  }

  /** How far the walk of mhi_complete_consumed gets: it passes over nodes that are already played
      and stops at the first other node that the card is not done with. */
  function Reach(list: seq<Node>, consumed: nat, drainAll: bool): (i: nat)
    requires consumed < WRAP && Words(list)
    ensures i <= |list|
    ensures i < |list| ==> !list[i].played && !Consumable(list[i], consumed, drainAll)
    ensures forall j :: 0 <= j < i ==> list[j].played || Consumable(list[j], consumed, drainAll)
  {
    if list == [] || (!list[0].played && !Consumable(list[0], consumed, drainAll)) then 0
    else 1 + Reach(list[1..], consumed, drainAll)
  }

  lemma {:induction false} ReachIs(list: seq<Node>, consumed: nat, drainAll: bool, k: nat)
    requires consumed < WRAP && Words(list) && k <= |list|
    requires forall j :: 0 <= j < k ==> list[j].played || Consumable(list[j], consumed, drainAll)
    requires k < |list| ==> !list[k].played && !Consumable(list[k], consumed, drainAll)
    ensures Reach(list, consumed, drainAll) == k
  {
    var r := Reach(list, consumed, drainAll);
    assert !(r < k) && !(k < r);
  }

  /** The list with its first k nodes marked played. */
  function MarkPlayed(list: seq<Node>, k: nat): (r: seq<Node>)
    requires k <= |list|
    ensures |r| == |list|
    ensures forall i :: 0 <= i < |list| ==> r[i] == if i < k then list[i].(played := true) else list[i]
  {
    seq(|list|, i requires 0 <= i < |list| => if i < k then list[i].(played := true) else list[i])
  }

  function Complete(list: seq<Node>, consumed: nat, drainAll: bool): seq<Node>
    requires consumed < WRAP && Words(list)
  {
    MarkPlayed(list, Reach(list, consumed, drainAll))
  }

  /** What an accepted chunk does to the node it came from. */
  function Fed(n: Node, chunk: nat, submitted: nat): Node
    requires submitted < WRAP
  {
    var m := n.(index := n.index + chunk);
    if m.Unfed() then m else m.(streamEnd := submitted, endValid := true)
  }

  // ---- the byte stream behind a list ----

  function Flatten(buffers: seq<Buffer>): seq<bv8> {
    if buffers == [] then [] else buffers[0].data + Flatten(buffers[1..])
  }

  lemma {:induction false} FlattenAppends(a: seq<Buffer>, b: seq<Buffer>)
    ensures Flatten(a + b) == Flatten(a) + Flatten(b)
  {
    if a == [] {
      assert a + b == b;
    } else {
      assert (a + b)[0] == a[0] && (a + b)[1..] == a[1..] + b;
      FlattenAppends(a[1..], b);
    }
  }

  function Buffers(list: seq<Node>): (r: seq<Buffer>)
    ensures |r| == |list| && forall i :: 0 <= i < |list| ==> r[i] == list[i].buffer
  {
    seq(|list|, i requires 0 <= i < |list| => list[i].buffer)
  }

  function QueuedBytes(list: seq<Node>): nat {
    if list == [] then 0 else list[0].Size() + QueuedBytes(list[1..])
  }

  function FedBytes(list: seq<Node>): nat {
    if list == [] then 0 else list[0].index + FedBytes(list[1..])
  }

  lemma {:induction false} QueuedBytesSplit(a: seq<Node>, b: seq<Node>)
    ensures QueuedBytes(a + b) == QueuedBytes(a) + QueuedBytes(b)
    ensures FedBytes(a + b) == FedBytes(a) + FedBytes(b)
  {
    if a == [] {
      assert a + b == b;
    } else {
      assert (a + b)[0] == a[0] && (a + b)[1..] == a[1..] + b;
      QueuedBytesSplit(a[1..], b);
    }
  }

  lemma {:induction false} QueuedBytesLength(list: seq<Node>)
    ensures |Flatten(Buffers(list))| == QueuedBytes(list)
  {
    if list != [] {
      assert Buffers(list)[1..] == Buffers(list[1..]);
      QueuedBytesLength(list[1..]);
    }
  }

  /** Bytes are fed in queue order: everything before the first unfed node is complete,
      nothing after it has been touched. */
  ghost predicate Fifo(list: seq<Node>) {
    forall i :: 0 <= i < |list| ==>
      && list[i].index <= list[i].Size()
      && (FirstUnfed(list) < i ==> list[i].index == 0)
  }

  lemma {:induction false} FedPosition(list: seq<Node>)
    requires Fifo(list)
    ensures var u := FirstUnfed(list);
            FedBytes(list) == QueuedBytes(list[..u]) + if u < |list| then list[u].index else 0
  {
    var u := FirstUnfed(list);
    if list != [] {
      if u == 0 {
        NothingFed(list[1..]);
        assert list[..0] == [];
      } else {
        assert FirstUnfed(list[1..]) == u - 1;
        assert Fifo(list[1..]) by {
          forall i | 0 <= i < |list[1..]|
            ensures list[1..][i].index <= list[1..][i].Size()
            ensures FirstUnfed(list[1..]) < i ==> list[1..][i].index == 0
          {
            assert list[1..][i] == list[i + 1];
          }
        }
        FedPosition(list[1..]);
        assert list[..u][0] == list[0] && list[..u][1..] == list[1..][..u - 1];
      }
    }
  }

  lemma {:induction false} NothingFed(list: seq<Node>)
    requires forall i :: 0 <= i < |list| ==> list[i].index == 0
    ensures FedBytes(list) == 0
  {
    if list != [] {
      NothingFed(list[1..]);
    }
  }
}
