/** Multicast membership: reference counts in a fixed table, the card's 64-bucket hash filter driven by
    commands, and what a received group frame passes. */
module NetMcast {
  import opened Bitwise
  import opened Bytes

  type Address = a: seq<byte> | |a| == 6 witness [0, 0, 0, 0, 0, 0]

  const TABLE := 32
  const BUCKETS := 64
  const MAX_REFS := 0xffff

  // ---- the hash ----

  function Xor8(p: seq<nat>): nat
    requires |p| == 8
  {
    Xor(Xor(Xor(Xor(Xor(Xor(Xor(p[0], p[1]), p[2]), p[3]), p[4]), p[5]), p[6]), p[7])
  }

  /** The eight terms of zznet_mcast_hash: those overlapping two bytes are put together from disjoint bits */
  function HashTerms(a: Address): (p: seq<nat>)
    ensures |p| == 8
  {
    var b0: nat, b1: nat, b2: nat, b3: nat, b4: nat, b5: nat := a[0], a[1], a[2], a[3], a[4], a[5];
    [b0 % 64, b0 / 64 + b1 % 16 * 4, b1 / 16 + b2 % 4 * 16, b2 / 4,
     b3 % 64, b3 / 64 + b4 % 16 * 4, b4 / 16 + b5 % 4 * 16, b5 / 4]
  }

  function Hash(a: Address): nat { Xor8(HashTerms(a)) }

  /** The 48 bits of an address, first byte lowest */
  function Number(a: Address): nat {
    var b0: nat, b1: nat, b2: nat, b3: nat, b4: nat, b5: nat := a[0], a[1], a[2], a[3], a[4], a[5];
    b0 + 0x100 * b1 + 0x1_0000 * b2 + 0x100_0000 * b3 + 0x1_0000_0000 * b4 + 0x100_0000_0000 * b5
  }

  /** The k-th group of six bits */
  function Piece(n: nat, k: nat): nat
    requires k < 8
  {
    n / Weight(k) % 64
  }

  function Weight(k: nat): (w: nat)
    requires k < 8
    ensures w > 0
  {
    match k
    case 0 => 1
    case 1 => 0x40
    case 2 => 0x1000
    case 3 => 0x4_0000
    case 4 => 0x100_0000
    case 5 => 0x4000_0000
    case 6 => 0x10_0000_0000
    case _ => 0x400_0000_0000
  }

  lemma PieceIs(n: nat, k: nat, high: nat, piece: nat, low: nat)
    requires k < 8 && piece < 64 && low < Weight(k) && n == (high * 64 + piece) * Weight(k) + low
    ensures Piece(n, k) == piece
  {
    Divides(n, Weight(k), high * 64 + piece, low);
  }

  lemma Divides(n: nat, w: nat, q: nat, r: nat)
    requires w > 0 && r < w && n == q * w + r
    ensures n / w == q
  {
    var d := n / w;
    assert n == d * w + n % w;
    assert d < q ==> (d + 1) * w <= q * w;
    assert d > q ==> (q + 1) * w <= d * w;
    assert (d + 1) * w == d * w + w && (q + 1) * w == q * w + w;
  }

  function Pieces(n: nat): (p: seq<nat>)
    ensures |p| == 8
  {
    [Piece(n, 0), Piece(n, 1), Piece(n, 2), Piece(n, 3), Piece(n, 4), Piece(n, 5), Piece(n, 6), Piece(n, 7)]
  }

  lemma TermsArePieces(a: Address)
    ensures HashTerms(a) == Pieces(Number(a)) && forall i :: 0 <= i < 8 ==> HashTerms(a)[i] < 64
  {
    var n := Number(a);
    var b0: nat, b1: nat, b2: nat, b3: nat, b4: nat, b5: nat := a[0], a[1], a[2], a[3], a[4], a[5];
    LowPieces(b0, b1, b2, b3 + 0x100 * b4 + 0x1_0000 * b5, n);
    HighPieces(b0 + 0x100 * b1 + 0x1_0000 * b2, b3, b4, b5, n);
  }

  /** The hash is the exclusive or of the eight six-bit pieces of the address, and a bucket number. */
  lemma HashIsPieces(a: Address)
    ensures Hash(a) == Xor8(Pieces(Number(a))) && Hash(a) < BUCKETS
  {
    TermsArePieces(a);
    PiecesBound(HashTerms(a));
  }

  lemma PiecesBound(p: seq<nat>)
    requires |p| == 8 && forall i :: 0 <= i < 8 ==> p[i] < 64
    ensures Xor8(p) < 64
  {
    SixBits(p[0], p[1]);
    var x1 := Xor(p[0], p[1]);
    SixBits(x1, p[2]);
    var x2 := Xor(x1, p[2]);
    SixBits(x2, p[3]);
    var x3 := Xor(x2, p[3]);
    SixBits(x3, p[4]);
    var x4 := Xor(x3, p[4]);
    SixBits(x4, p[5]);
    var x5 := Xor(x4, p[5]);
    SixBits(x5, p[6]);
    var x6 := Xor(x5, p[6]);
    SixBits(x6, p[7]);
  }

  lemma SixBits(a: nat, b: nat)
    requires a < 64 && b < 64
    ensures Xor(a, b) < 64
  {
    assert Power2(6) == 64 by { assert Power2(3) == 8; }
    XorBound(a, b, 6);
  }

  lemma LowPieces(b0: nat, b1: nat, b2: nat, rest3: nat, n: nat)
    requires b0 < 256 && b1 < 256 && b2 < 256 && n == b0 + 0x100 * b1 + 0x1_0000 * b2 + 0x100_0000 * rest3
    ensures Piece(n, 0) == b0 % 64 && Piece(n, 1) == b0 / 64 + b1 % 16 * 4
    ensures Piece(n, 2) == b1 / 16 + b2 % 4 * 16 && Piece(n, 3) == b2 / 4
  {
    var rest2 := b2 + 0x100 * rest3;
    var rest1 := b1 + 0x100 * rest2;
    PieceIs(n, 0, b0 / 64 + 4 * rest1, b0 % 64, 0);
    PieceIs(n, 1, b1 / 16 + 16 * rest2, b0 / 64 + b1 % 16 * 4, b0 % 64);
    PieceIs(n, 2, b2 / 4 + 64 * rest3, b1 / 16 + b2 % 4 * 16, b0 + 0x100 * (b1 % 16));
    PieceIs(n, 3, rest3, b2 / 4, b0 + 0x100 * b1 + 0x1_0000 * (b2 % 4));
  }

  lemma HighPieces(low: nat, b3: nat, b4: nat, b5: nat, n: nat)
    requires low < 0x100_0000 && b3 < 256 && b4 < 256 && b5 < 256
    requires n == low + 0x100_0000 * b3 + 0x1_0000_0000 * b4 + 0x100_0000_0000 * b5
    ensures Piece(n, 4) == b3 % 64 && Piece(n, 5) == b3 / 64 + b4 % 16 * 4
    ensures Piece(n, 6) == b4 / 16 + b5 % 4 * 16 && Piece(n, 7) == b5 / 4
  {
    PieceIs(n, 4, b3 / 64 + 4 * b4 + 0x400 * b5, b3 % 64, low);
    PieceIs(n, 5, b4 / 16 + 16 * b5, b3 / 64 + b4 % 16 * 4, low + 0x100_0000 * (b3 % 64));
    PieceIs(n, 6, b5 / 4, b4 / 16 + b5 % 4 * 16, low + 0x100_0000 * b3 + 0x1_0000_0000 * (b4 % 16));
    PieceIs(n, 7, 0, b5 / 4, low + 0x100_0000 * b3 + 0x1_0000_0000 * b4 + 0x100_0000_0000 * (b5 % 4));
  }

  // ---- the table ----

  datatype Entry = Entry(addr: Address, refs: nat)

  const FREE := Entry([0, 0, 0, 0, 0, 0], 0)

  predicate Live(e: Entry) { e.refs > 0 }

  /** Live entries are of different addresses, and no count exceeds its 16 bits. */
  predicate Distinct(es: seq<Entry>) {
    && (forall i, j :: 0 <= i < j < |es| && Live(es[i]) && Live(es[j]) ==> es[i].addr != es[j].addr)
    && forall i :: 0 <= i < |es| ==> es[i].refs <= MAX_REFS
  }

  /** The references an address has */
  function Refs(es: seq<Entry>, a: Address): nat {
    if es == [] then 0 else if Live(es[0]) && es[0].addr == a then es[0].refs else Refs(es[1..], a)
  }

  function LiveCount(es: seq<Entry>): nat {
    if es == [] then 0 else (if Live(es[0]) then 1 else 0) + LiveCount(es[1..])
  }

  predicate Member(es: seq<Entry>, a: Address) { exists i :: 0 <= i < |es| && Live(es[i]) && es[i].addr == a }

  predicate BucketUsed(es: seq<Entry>, b: nat) { exists i :: 0 <= i < |es| && Live(es[i]) && Hash(es[i].addr) == b }

  lemma {:induction false} RefsMember(es: seq<Entry>, a: Address)
    ensures Refs(es, a) > 0 <==> Member(es, a)
  {
    if es != [] {
      RefsMember(es[1..], a);
      assert Member(es[1..], a) ==> Member(es, a) by {
        if i :| 0 <= i < |es[1..]| && Live(es[1..][i]) && es[1..][i].addr == a {
          assert es[i + 1] == es[1..][i];
        }
      }
      if i :| 0 <= i < |es| && Live(es[i]) && es[i].addr == a {
        assert i > 0 ==> es[1..][i - 1] == es[i];
      }
    }
  }

  lemma {:induction false} RefsAt(es: seq<Entry>, i: nat)
    requires Distinct(es) && i < |es| && Live(es[i])
    ensures Refs(es, es[i].addr) == es[i].refs
  {
    if i > 0 {
      assert es[1..][i - 1] == es[i];
      RefsAt(es[1..], i - 1);
    }
  }

  /** What changing one entry does to the references of an address it does not concern */
  lemma {:induction false} RefsOthers(es: seq<Entry>, i: nat, e: Entry, a: Address)
    requires i < |es| && (Live(es[i]) ==> es[i].addr != a) && (Live(e) ==> e.addr != a)
    ensures Refs(es[i := e], a) == Refs(es, a)
  {
    if i > 0 {
      assert es[i := e][1..] == es[1..][i - 1 := e];
      RefsOthers(es[1..], i - 1, e, a);
    } else {
      assert es[i := e][1..] == es[1..];
    }
  }

  lemma {:induction false} LiveCountUpdate(es: seq<Entry>, i: nat, e: Entry)
    requires i < |es|
    ensures LiveCount(es[i := e]) == LiveCount(es) - (if Live(es[i]) then 1 else 0) + (if Live(e) then 1 else 0)
    ensures LiveCount(es) <= |es| && (Live(es[i]) ==> LiveCount(es) > 0)
  {
    if i > 0 {
      assert es[i := e][1..] == es[1..][i - 1 := e];
      LiveCountUpdate(es[1..], i - 1, e);
    } else {
      assert es[i := e][1..] == es[1..];
      LiveCountBound(es);
    }
  }

  lemma {:induction false} LiveCountBound(es: seq<Entry>)
    ensures LiveCount(es) <= |es|
  {
    if es != [] {
      LiveCountBound(es[1..]);
    }
  }

  // ---- the card's filter ----

  datatype Command = SetBucket(bucket: nat) | ClearBucket(bucket: nat) | ResetBuckets

  /** The config register: which buckets pass, and whether the card has the filter at all */
  class Card {
    const capable: bool
    var buckets: set<nat>

    constructor (capable: bool, buckets: set<nat>)
      ensures this.capable == capable && this.buckets == buckets
    {
      this.capable, this.buckets := capable, buckets;
    }

    method Write(c: Command)
      modifies this
      ensures buckets == match c
                         case SetBucket(b) => old(buckets) + {b}
                         case ClearBucket(b) => old(buckets) - {b}
                         case ResetBuckets => {}
    {
      match c
      case SetBucket(b) => buckets := buckets + {b};
      case ClearBucket(b) => buckets := buckets - {b};
      case ResetBuckets => buckets := {};
    }
  }

  // ---- joins and leaves ----

  datatype Status = Ok | NoResources | NotSupported | BadState

  /** A join or leave that succeeded */
  datatype Change = Joined(addr: Address) | Left(addr: Address)

  function Balance(history: seq<Change>, a: Address): int {
    if history == [] then 0
    else Balance(history[..|history| - 1], a)
         + match history[|history| - 1]
           case Joined(b) => if b == a then 1 else 0
           case Left(b) => if b == a then -1 else 0
  }

  lemma BalanceNext(history: seq<Change>, c: Change, a: Address)
    ensures Balance(history + [c], a) == Balance(history, a) + if c.addr != a then 0 else if c.Joined? then 1 else -1
  {
    assert (history + [c])[..|history|] == history;
  }

  /** Each address has as many references as successful joins less leaves. */
  ghost predicate Balanced(es: seq<Entry>, history: seq<Change>) {
    forall a: Address :: Refs(es, a) == Balance(history, a)
  }

  ghost predicate Filtered(es: seq<Entry>, buckets: set<nat>) {
    forall b: nat :: b in buckets <==> BucketUsed(es, b)
  }

  lemma BucketsUpdate(es: seq<Entry>, i: nat, e: Entry, b: nat)
    requires i < |es|
    ensures Live(e) ==> BucketUsed(es[i := e], Hash(e.addr))
    ensures !(Live(es[i]) && Hash(es[i].addr) == b) && !(Live(e) && Hash(e.addr) == b) ==>
              (BucketUsed(es[i := e], b) <==> BucketUsed(es, b))
    ensures !Live(es[i]) && BucketUsed(es, b) ==> BucketUsed(es[i := e], b)
    ensures !Live(e) && BucketUsed(es[i := e], b) ==> BucketUsed(es, b)
  {
    var es' := es[i := e];
    assert Live(e) ==> Live(es'[i]) && Hash(es'[i].addr) == Hash(e.addr);
    if j :| 0 <= j < |es| && Live(es[j]) && Hash(es[j].addr) == b {
      assert j != i ==> es'[j] == es[j];
    }
    if j :| 0 <= j < |es'| && Live(es'[j]) && Hash(es'[j].addr) == b {
      assert j != i ==> es'[j] == es[j];
    }
  }

  /** The changes an entry of the table can go through, and what they leave. */
  lemma EntryChanges(es: seq<Entry>, history: seq<Change>, i: nat, e: Entry, c: Change)
    requires i < |es| && Distinct(es) && Balanced(es, history)
    requires e.refs <= MAX_REFS && (Live(e) ==> e.addr == c.addr) && (Live(es[i]) ==> es[i].addr == c.addr)
    requires Live(es[i]) || !Member(es, c.addr)
    requires c.Joined? ==> e.refs == es[i].refs + 1
    requires c.Left? ==> es[i].refs == e.refs + 1
    ensures Distinct(es[i := e]) && Balanced(es[i := e], history + [c])
    ensures LiveCount(es[i := e]) == LiveCount(es) - (if Live(es[i]) then 1 else 0) + (if Live(e) then 1 else 0)
    ensures LiveCount(es) <= |es| && (Live(es[i]) ==> LiveCount(es) > 0)
  {
    var es' := es[i := e];
    LiveCountUpdate(es, i, e);
    forall j | 0 <= j < |es| && j != i && Live(es[j]) ensures es[j].addr != c.addr {
    }
    forall a: Address ensures Refs(es', a) == Balance(history + [c], a) {
      BalanceNext(history, c, a);
      if a != c.addr {
        RefsOthers(es, i, e, a);
      } else {
        RefsMember(es, a);
        RefsMember(es', a);
        if Live(es[i]) {
          RefsAt(es, i);
        }
        if Live(e) {
          RefsAt(es', i);
        }
      }
    }
  }

  // ---- the table as the driver keeps it ----

  /** struct zznet_mcast, with the card it drives; history since the last reset */
  class Membership {
    const entries: array<Entry>
    const card: Card
    var count: nat
    ghost var history: seq<Change>

    ghost predicate Valid()
      reads this, entries, card
    {
      && entries.Length == TABLE && Distinct(entries[..]) && Balanced(entries[..], history)
      && count == LiveCount(entries[..])
      && (card.capable ==> Filtered(entries[..], card.buckets)) && (!card.capable ==> count == 0)
    }

    /** zznet_mcast_reset on a table in any state, as at first open */
    constructor (card: Card)
      modifies card
      ensures Valid() && fresh(entries) && history == [] && this.card == card
    {
      this.card, count, history := card, 0, [];
      entries := new Entry[TABLE](_ => FREE);
      new;
      if card.capable {
        card.Write(ResetBuckets);
      }
      AllFree(entries[..]);
    }

    /** The first loop of zznet_mcast_update: the live entry of the address, or the first free one */
    method Lookup(addr: Address) returns (slot: int, free: int)
      requires Valid()
      ensures -1 <= slot < TABLE && -1 <= free < TABLE
      ensures slot >= 0 ==> Live(entries[slot]) && entries[slot].addr == addr
      ensures slot < 0 ==> !Member(entries[..], addr)
      ensures free >= 0 ==> !Live(entries[free])
      ensures slot < 0 && free < 0 ==> forall i :: 0 <= i < TABLE ==> Live(entries[i])
    {
      slot, free := -1, -1;
      for i := 0 to TABLE
        invariant slot == -1 && -1 <= free < TABLE
        invariant forall j :: 0 <= j < i && Live(entries[j]) ==> entries[j].addr != addr
        invariant free >= 0 ==> !Live(entries[free])
        invariant free < 0 ==> forall j :: 0 <= j < i ==> Live(entries[j])
      {
        if !Live(entries[i]) {
          if free < 0 {
            free := i;
          }
        } else if entries[i].addr == addr {
          slot := i;
          return;
        }
      }
    }

    /** zznet_mcast_bucket_used */
    method CheckBucket(bucket: nat) returns (used: bool)
      requires entries.Length == TABLE
      ensures used == BucketUsed(entries[..], bucket)
    {
      for i := 0 to TABLE
        invariant forall j :: 0 <= j < i ==> !(Live(entries[j]) && Hash(entries[j].addr) == bucket)
      {
        if Live(entries[i]) && Hash(entries[i].addr) == bucket {
          assert entries[..][i] == entries[i];
          return true;
        }
      }
      return false;
    }

    /** zznet_mcast_update, joining */
    method Join(addr: Address) returns (status: Status)
      requires Valid()
      modifies this, entries, card
      ensures Valid()
      ensures status.Ok? ==> history == old(history) + [Joined(addr)] && card.capable
      ensures !status.Ok? ==> history == old(history) && entries[..] == old(entries[..]) && card.buckets == old(card.buckets)
      ensures status.NotSupported? <==> !card.capable && !old(Member(entries[..], addr))
      ensures status.NoResources? <==>
                if old(Member(entries[..], addr)) then old(Refs(entries[..], addr)) == MAX_REFS
                else old(forall i :: 0 <= i < TABLE ==> Live(entries[i]))
    {
      ghost var before := entries[..];
      var slot, free := Lookup(addr);
      RefsMember(before, addr);
      if slot >= 0 {
        RefsAt(before, slot);
        if entries[slot].refs == MAX_REFS {
          return NoResources;
        }
        var more := Entry(addr, entries[slot].refs + 1);
        SetEntry(slot, more, Joined(addr));
        SameLiveFilters(before, slot, more, card.buckets);
        return Ok;
      }
      if free < 0 {
        SomeLive(before);
        return NoResources;
      }
      if count == 0 && !card.capable {
        return NotSupported;
      }
      assert card.capable;
      AddMember(free, addr);
      return Ok;
    }

    /** A first join: take the free entry, and program the bucket unless a member uses it already */
    method AddMember(free: nat, addr: Address)
      requires Valid() && free < TABLE && !Live(entries[free]) && !Member(entries[..], addr) && card.capable
      modifies this, entries, card
      ensures Valid() && history == old(history) + [Joined(addr)]
    {
      ghost var before := entries[..];
      var bucket := Hash(addr);
      var used := CheckBucket(bucket);
      SetEntry(free, Entry(addr, 1), Joined(addr));
      count := count + 1;
      if !used {
        card.Write(SetBucket(bucket));
      }
      JoinFilters(before, free, addr, old(card.buckets), card.buckets);
    }

    /** An entry changes by one join or leave */
    method SetEntry(i: nat, e: Entry, ghost c: Change)
      requires entries.Length == TABLE && i < TABLE && Distinct(entries[..]) && Balanced(entries[..], history)
      requires e.refs <= MAX_REFS && (Live(e) ==> e.addr == c.addr) && (Live(entries[i]) ==> entries[i].addr == c.addr)
      requires Live(entries[i]) || !Member(entries[..], c.addr)
      requires c.Joined? ==> e.refs == entries[i].refs + 1
      requires c.Left? ==> entries[i].refs == e.refs + 1
      modifies this`history, entries
      ensures entries[..] == old(entries[..])[i := e] && history == old(history) + [c]
      ensures Distinct(entries[..]) && Balanced(entries[..], history)
      ensures LiveCount(entries[..]) == old(LiveCount(entries[..]) - (if Live(entries[i]) then 1 else 0)) + (if Live(e) then 1 else 0)
      ensures old(LiveCount(entries[..])) <= TABLE && (old(Live(entries[i])) ==> old(LiveCount(entries[..])) > 0)
    {
      EntryChanges(entries[..], history, i, e, c);
      ghost var before := entries[..];
      entries[i] := e;
      assert entries[..] == before[i := e];
      history := history + [c];
    }

    /** zznet_mcast_update, leaving */
    method Leave(addr: Address) returns (status: Status)
      requires Valid()
      modifies this, entries, card
      ensures Valid()
      ensures status == if old(Member(entries[..], addr)) then Ok else BadState
      ensures history == old(history) + if status.Ok? then [Left(addr)] else []
      ensures status.BadState? ==> entries[..] == old(entries[..]) && card.buckets == old(card.buckets)
    {
      ghost var before := entries[..];
      var slot, _ := Lookup(addr);
      if slot < 0 {
        return BadState;
      }
      assert before[slot] == entries[slot];
      var refs := entries[slot].refs - 1;
      if refs > 0 {
        SetEntry(slot, Entry(addr, refs), Left(addr));
        SameLiveFilters(before, slot, Entry(addr, refs), card.buckets);
        return Ok;
      }
      SetEntry(slot, FREE, Left(addr));
      count := count - 1;
      var bucket := Hash(addr);
      var used := CheckBucket(bucket);
      if !used {
        card.Write(ClearBucket(bucket));
      }
      LeaveFilters(before, slot, addr, old(card.buckets), card.buckets);
      return Ok;
    }

    /** Whether a frame for the address reaches a reader: the card's filter for group frames, then the
        exact table (zznet_mcast_rx_plan) */
    method Delivered(dst: Address) returns (passes: bool, selected: bool)
      requires Valid()
      ensures Group(dst) && dst != BROADCAST ==>
                (selected <==> Balance(history, dst) > 0) && (card.capable && selected ==> passes)
      ensures !Group(dst) || dst == BROADCAST ==> selected
    {
      ghost var es := entries[..];
      passes := Hash(dst) in card.buckets;
      if !Group(dst) || dst == BROADCAST {
        return passes, true;
      }
      var slot, _ := Lookup(dst);
      selected := slot >= 0;
      RefsMember(es, dst);
      if selected {
        assert es[slot] == entries[slot];
        assert BucketUsed(es, Hash(dst));
      }
    }
  }

  const BROADCAST: Address := [255, 255, 255, 255, 255, 255]

  /** The group bit of an address */
  predicate Group(a: Address) { (a[0] as int) % 2 == 1 }

  lemma {:induction false} AllFree(es: seq<Entry>)
    requires forall i :: 0 <= i < |es| ==> es[i] == FREE
    ensures Distinct(es) && Balanced(es, []) && LiveCount(es) == 0 && forall b: nat :: !BucketUsed(es, b)
  {
    forall a: Address ensures Refs(es, a) == 0 {
      RefsMember(es, a);
    }
    NoneLive(es);
  }

  lemma {:induction false} NoneLive(es: seq<Entry>)
    requires forall i :: 0 <= i < |es| ==> !Live(es[i])
    ensures LiveCount(es) == 0
  {
    if es != [] {
      NoneLive(es[1..]);
    }
  }

  lemma SomeLive(es: seq<Entry>)
    requires es != [] && Live(es[0])
    ensures LiveCount(es) > 0
  {
  }

  lemma JoinFilters(es: seq<Entry>, i: nat, addr: Address, before: set<nat>, after: set<nat>)
    requires i < |es| && !Live(es[i]) && Filtered(es, before)
    requires after == if BucketUsed(es, Hash(addr)) then before else before + {Hash(addr)}
    ensures Filtered(es[i := Entry(addr, 1)], after)
  {
    var e := Entry(addr, 1);
    forall b: nat ensures b in after <==> BucketUsed(es[i := e], b) {
      BucketsUpdate(es, i, e, b);
    }
  }

  lemma LeaveFilters(es: seq<Entry>, i: nat, addr: Address, before: set<nat>, after: set<nat>)
    requires i < |es| && Live(es[i]) && es[i].addr == addr && Filtered(es, before)
    requires after == if BucketUsed(es[i := FREE], Hash(addr)) then before else before - {Hash(addr)}
    ensures Filtered(es[i := FREE], after)
  {
    forall b: nat ensures b in after <==> BucketUsed(es[i := FREE], b) {
      BucketsUpdate(es, i, FREE, b);
      assert b == Hash(addr) ==> BucketUsed(es, b);
    }
  }

  lemma SameLiveFilters(es: seq<Entry>, i: nat, e: Entry, buckets: set<nat>)
    requires i < |es| && Live(es[i]) && Live(e) && e.addr == es[i].addr && Filtered(es, buckets)
    ensures Filtered(es[i := e], buckets)
  {
    forall b: nat ensures b in buckets <==> BucketUsed(es[i := e], b) {
      BucketsUpdate(es, i, e, b);
      assert b == Hash(e.addr) ==> BucketUsed(es, b);
    }
  }
}
