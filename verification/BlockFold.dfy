/** Folding a function over the 64-byte blocks of a message: the shape of every Merkle-Damgard
    hash, whatever its compression function. */
module BlockFold {
  import opened Bytes

  type Block = b: seq<byte> | |b| == 64 witness seq(64, _ => 0)

  /** All the whole blocks of a message, in order. */
  function Absorb<H>(f: (H, Block) -> H, h: H, message: seq<byte>): H
    decreases |message|
  {
    if |message| < 64 then h else Absorb(f, f(h, message[..64]), message[64..])
  }

  lemma {:induction false} AbsorbAppends<H>(f: (H, Block) -> H, h: H, a: seq<byte>, b: seq<byte>)
    requires |a| % 64 == 0
    ensures Absorb(f, h, a + b) == Absorb(f, Absorb(f, h, a), b)
    decreases |a|
  {
    if a == [] {
      assert a + b == b;
    } else {
      assert (a + b)[..64] == a[..64] && (a + b)[64..] == a[64..] + b;
      AbsorbAppends(f, f(h, a[..64]), a[64..], b);
    }
  }

  lemma AbsorbBlock<H>(f: (H, Block) -> H, h: H, a: seq<byte>, block: Block)
    requires |a| % 64 == 0
    ensures Absorb(f, h, a + block) == f(Absorb(f, h, a), block)
  {
    AbsorbAppends(f, h, a, block);
    assert block[..64] == block && block[64..] == [];
  }

  /** What an incremental fold has seen: whole blocks already folded in, and a rest shorter than a block. */
  ghost predicate Buffered<H>(f: (H, Block) -> H, initial: H, state: H, rest: seq<byte>, message: seq<byte>) {
    && |rest| < 64 && |rest| <= |message|
    && (|message| - |rest|) % 64 == 0
    && rest == message[|message| - |rest|..]
    && state == Absorb(f, initial, message[..|message| - |rest|])
  }

  lemma BufferGrows<H>(f: (H, Block) -> H, initial: H, state: H, rest: seq<byte>, message: seq<byte>,
                       more: seq<byte>, grown: seq<byte>)
    requires Buffered(f, initial, state, rest, message) && grown == rest + more && |grown| < 64
    ensures Buffered(f, initial, state, grown, message + more)
  {
    var n := |message| - |rest|;
    assert (message + more)[..n] == message[..n];
  }

  lemma BufferFolds<H>(f: (H, Block) -> H, initial: H, state: H, rest: seq<byte>, message: seq<byte>,
                       more: seq<byte>, full: Block)
    requires Buffered(f, initial, state, rest, message) && full == rest + more
    ensures Buffered(f, initial, f(state, full), [], message + more)
  {
    var n := |message| - |rest|;
    AbsorbBlock(f, initial, message[..n], full);
    assert message == message[..n] + rest;
    assert message + more == message[..n] + full;
    assert (message + more)[..|message + more|] == message + more;
  }

  /** With nothing buffered, the state is the fold of the whole message. */
  lemma BufferEmpty<H>(f: (H, Block) -> H, initial: H, state: H, message: seq<byte>)
    requires Buffered(f, initial, state, [], message)
    ensures state == Absorb(f, initial, message)
  {
    assert message[..|message|] == message;
  }
}
