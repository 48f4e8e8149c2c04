/** Padding a message to whole blocks (section 5.1.1 of FIPS 180-4), and what sha256_final makes of the last
    ones, whatever the block function. */
module Padding {
  import opened BlockFold
  import opened Bytes

  /** FIPS 180-4 section 5.1.1: a one bit, the fewest zeros that leave room, the length in bits. */
  function Pad(message: seq<byte>): (r: seq<byte>)
    requires |message| < 0x2000_0000_0000_0000
    ensures |r| % 64 == 0
  {
    PadLength(|message|);
    message + [0x80] + ZeroBytes((119 - |message| % 64) % 64) + BigEndian64(8 * |message|)
  }

  lemma PadLength(n: nat)
    ensures (n + 1 + (119 - n % 64) % 64 + 8) % 64 == 0
  {
    var q, u := n / 64, n % 64;
    assert n == 64 * q + u;
    if u < 56 {
      assert n + 1 + (55 - u) + 8 == 64 * (q + 1);
    } else {
      assert n + 1 + (119 - u) + 8 == 64 * (q + 2);
    }
  }

  function ZeroBytes(n: nat): (r: seq<byte>)
    ensures |r| == n && forall i :: 0 <= i < n ==> r[i] == 0
  {
    seq(n, _ => 0)
  }

  function BigEndian64(n: nat): (r: seq<byte>)
    requires n < 0x1_0000_0000_0000_0000
    ensures |r| == 8
  {
    [(n / 0x100_0000_0000_0000) % 256, (n / 0x1_0000_0000_0000) % 256,
     (n / 0x100_0000_0000) % 256, (n / 0x1_0000_0000) % 256,
     (n / 0x100_0000) % 256, (n / 0x1_0000) % 256, (n / 0x100) % 256, n % 256]
  }

  const MAX_BITS := 0x1_0000_0000_0000_0000

  lemma LastBlock<H>(f: (H, Block) -> H, initial: H, before: H, rest: seq<byte>, fed: seq<byte>,
                     zeros: seq<byte>, length: seq<byte>, full: Block, padded: seq<byte>)
    requires Buffered(f, initial, before, rest, fed) && full == rest + zeros + length
    requires padded == fed + zeros + length
    ensures f(before, full) == Absorb(f, initial, padded)
  {
    assert full == rest + (zeros + length);
    BufferFolds(f, initial, before, rest, fed, zeros + length, full);
    BufferEmpty(f, initial, f(before, full), fed + (zeros + length));
    assert fed + (zeros + length) == fed + zeros + length;
  }

  lemma FlushedMark<H>(f: (H, Block) -> H, initial: H, before: H, rest: seq<byte>, message: seq<byte>, full: Block)
    returns (fed: seq<byte>)
    requires Buffered(f, initial, before, rest, message) && |message| < 0x2000_0000_0000_0000
    requires 56 <= |rest| && full == rest + [0x80] + ZeroBytes(63 - |rest|)
    ensures Buffered(f, initial, f(before, full), [], fed)
    ensures fed + ZeroBytes(56) + BigEndian64(8 * |message|) == Pad(message)
  {
    var mark: seq<byte>, zeros := [0x80], ZeroBytes(63 - |rest|);
    assert full == rest + (mark + zeros);
    BufferFolds(f, initial, before, rest, message, mark + zeros, full);
    fed := message + (mark + zeros);
    PadLong(message, |rest|);
  }

  lemma PadLong(message: seq<byte>, u: nat)
    requires |message| < 0x2000_0000_0000_0000 && u == |message| % 64 && 56 <= u
    ensures message + ([0x80] + ZeroBytes(63 - u)) + ZeroBytes(56) + BigEndian64(8 * |message|) == Pad(message)
  {
    assert ZeroBytes(63 - u) + ZeroBytes(56) == ZeroBytes(119 - u);
    var a: seq<byte>, z := [0x80], ZeroBytes(63 - u);
    assert message + (a + z) + ZeroBytes(56) == message + a + (z + ZeroBytes(56));
  }

  lemma PadShort(message: seq<byte>, u: nat)
    requires |message| < 0x2000_0000_0000_0000 && u == |message| % 64 && u < 56
    ensures message + [0x80] + ZeroBytes(55 - u) + BigEndian64(8 * |message|) == Pad(message)
  {
    assert (119 - u) % 64 == 55 - u;
  }

  lemma NoWrap(x: nat)
    requires x < MAX_BITS
    ensures x % MAX_BITS == x
  {
  }

  lemma BitsAdd(x: nat, y: nat)
    ensures (x % MAX_BITS + y) % MAX_BITS == (x + y) % MAX_BITS
  {
  }
}
