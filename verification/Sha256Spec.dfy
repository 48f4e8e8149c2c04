/** SHA-256 as FIPS 180-4 defines it: sections 4.1.2, 5.1.1, 5.3.3 and 6.2. */
module Sha256Spec {
  import opened BlockFold
  import opened Bytes
  import opened Padding
  import opened Words

  /** The eight working variables, or the eight words of a hash value. */
  datatype Hash = Hash(a: Word, b: Word, c: Word, d: Word, e: Word, f: Word, g: Word, h: Word)

  const ROUNDS := 64

  /** Section 5.3.3. */
  function Initial(): Hash {
    Hash(Literal(0x6a09e667), Literal(0xbb67ae85), Literal(0x3c6ef372), Literal(0xa54ff53a),
         Literal(0x510e527f), Literal(0x9b05688c), Literal(0x1f83d9ab), Literal(0x5be0cd19))
  }

  /** The round constants, section 4.2.2. */
  function K(t: nat): nat
    requires t < ROUNDS
  {
    if t < 8 then
      Pick(t, 0x428a2f98, 0x71374491, 0xb5c0fbcf, 0xe9b5dba5,
          0x3956c25b, 0x59f111f1, 0x923f82a4, 0xab1c5ed5)
    else if t < 16 then
      Pick(t - 8, 0xd807aa98, 0x12835b01, 0x243185be, 0x550c7dc3,
          0x72be5d74, 0x80deb1fe, 0x9bdc06a7, 0xc19bf174)
    else if t < 24 then
      Pick(t - 16, 0xe49b69c1, 0xefbe4786, 0x0fc19dc6, 0x240ca1cc,
          0x2de92c6f, 0x4a7484aa, 0x5cb0a9dc, 0x76f988da)
    else if t < 32 then
      Pick(t - 24, 0x983e5152, 0xa831c66d, 0xb00327c8, 0xbf597fc7,
          0xc6e00bf3, 0xd5a79147, 0x06ca6351, 0x14292967)
    else if t < 40 then
      Pick(t - 32, 0x27b70a85, 0x2e1b2138, 0x4d2c6dfc, 0x53380d13,
          0x650a7354, 0x766a0abb, 0x81c2c92e, 0x92722c85)
    else if t < 48 then
      Pick(t - 40, 0xa2bfe8a1, 0xa81a664b, 0xc24b8b70, 0xc76c51a3,
          0xd192e819, 0xd6990624, 0xf40e3585, 0x106aa070)
    else if t < 56 then
      Pick(t - 48, 0x19a4c116, 0x1e376c08, 0x2748774c, 0x34b0bcb5,
          0x391c0cb3, 0x4ed8aa4a, 0x5b9cca4f, 0x682e6ff3)
    else
      Pick(t - 56, 0x748f82ee, 0x78a5636f, 0x84c87814, 0x8cc70208,
          0x90befffa, 0xa4506ceb, 0xbef9a3f7, 0xc67178f2)
  }

  function Pick(i: nat, c0: nat, c1: nat, c2: nat, c3: nat, c4: nat, c5: nat, c6: nat, c7: nat): nat {
    if i == 0 then c0 else if i == 1 then c1 else if i == 2 then c2 else if i == 3 then c3
    else if i == 4 then c4 else if i == 5 then c5 else if i == 6 then c6 else c7
  }

  function Ch(x: Word, y: Word, z: Word): Word { Xor(And(x, y), And(Not(x), z)) }

  function Maj(x: Word, y: Word, z: Word): Word { Xor(Xor(And(x, y), And(x, z)), And(y, z)) }

  function BigSigma0(x: Word): Word { Xor(Xor(RotateRight(x, 2), RotateRight(x, 13)), RotateRight(x, 22)) }

  function BigSigma1(x: Word): Word { Xor(Xor(RotateRight(x, 6), RotateRight(x, 11)), RotateRight(x, 25)) }

  function SmallSigma0(x: Word): Word { Xor(Xor(RotateRight(x, 7), RotateRight(x, 18)), Down(x, 3)) }

  function SmallSigma1(x: Word): Word { Xor(Xor(RotateRight(x, 17), RotateRight(x, 19)), Down(x, 10)) }

  /** The t-th big-endian word of a message block. */
  function MessageWord(block: Block, t: nat): Word
    requires t < 16
  {
    Octet(block[4 * t + 3]) + Octet(block[4 * t + 2]) + Octet(block[4 * t + 1]) + Octet(block[4 * t])
  }

  /** The message schedule. */
  function Schedule(block: Block, t: nat): Word
    decreases t
  {
    if t < 16 then MessageWord(block, t)
    else Add(Add(Add(SmallSigma1(Schedule(block, t - 2)), Schedule(block, t - 7)),
                 SmallSigma0(Schedule(block, t - 15))), Schedule(block, t - 16))
  }

  function Round(v: Hash, k: Word, w: Word): Hash {
    var t1 := Add(Add(Add(Add(v.h, BigSigma1(v.e)), Ch(v.e, v.f, v.g)), k), w);
    var t2 := Add(BigSigma0(v.a), Maj(v.a, v.b, v.c));
    Hash(Add(t1, t2), v.a, v.b, v.c, Add(v.d, t1), v.e, v.f, v.g)
  }

  /** The working variables after the first t rounds. */
  function Rounds(v: Hash, block: Block, t: nat): Hash
    requires t <= ROUNDS
    decreases t, |block|
  {
    if t == 0 then v else Round(Rounds(v, block, t - 1), Literal(K(t - 1)), Schedule(block, t - 1))
  }

  function AddHash(x: Hash, y: Hash): Hash {
    Hash(Add(x.a, y.a), Add(x.b, y.b), Add(x.c, y.c), Add(x.d, y.d),
         Add(x.e, y.e), Add(x.f, y.f), Add(x.g, y.g), Add(x.h, y.h))
  }

  /** The next hash value, section 6.2.2. */
  function Compress(h: Hash, block: Block): Hash {
    AddHash(h, Rounds(h, block, ROUNDS))
  }

  function BigEndian32(w: Word): (r: seq<byte>)
    ensures |r| == 4
  {
    [ByteAt(w, 24), ByteAt(w, 16), ByteAt(w, 8), ByteAt(w, 0)]
  }

  /** The byte that starts at a given bit. */
  function ByteAt(w: Word, i: nat): byte
    requires i <= 24
  {
    BitsOfNumber(w[i..i + 8]);
    assert Pow2(8) == 256;
    Number(w[i..i + 8])
  }

  function HashBytes(h: Hash): (r: seq<byte>)
    ensures |r| == 32
  {
    BigEndian32(h.a) + BigEndian32(h.b) + BigEndian32(h.c) + BigEndian32(h.d)
    + BigEndian32(h.e) + BigEndian32(h.f) + BigEndian32(h.g) + BigEndian32(h.h)
  }

  function Digest(message: seq<byte>): (r: seq<byte>)
    requires |message| < 0x2000_0000_0000_0000
    ensures |r| == 32
  {
    HashBytes(Absorb(Compress, Initial(), Pad(message)))
  }
}
