/** The buffered SHA-256 of the release reader, refined to Sha256Spec. */
module Sha256 {
  import opened BlockFold
  import opened Bytes
  import opened Padding
  import opened Sha256Spec
  import opened Words

  /** sha256_rotr: two shifts and an or */
  function Rotr(x: Word, n: nat): (r: Word)
    requires n <= 32
    ensures r == RotateRight(x, n)
  {
    ShiftsRotate(x, n);
    Or(Down(x, n), Up(x, 32 - n))
  }

  /** Four bytes assembled by shifts and ors, most significant first. */
  function Assemble(b0: byte, b1: byte, b2: byte, b3: byte): (r: Word)
    ensures r == Octet(b3) + Octet(b2) + Octet(b1) + Octet(b0)
  {
    OrsConcatenate(Octet(b0), Octet(b1), Octet(b2), Octet(b3));
    Or(Or(Or(Up(Wide(b0), 24), Up(Wide(b1), 16)), Up(Wide(b2), 8)), Wide(b3))
  }

  lemma OrsConcatenate(b0: seq<bool>, b1: seq<bool>, b2: seq<bool>, b3: seq<bool>)
    requires |b0| == |b1| == |b2| == |b3| == 8
    ensures Or(Or(Or(Up(b0 + Zeros(24), 24), Up(b1 + Zeros(24), 16)), Up(b2 + Zeros(24), 8)), b3 + Zeros(24))
         == b3 + b2 + b1 + b0
  {
    assert Up(b0 + Zeros(24), 24) == Zeros(24) + b0;
    assert Up(b1 + Zeros(24), 16) == Zeros(16) + b1 + Zeros(8);
    assert Up(b2 + Zeros(24), 8) == Zeros(8) + b2 + Zeros(16);
    var two := Zeros(16) + b1 + b0;
    assert Or(Zeros(24) + b0, Zeros(16) + b1 + Zeros(8)) == two;
    var three := Zeros(8) + b2 + b1 + b0;
    assert Or(two, Zeros(8) + b2 + Zeros(16)) == three;
    assert Or(three, b3 + Zeros(24)) == b3 + b2 + b1 + b0;
  }

  /** One more word of the schedule, with the operators of sha256_block and in its order. */
  method NextWord(block: Block, i: nat, w16: Word, w15: Word, w7: Word, w2: Word) returns (r: Word)
    requires 16 <= i && w16 == Schedule(block, i - 16) && w15 == Schedule(block, i - 15)
    requires w7 == Schedule(block, i - 7) && w2 == Schedule(block, i - 2)
    ensures r == Schedule(block, i)
  {
    var s0 := Xor(Xor(Rotr(w15, 7), Rotr(w15, 18)), Down(w15, 3));
    var s1 := Xor(Xor(Rotr(w2, 17), Rotr(w2, 19)), Down(w2, 10));
    AddReorders(w16, s0, w7, s1);
    r := Add(Add(Add(w16, s0), w7), s1);
  }

  ghost predicate Scheduled(block: Block, w: seq<Word>) {
    forall t {:trigger w[t]} :: 0 <= t < |w| ==> w[t] == Schedule(block, t)
  }

  lemma ScheduleGrows(block: Block, w: seq<Word>, next: Word)
    requires Scheduled(block, w) && next == Schedule(block, |w|)
    ensures Scheduled(block, w + [next])
  {
  }

  method FirstWords(block: Block, w: array<Word>)
    requires w.Length == 64
    modifies w
    ensures Scheduled(block, w[..16])
  {
    for i := 0 to 16
      invariant Scheduled(block, w[..i])
    {
      var word := Assemble(block[4 * i], block[4 * i + 1], block[4 * i + 2], block[4 * i + 3]);
      ScheduleGrows(block, w[..i], word);
      w[i] := word;
      assert w[..i + 1] == w[..i] + [word];
    }
  }

  method FillWord(block: Block, w: array<Word>, i: nat)
    requires w.Length == 64 && 16 <= i < 64 && Scheduled(block, w[..i])
    modifies w
    ensures Scheduled(block, w[..i + 1])
  {
    ghost var done := w[..i];
    var w16, w15, w7, w2 := w[i - 16], w[i - 15], w[i - 7], w[i - 2];
    assert w16 == done[i - 16] && w15 == done[i - 15] && w7 == done[i - 7] && w2 == done[i - 2];
    var next := NextWord(block, i, w16, w15, w7, w2);
    ScheduleGrows(block, done, next);
    w[i] := next;
    assert w[..i + 1] == done + [next];
  }

  method Expand(block: Block) returns (w: array<Word>)
    ensures fresh(w) && w.Length == 64
    ensures Scheduled(block, w[..])
  {
    w := new Word[64];
    FirstWords(block, w);
    for i := 16 to 64
      invariant Scheduled(block, w[..i])
    {
      FillWord(block, w, i);
    }
    assert w[..64] == w[..];
  }

  /** sha256_block */
  method HashBlock(state: Hash, block: Block) returns (next: Hash)
    ensures next == Compress(state, block)
  {
    var w := Expand(block);
    var v := RunRounds(state, block, w[..]);
    next := AddHash(state, v);
  }

  method RunRounds(state: Hash, block: Block, w: seq<Word>) returns (v: Hash)
    requires |w| == 64 && Scheduled(block, w)
    ensures v == Rounds(state, block, ROUNDS)
  {
    v := state;
    for i := 0 to ROUNDS
      invariant v == Rounds(state, block, i)
    {
      RoundsStep(state, block, i, w[i]);
      v := HashRound(v, Literal(K(i)), w[i]);
    }
  }

  lemma RoundsStep(state: Hash, block: Block, i: nat, w: Word)
    requires i < ROUNDS && w == Schedule(block, i)
    ensures Round(Rounds(state, block, i), Literal(K(i)), w) == Rounds(state, block, i + 1)
  {
  }

  method HashRound(v: Hash, k: Word, w: Word) returns (next: Hash)
    ensures next == Round(v, k, w)
  {
    var s1 := Xor(Xor(Rotr(v.e, 6), Rotr(v.e, 11)), Rotr(v.e, 25));
    var choose := Xor(And(v.e, v.f), And(Not(v.e), v.g));
    var t1 := Add(Add(Add(Add(v.h, s1), choose), k), w);
    var s0 := Xor(Xor(Rotr(v.a, 2), Rotr(v.a, 13)), Rotr(v.a, 22));
    var majority := Xor(Xor(And(v.a, v.b), And(v.a, v.c)), And(v.b, v.c));
    var t2 := Add(s0, majority);
    next := Hash(Add(t1, t2), v.a, v.b, v.c, Add(v.d, t1), v.e, v.f, v.g);
  }

  // ---- the context ----

  /** The function is the compression function, as an equation that only fires where that is mentioned. */
  ghost predicate Names(f: (Hash, Block) -> Hash) {
    forall h: Hash, b: Block {:trigger Compress(h, b)} :: f(h, b) == Compress(h, b)
  }

  /** struct fwrel_sha256.  `message` is everything fed so far; `compress` names what sha256_block computes,
      so that nothing but the folding of a block looks into it. */
  class Hasher {
    ghost const compress: (Hash, Block) -> Hash
    const initial: Hash
    var state: Hash
    var bits: nat
    const block: array<byte>
    var used: nat
    ghost var message: seq<byte>

    ghost predicate Valid()
      reads this, block
    {
      bits == 8 * |message| % MAX_BITS && Consistent()
    }

    /** Everything but the bit count, which sha256_update advances first. */
    ghost predicate Consistent()
      reads this, block
    {
      Names(compress) && block.Length == 64 && used < 64 && Buffered(compress, initial, state, block[..used], message)
    }

    /** sha256_init */
    constructor ()
      ensures Valid() && fresh(block) && message == []
      ensures compress == Compress && initial == Initial()
    {
      var h := Initial();
      compress, initial := Compress, h;
      state, bits, used, message := h, 0, 0, [];
      block := new byte[64];
      new;
      assert block[..0] == [];
    }

    /** sha256_init on a context in use */
    method Reset()
      requires block.Length == 64 && Names(compress)
      modifies this
      ensures Valid() && message == []
    {
      state, bits, used, message := initial, 0, 0, [];
      assert block[..0] == [];
    }

    /** The full block goes through sha256_block. */
    method Fold(full: Block)
      requires Names(compress)
      modifies this`state, this`used
      ensures state == compress(old(state), full) && used == 0
    {
      state := HashBlock(state, full);
      used := 0;
    }

    /** memcpy into the block buffer */
    method Append(piece: seq<byte>)
      requires block.Length == 64 && used + |piece| <= 64
      modifies this`used, block
      ensures used == old(used) + |piece| && block[..used] == old(block[..used]) + piece
    {
      forall j | 0 <= j < |piece| {
        block[used + j] := piece[j];
      }
      used := used + |piece|;
    }

    /** One round of the update loop: copy, and fold the block when it is full */
    method Take(piece: seq<byte>)
      requires Consistent() && used + |piece| <= 64
      modifies this`used, this`state, this`message, block
      ensures Consistent() && message == old(message) + piece
    {
      ghost var rest, before := block[..used], state;
      Append(piece);
      if used == 64 {
        var full := block[..64];
        Fold(full);
        BufferFolds(compress, initial, before, rest, message, piece, full);
        assert block[..used] == [];
      } else {
        BufferGrows(compress, initial, before, rest, message, piece, block[..used]);
      }
      message := message + piece;
    }

    /** sha256_update */
    method Update(data: seq<byte>)
      requires Valid()
      modifies this, block
      ensures Valid() && message == old(message) + data
    {
      BitsAdd(8 * |message|, 8 * |data|);
      bits := (bits + 8 * |data|) % MAX_BITS;
      var done := 0;
      ghost var start, total := message, bits;
      while done < |data|
        invariant done <= |data| && Consistent() && bits == total
        invariant message == start + data[..done]
      {
        var n := 64 - used;
        if n > |data| - done {
          n := |data| - done;
        }
        var piece := data[done..done + n];
        Take(piece);
        Onward(start, data, done, n);
        done := done + n;
      }
      assert data[..|data|] == data;
    }

    /** The 0x80 byte; when the bit count no longer fits behind it, zeros up to the end of this block */
    method MarkEnd() returns (ghost fed: seq<byte>)
      requires Consistent() && |message| < 0x2000_0000_0000_0000
      modifies this`used, this`state, block
      ensures used <= 56 && Buffered(compress, initial, state, block[..used], fed)
      ensures fed + ZeroBytes(56 - used) + BigEndian64(8 * |message|) == Pad(message)
    {
      ghost var u, rest, before := used, block[..used], state;
      Append([0x80]);
      if used > 56 {
        Append(ZeroBytes(64 - used));
        var full := block[..64];
        Fold(full);
        assert block[..used] == [];
        fed := FlushedMark(compress, initial, before, rest, message, full);
      } else {
        BufferGrows(compress, initial, before, rest, message, [0x80], block[..used]);
        fed := message + [0x80];
        PadShort(message, u);
      }
    }

    /** sha256_final, up to the serialisation of the state */
    method Finish() returns (result: Hash)
      requires Valid() && |message| < 0x2000_0000_0000_0000
      modifies this, block
      ensures result == Absorb(compress, initial, Pad(old(message)))
    {
      NoWrap(8 * |message|);
      ghost var whole, count := message, bits;
      ghost var fed := MarkEnd();
      ghost var rest, before := block[..used], state;
      var zeros, length := ZeroBytes(56 - used), BigEndian64(bits);
      Append(zeros);
      Append(length);
      var full := block[..64];
      Fold(full);
      result := state;
      assert count == 8 * |whole|;
      LastBlock(compress, initial, before, rest, fed, zeros, length, full, Pad(whole));
    }
  }

  lemma Onward(start: seq<byte>, data: seq<byte>, done: nat, n: nat)
    requires done + n <= |data|
    ensures start + data[..done + n] == start + data[..done] + data[done..done + n]
  {
    assert data[..done + n] == data[..done] + data[done..done + n];
  }

  /** sha256_init, then one sha256_update for every piece, then sha256_final */
  method HashPieces(pieces: seq<seq<byte>>) returns (digest: seq<byte>)
    requires |Concat(pieces)| < 0x2000_0000_0000_0000
    ensures digest == Digest(Concat(pieces))
  {
    var hasher := new Hasher();
    for i := 0 to |pieces|
      invariant hasher.Valid() && fresh(hasher) && fresh(hasher.block)
      invariant hasher.compress == Compress && hasher.initial == Initial()
      invariant hasher.message == Concat(pieces[..i])
    {
      hasher.Update(pieces[i]);
      ConcatNext(pieces, i);
    }
    assert pieces[..|pieces|] == pieces;
    var state := hasher.Finish();
    digest := HashBytes(state);
  }
}
