/** CRC-32 of the release reader: a 256-entry table driven one byte at a time, against long
    division by the reflected polynomial 0xedb88320, one message bit at a time. */
module Crc32 {
  import opened Bytes
  import opened Words

  const POLYNOMIAL := 0xedb88320

  /** One clock of the register: the bit that falls out decides whether the polynomial is subtracted. */
  function Shift(c: Word): Word {
    if c[0] then Xor(Literal(POLYNOMIAL), Down(c, 1)) else Down(c, 1)
  }

  function Clocks(c: Word, n: nat): Word
    decreases n
  {
    if n == 0 then c else Shift(Clocks(c, n - 1))
  }

  // ---- reference: long division, one message bit at a time ----

  function MessageBits(data: seq<byte>): seq<bool> {
    if data == [] then [] else Octet(data[0]) + MessageBits(data[1..])
  }

  /** The incoming bit is added to the bit about to fall out of the register. */
  function Divide(c: Word, bits: seq<bool>): Word
    decreases |bits|
  {
    if bits == [] then c else Divide(Shift(Flip(c, bits[0])), bits[1..])
  }

  function Flip(c: Word, bit: bool): Word {
    c[0 := c[0] != bit]
  }

  /** CRC-32 of a message that continues one with CRC `crc`; the CRC of nothing is all zeros. */
  function Crc(crc: Word, data: seq<byte>): Word {
    Not(Divide(Not(crc), MessageBits(data)))
  }

  lemma {:induction false} DivideAppends(c: Word, a: seq<bool>, b: seq<bool>)
    ensures Divide(c, a + b) == Divide(Divide(c, a), b)
    decreases |a|
  {
    if a == [] {
      assert a + b == b;
    } else {
      assert (a + b)[0] == a[0] && (a + b)[1..] == a[1..] + b;
      DivideAppends(Shift(Flip(c, a[0])), a[1..], b);
    }
  }

  lemma {:induction false} MessageBitsAppend(a: seq<byte>, b: seq<byte>)
    ensures MessageBits(a + b) == MessageBits(a) + MessageBits(b)
  {
    if a == [] {
      assert a + b == b;
    } else {
      assert (a + b)[0] == a[0] && (a + b)[1..] == a[1..] + b;
      MessageBitsAppend(a[1..], b);
    }
  }

  /** Updating with a and then with b is updating once with a followed by b. */
  lemma CrcAppends(crc: Word, a: seq<byte>, b: seq<byte>)
    ensures Crc(Crc(crc, a), b) == Crc(crc, a + b)
  {
    var half := Divide(Not(crc), MessageBits(a));
    assert Not(Not(half)) == half;
    MessageBitsAppend(a, b);
    DivideAppends(Not(crc), MessageBits(a), MessageBits(b));
  }

  // ---- the division is linear ----

  /** Bits above the lowest one pass through a clock unchanged but for the move. */
  lemma ShiftSplits(a: Word, b: Word)
    requires !b[0]
    ensures Shift(Xor(a, b)) == Xor(Shift(a), Down(b, 1))
  {
    assert forall i :: 0 <= i < 31 ==> Down(Xor(a, b), 1)[i] == (a[i + 1] != b[i + 1]);
  }

  lemma DownAgain(b: Word, n: nat)
    requires 0 < n <= 32
    ensures Down(Down(b, n - 1), 1) == Down(b, n)
  {
  }

  /** While nothing but zeros falls out of b, n clocks treat a and b separately. */
  lemma {:induction false} ClocksSplit(a: Word, b: Word, n: nat)
    requires n <= 32 && forall k :: 0 <= k < n ==> !b[k]
    ensures Clocks(Xor(a, b), n) == Xor(Clocks(a, n), Down(b, n))
  {
    if n > 0 {
      ClocksSplit(a, b, n - 1);
      assert Down(b, n - 1)[0] == b[n - 1];
      ShiftSplits(Clocks(a, n - 1), Down(b, n - 1));
      DownAgain(b, n);
    }
  }

  /** The register with everything but its low byte cleared. */
  function LowByte(c: Word): Word {
    c[..8] + Zeros(24)
  }

  /** Eight clocks act on the low byte alone; the rest of the register only moves down. */
  lemma TableSplits(c: Word)
    ensures Clocks(c, 8) == Xor(Clocks(LowByte(c), 8), Down(c, 8))
  {
    var high := Zeros(8) + c[8..];
    assert c == Xor(LowByte(c), high);
    assert Down(high, 8) == Down(c, 8);
    ClocksSplit(LowByte(c), high, 8);
  }

  // ---- a byte at a time ----

  /** Adding the bits of y one by one is adding what is left of y before each clock. */
  lemma {:induction false} BitsDivide(c: Word, y: Word, n: nat)
    requires n <= 32
    ensures Clocks(Xor(c, y), n) == Xor(Divide(c, y[..n]), Down(y, n))
  {
    if n > 0 {
      BitsDivide(c, y, n - 1);
      var d, z := Divide(c, y[..n - 1]), Down(y, n - 1);
      assert y[..n] == y[..n - 1] + [z[0]];
      DivideAppends(c, y[..n - 1], [z[0]]);
      assert Divide(d, [z[0]]) == Shift(Flip(d, z[0]));
      BitOnce(d, z);
      DownAgain(y, n);
    }
  }

  lemma BitOnce(d: Word, z: Word)
    ensures Shift(Xor(d, z)) == Xor(Shift(Flip(d, z[0])), Down(z, 1))
  {
    var rest := z[0 := false];
    assert Xor(d, z) == Xor(Flip(d, z[0]), rest);
    ShiftSplits(Flip(d, z[0]), rest);
    assert Down(rest, 1) == Down(z, 1);
  }

  /** One step of the table loop divides by one more byte. */
  lemma TableStep(c: Word, b: byte)
    ensures Divide(c, Octet(b)) == Xor(Clocks(LowByte(Xor(c, Wide(b))), 8), Down(c, 8))
  {
    ByteDivides(c, Wide(b), Octet(b));
    TableSplits(Xor(c, Wide(b)));
    HighUntouched(c, Wide(b));
  }

  lemma ByteDivides(c: Word, y: Word, bits: seq<bool>)
    requires |bits| == 8 && y == bits + Zeros(24)
    ensures Divide(c, bits) == Clocks(Xor(c, y), 8)
  {
    BitsDivide(c, y, 8);
    assert y[..8] == bits;
    assert Xor(Divide(c, bits), Down(y, 8)) == Divide(c, bits);
  }

  lemma HighUntouched(c: Word, y: Word)
    requires forall i :: 8 <= i < 32 ==> !y[i]
    ensures Down(Xor(c, y), 8) == Down(c, 8)
  {
  }

  // ---- the driver's form ----

  /** Entry n of the table. */
  function Entry(n: byte): Word {
    Clocks(Wide(n), BYTE_BITS)
  }

  ghost predicate TableReady(table: array<Word>)
    reads table
  {
    table.Length == 256 && Filled(table[..])
  }

  ghost predicate Filled(entries: seq<Word>) {
    |entries| <= 256 && forall n :: 0 <= n < |entries| ==> entries[n] == Entry(n)
  }

  lemma FillNext(entries: seq<Word>, c: Word)
    requires Filled(entries) && |entries| < 256 && c == Entry(|entries|)
    ensures Filled(entries + [c])
  {
  }

  /** Which entry the loop looks up: the low byte of the register after the message byte was added. */
  function Slot(c: Word, b: byte): (n: nat)
    ensures n < 256
  {
    BitsOfNumber(Xor(c, Wide(b))[..8]);
    Number(Xor(c, Wide(b))[..8])
  }

  lemma LookupDivides(c: Word, b: byte)
    ensures Xor(Entry(Slot(c, b)), Down(c, 8)) == Divide(c, Octet(b))
  {
    BitsOfNumber(Xor(c, Wide(b))[..8]);
    TableStep(c, b);
  }

  method BuildEntry(n: byte) returns (c: Word)
    ensures c == Entry(n)
  {
    c := Wide(n);
    for k := 0 to BYTE_BITS
      invariant c == Clocks(Wide(n), k)
    {
      c := if c[0] then Xor(Literal(POLYNOMIAL), Down(c, 1)) else Down(c, 1);
    }
  }

  /** The table as crc32_update fills it on first use. */
  method BuildTable() returns (table: array<Word>)
    ensures fresh(table) && TableReady(table)
  {
    table := new Word[256];
    for n := 0 to 256
      invariant Filled(table[..n])
    {
      var c := BuildEntry(n);
      FillNext(table[..n], c);
      table[n] := c;
      assert table[..n + 1] == table[..n] + [c];
    }
  }

  lemma DivideNext(c: Word, data: seq<byte>, i: nat)
    requires i < |data|
    ensures Divide(c, MessageBits(data[i..])) == Divide(Divide(c, Octet(data[i])), MessageBits(data[i + 1..]))
  {
    assert data[i..][0] == data[i] && data[i..][1..] == data[i + 1..];
    DivideAppends(c, Octet(data[i]), MessageBits(data[i + 1..]));
  }

  /** crc32_update */
  method Update(table: array<Word>, crc: Word, data: seq<byte>) returns (r: Word)
    requires TableReady(table)
    ensures r == Crc(crc, data)
  {
    var c := Not(crc);
    for i := 0 to |data|
      invariant Divide(c, MessageBits(data[i..])) == Divide(Not(crc), MessageBits(data))
    {
      DivideNext(c, data, i);
      LookupDivides(c, data[i]);
      c := Xor(table[Slot(c, data[i])], Down(c, 8));
    }
    r := Not(c);
  }
}
