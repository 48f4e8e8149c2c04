/** Unsigned 32-bit words as their 32 bits, least significant first, with the operators the
    release reader applies to a uint32_t. */
module Words {
  import opened Bytes

  const WORD_BITS := 32
  const BYTE_BITS := 8

  type Word = w: seq<bool> | |w| == WORD_BITS witness seq(WORD_BITS, _ => false)

  /** The n lowest bits of x. */
  function Bits(x: nat, n: nat): (r: seq<bool>)
    ensures |r| == n
  {
    seq(n, i requires 0 <= i < n => x / Pow2(i) % 2 == 1)
  }

  function Number(bits: seq<bool>): nat {
    if bits == [] then 0 else (if bits[0] then 1 else 0) + 2 * Number(bits[1..])
  }

  function Pow2(n: nat): (r: nat)
    ensures r > 0
  {
    if n == 0 then 1 else 2 * Pow2(n - 1)
  }

  function Zeros(n: nat): (r: seq<bool>)
    ensures |r| == n && forall i :: 0 <= i < n ==> !r[i]
  {
    seq(n, _ => false)
  }

  /** The word with value x. */
  function Literal(x: nat): Word {
    Bits(x, WORD_BITS)
  }

  /** The bits of a byte. */
  function Octet(b: byte): (r: seq<bool>)
    ensures |r| == 8
  {
    Bits(b, BYTE_BITS)
  }

  /** A byte converted to a word. */
  function Wide(b: byte): Word {
    Octet(b) + Zeros(24)
  }

  /** c >> n */
  function Down(c: Word, n: nat): Word
    requires n <= 32
  {
    c[n..] + Zeros(n)
  }

  /** c << n */
  function Up(c: Word, n: nat): Word
    requires n <= 32
  {
    Zeros(n) + c[..32 - n]
  }

  function Xor(a: Word, b: Word): (r: Word)
    ensures forall i :: 0 <= i < 32 ==> r[i] == (a[i] != b[i])
  {
    seq(32, i requires 0 <= i < 32 => a[i] != b[i])
  }

  function And(a: Word, b: Word): (r: Word)
    ensures forall i :: 0 <= i < 32 ==> r[i] == (a[i] && b[i])
  {
    seq(32, i requires 0 <= i < 32 => a[i] && b[i])
  }

  function Or(a: Word, b: Word): (r: Word)
    ensures forall i :: 0 <= i < 32 ==> r[i] == (a[i] || b[i])
  {
    seq(32, i requires 0 <= i < 32 => a[i] || b[i])
  }

  function Not(a: Word): (r: Word)
    ensures forall i :: 0 <= i < 32 ==> r[i] == !a[i]
  {
    seq(32, i requires 0 <= i < 32 => !a[i])
  }

  /** a + b modulo 2^32 */
  function Add(a: Word, b: Word): Word {
    Sum(a, b, WORD_BITS)
  }

  /** a + b modulo 2^n */
  function Sum(a: seq<bool>, b: seq<bool>, n: nat): (r: seq<bool>)
    ensures |r| == n
  {
    Bits(Number(a) + Number(b), n)
  }

  lemma BitsUnfold(x: nat, n: nat)
    requires n > 0
    ensures Bits(x, n) == [x % 2 == 1] + Bits(x / 2, n - 1)
  {
    assert Pow2(0) == 1;
    forall i | 0 < i < n ensures Bits(x, n)[i] == Bits(x / 2, n - 1)[i - 1] {
      HalveFirst(x, Pow2(i - 1));
    }
  }

  lemma HalveFirst(x: nat, m: nat)
    requires m > 0
    ensures x / (2 * m) == x / 2 / m
  {
    HalveModulo(x, m);
    var q, r := x / 2 / m, x / 2 % m;
    assert x == (2 * m) * q + (2 * r + x % 2);
    Quotient(x, 2 * m, q, 2 * r + x % 2);
  }

  lemma Quotient(x: int, d: int, q: int, r: int)
    requires d > 0 && 0 <= r < d && x == d * q + r
    ensures x / d == q
  {
    var k: int := q - x / d;
    assert d * k == x % d - r;
    if k != 0 {
      Apart(d, k);
    }
  }

  lemma {:induction false} BitsOfNumber(bits: seq<bool>)
    ensures Bits(Number(bits), |bits|) == bits && Number(bits) < Pow2(|bits|)
  {
    if bits != [] {
      BitsOfNumber(bits[1..]);
      assert Number(bits) / 2 == Number(bits[1..]);
      BitsUnfold(Number(bits), |bits|);
    }
  }

  lemma {:induction false} NumberOfBits(x: nat, n: nat)
    ensures Number(Bits(x, n)) == x % Pow2(n)
    decreases n
  {
    if n > 0 {
      NumberOfBits(x / 2, n - 1);
      BitsUnfold(x, n);
      HalveModulo(x, Pow2(n - 1));
    }
  }

  lemma HalveModulo(x: nat, m: nat)
    requires m > 0
    ensures x % (2 * m) == 2 * (x / 2 % m) + x % 2
  {
    var q, r := x / 2 / m, x / 2 % m;
    assert x == (2 * m) * q + (2 * r + x % 2);
    Remainder(x, 2 * m, q, 2 * r + x % 2);
  }

  lemma Remainder(x: int, d: int, q: int, r: int)
    requires d > 0 && r >= 0 && x == d * q + r && r < d
    ensures x % d == r
  {
    var k: int := q - x / d;
    assert d * k == x % d - r;
    if k != 0 {
      Apart(d, k);
    }
  }

  lemma Apart(d: int, k: int)
    requires d > 0 && k != 0
    ensures d * k >= d || d * k <= -d
  {
  }

  // ---- word addition ----

  /** Addition modulo 2^32 does not depend on the order of the terms. */
  lemma AddReorders(a: Word, b: Word, c: Word, d: Word)
    ensures Add(Add(Add(a, b), c), d) == Add(Add(Add(d, c), b), a)
  {
    var p, q := Add(Add(a, b), c), Add(Add(d, c), b);
    var x, y := Number(a) + Number(b) + Number(c), Number(d) + Number(c) + Number(b);
    SumOfThree(a, b, c, WORD_BITS, x);
    SumOfThree(d, c, b, WORD_BITS, y);
    SameTotal(p, x, d, q, y, a);
  }

  lemma SameTotal(p: Word, x: nat, d: Word, q: Word, y: nat, a: Word)
    requires p == Literal(x) && q == Literal(y) && x + Number(d) == y + Number(a)
    ensures Add(p, d) == Add(q, a)
  {
    SumAgain(p, x, d, WORD_BITS, x + Number(d));
    SumAgain(q, y, a, WORD_BITS, y + Number(a));
  }

  lemma SumOfThree(a: seq<bool>, b: seq<bool>, c: seq<bool>, n: nat, total: nat)
    requires total == Number(a) + Number(b) + Number(c)
    ensures Sum(Sum(a, b, n), c, n) == Bits(total, n)
  {
    SumAgain(Sum(a, b, n), Number(a) + Number(b), c, n, total);
  }

  lemma SumAgain(s: seq<bool>, x: nat, c: seq<bool>, n: nat, y: nat)
    requires s == Bits(x, n) && y == x + Number(c)
    ensures Sum(s, c, n) == Bits(y, n)
  {
    AddAgain(x, Number(c), n);
  }

  /** A sum cut to n bits can be cut again without loss. */
  lemma AddAgain(x: nat, y: nat, n: nat)
    ensures Bits(Number(Bits(x, n)) + y, n) == Bits(x + y, n)
  {
    NumberOfBits(x, n);
    var q, r := Split(x, Pow2(n));
    BitsModulo(r + y, x + y, q, n);
  }

  lemma Split(x: nat, m: nat) returns (q: nat, r: nat)
    requires m > 0
    ensures x == r + q * m && r == x % m
  {
    q, r := x / m, x % m;
  }

  /** The n lowest bits do not see multiples of 2^n. */
  lemma {:induction false} BitsModulo(x: nat, y: nat, q: nat, n: nat)
    requires y == x + q * Pow2(n)
    ensures Bits(x, n) == Bits(y, n)
    decreases n
  {
    if n > 0 {
      assert q * Pow2(n) == 2 * (q * Pow2(n - 1));
      BitsModulo(x / 2, y / 2, q, n - 1);
      BitsUnfold(x, n);
      BitsUnfold(y, n);
    }
  }

  // ---- rotation ----

  /** Rotation to the right, as FIPS 180-4 section 3.2 defines it. */
  function RotateRight(x: Word, n: nat): Word
    requires n <= 32
  {
    x[n..] + x[..n]
  }

  /** Two shifts and an or rotate. */
  lemma ShiftsRotate(x: Word, n: nat)
    requires n <= 32
    ensures Or(Down(x, n), Up(x, 32 - n)) == RotateRight(x, n)
  {
  }
}
