/** Bits of numbers. */
module Bitwise {

  /** Bit by bit from the right */
  function Xor(a: nat, b: nat): nat {
    if a == 0 && b == 0 then 0 else 2 * Xor(a / 2, b / 2) + (a + b) % 2
  }

  function Power2(n: nat): nat { if n == 0 then 1 else 2 * Power2(n - 1) }

  lemma {:induction false} XorBound(a: nat, b: nat, n: nat)
    requires a < Power2(n) && b < Power2(n)
    ensures Xor(a, b) < Power2(n)
  {
    if n > 0 {
      XorBound(a / 2, b / 2, n - 1);
    }
  }

  lemma XorByteBound(a: nat, b: nat)
    requires a < 256 && b < 256
    ensures Xor(a, b) < 256
  {
    assert Power2(8) == 256 by { assert Power2(4) == 16; }
    XorBound(a, b, 8);
  }

  function Or(a: nat, b: nat): nat {
    if a == 0 && b == 0 then 0 else 2 * Or(a / 2, b / 2) + if a % 2 == 1 || b % 2 == 1 then 1 else 0
  }

  function And(a: nat, b: nat): nat {
    if a == 0 || b == 0 then 0 else 2 * And(a / 2, b / 2) + if a % 2 == 1 && b % 2 == 1 then 1 else 0
  }

  /** Bit k, counted from the right */
  predicate BitAt(n: nat, k: nat) {
    if k == 0 then n % 2 == 1 else BitAt(n / 2, k - 1)
  }

  lemma {:induction false} ZeroBits(k: nat)
    ensures !BitAt(0, k)
  {
    if k > 0 {
      ZeroBits(k - 1);
    }
  }

  lemma Doubled(n: nat, bit: nat)
    requires bit < 2
    ensures (2 * n + bit) / 2 == n && (2 * n + bit) % 2 == bit
  {
  }

  lemma OddSum(a: nat, b: nat)
    ensures (a + b) % 2 == 1 <==> (a % 2 == 1) != (b % 2 == 1)
  {
  }

  lemma {:induction false} OrBit(a: nat, b: nat, k: nat)
    ensures BitAt(Or(a, b), k) <==> BitAt(a, k) || BitAt(b, k)
    decreases k
  {
    if a == 0 && b == 0 {
      ZeroBits(k);
    } else {
      Doubled(Or(a / 2, b / 2), if a % 2 == 1 || b % 2 == 1 then 1 else 0);
      if k > 0 {
        OrBit(a / 2, b / 2, k - 1);
      }
    }
  }

  lemma {:induction false} XorBit(a: nat, b: nat, k: nat)
    ensures BitAt(Xor(a, b), k) <==> BitAt(a, k) != BitAt(b, k)
    decreases k
  {
    if a == 0 && b == 0 {
      ZeroBits(k);
    } else {
      Doubled(Xor(a / 2, b / 2), (a + b) % 2);
      OddSum(a, b);
      if k > 0 {
        XorBit(a / 2, b / 2, k - 1);
      }
    }
  }

  /** Only equal numbers differ in no bit. */
  lemma {:induction false} XorZero(a: nat, b: nat)
    ensures Xor(a, b) == 0 <==> a == b
    decreases a + b
  {
    if a != 0 || b != 0 {
      XorZero(a / 2, b / 2);
    }
  }

  /** How many bits are set */
  function Ones(n: nat): nat { if n == 0 then 0 else Ones(n / 2) + n % 2 }

  lemma {:induction false} NoOnes(n: nat)
    ensures Ones(n) == 0 <==> n == 0
  {
    if n > 0 {
      NoOnes(n / 2);
    }
  }

  /** n & (n - 1) is n without its lowest set bit. */
  lemma {:induction false} ClearsLowest(n: nat)
    requires n > 0
    ensures And(n, n - 1) < n && Ones(And(n, n - 1)) == Ones(n) - 1
  {
    var m := n / 2;
    if n % 2 == 1 {
      assert (n - 1) / 2 == m;
      AndSame(m);
    } else {
      assert (n - 1) / 2 == m - 1;
      ClearsLowest(m);
      assert And(n, n - 1) / 2 == And(m, m - 1);
    }
  }

  lemma {:induction false} AndSame(n: nat)
    ensures And(n, n) == n
  {
    if n > 0 {
      AndSame(n / 2);
    }
  }

  /** Clearing the lowest set bit until none is left */
  method CountOnes(n: nat) returns (count: nat)
    ensures count == Ones(n)
  {
    count := 0;
    var bits := n;
    while bits != 0
      invariant count + Ones(bits) == Ones(n)
    {
      ClearsLowest(bits);
      bits := And(bits, bits - 1);
      count := count + 1;
    }
  }
}
