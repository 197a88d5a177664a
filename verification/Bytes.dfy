/** Bytes and the little-endian words stored in them. */
module Bytes {

  type byte = b: int | 0 <= b < 256

  /** The low byte of a number, and the number above it. */
  function Low(n: nat): byte {
    if n < 256 then n else Low(n - 256)
  }

  function High(n: nat): nat {
    if n < 256 then 0 else 1 + High(n - 256)
  }

  function Byte0(n: nat): byte { Low(n) }
  function Byte1(n: nat): byte { Low(High(n)) }
  function Byte2(n: nat): byte { Low(High(High(n))) }
  function Byte3(n: nat): byte { Low(High(High(High(n)))) }

  function Le16(b0: byte, b1: byte): nat { b0 + 256 * b1 }

  function Le32(b0: byte, b1: byte, b2: byte, b3: byte): nat {
    b0 + 256 * (b1 + 256 * Le16(b2, b3))
  }

  /** What is left of a number in a 32-bit field. */
  function Wrap32(n: nat): nat {
    Le32(Byte0(n), Byte1(n), Byte2(n), Byte3(n))
  }

  lemma {:induction false} LowHigh(n: nat)
    ensures n == Low(n) + 256 * High(n)
  {
    if n >= 256 {
      LowHigh(n - 256);
    }
  }

  lemma Le16RoundTrip(n: nat)
    requires n < 0x1_0000
    ensures Le16(Byte0(n), Byte1(n)) == n
  {
    hide Low, High;
    LowHigh(n);
    LowHigh(High(n));
    assert High(High(n)) == 0;
  }

  lemma Le32RoundTrip(n: nat)
    requires n < 0x1_0000_0000
    ensures Wrap32(n) == n
  {
    hide Low, High;
    var h := High(n);
    LowHigh(n);
    LowHigh(h);
    LowHigh(High(h));
    LowHigh(High(High(h)));
    assert High(High(High(h))) == 0;
  }

  lemma Wrap32Parts(n: nat) returns (k: nat)
    ensures n == 0x1_0000_0000 * k + Wrap32(n)
  {
    hide Low, High;
    var h := High(n);
    LowHigh(n);
    LowHigh(h);
    LowHigh(High(h));
    LowHigh(High(High(h)));
    k := High(High(High(h)));
  }

  /** Storing a number in 32 bits keeps it modulo 2^32. */
  lemma Wrap32Is(n: nat)
    ensures Wrap32(n) == n % 0x1_0000_0000
  {
    hide Wrap32;
    var k := Wrap32Parts(n);
    Wrap32Range(n);
  }

  lemma Wrap32Range(n: nat)
    ensures Wrap32(n) < 0x1_0000_0000
  {
    hide Low, High;
  }

  /** A 32-bit sum below twice the range. */
  lemma WrapCases(n: nat)
    ensures n < 0x1_0000_0000 ==> Wrap32(n) == n
    ensures 0x1_0000_0000 <= n < 0x2_0000_0000 ==> Wrap32(n) == n - 0x1_0000_0000
    ensures Wrap32(n) < 0x1_0000_0000 && (Wrap32(n) == n <==> n < 0x1_0000_0000)
  {
    hide Wrap32;
    Wrap32Is(n);
    Wrap32Range(n);
  }

  function Zeros(n: nat): seq<byte> {
    seq(n, i => 0)
  }
}
