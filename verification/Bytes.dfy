/** Bytes and the little-endian layout of unsigned words. */
module Bytes {
  type byte = b: int | 0 <= b < 256

  const WORD := 0x1_0000_0000_0000_0000 // size_t has 64 bits

  type size_t = n: int | 0 <= n < WORD

  type int32 = i: int | -0x8000_0000 <= i < 0x8000_0000

  /** The low `width` bytes of n, least significant first. */
  function Little(n: nat, width: nat): (s: seq<byte>)
    ensures |s| == width
  {
    if width == 0 then [] else [n % 256] + Little(n / 256, width - 1)
  }

  function Unsigned(s: seq<byte>): nat {
    if s == [] then 0 else s[0] + 256 * Unsigned(s[1..])
  }

  function Power(width: nat): (p: nat)
    ensures p > 0
  {
    if width == 0 then 1 else 256 * Power(width - 1)
  }

  lemma {:induction false} UnsignedOfLittle(n: nat, width: nat)
    requires n < Power(width)
    ensures Unsigned(Little(n, width)) == n
  {
    if width > 0 {
      UnsignedOfLittle(n / 256, width - 1);
      assert Little(n, width)[1..] == Little(n / 256, width - 1);
    }
  }

  lemma {:induction false} LittleOfUnsigned(s: seq<byte>)
    ensures Unsigned(s) < Power(|s|) && Little(Unsigned(s), |s|) == s
  {
    if s != [] {
      LittleOfUnsigned(s[1..]);
      assert Unsigned(s) % 256 == s[0] && Unsigned(s) / 256 == Unsigned(s[1..]);
      assert s == [s[0]] + s[1..];
    }
  }

  /** (n / a) / b for the place values of bytes. */
  lemma DivideTwice(n: nat, p: nat)
    requires p > 0
    ensures n / 256 / p == n / (256 * p)
  {
    var q, r := n / 256, n % 256;
    var a, b := q / p, q % p;
    assert n == a * (256 * p) + (256 * b + r);
    assert 256 * b + r < 256 * p;
    Quotient(n, 256 * p, a, 256 * b + r);
  }

  lemma Quotient(n: nat, d: nat, q: nat, r: nat)
    requires n == q * d + r && r < d
    ensures n / d == q
  {
    var k := n / d - q;
    assert k * d == r - n % d;
    assert (k > 0 ==> k * d >= d) && (k < 0 ==> k * d + d <= 0);
  }

  /** The byte at place i. */
  lemma {:induction false} LittleAt(n: nat, width: nat, i: nat)
    requires i < width
    ensures Little(n, width)[i] == n / Power(i) % 256
  {
    if i > 0 {
      LittleAt(n / 256, width - 1, i - 1);
      DivideTwice(n, Power(i - 1));
    }
  }

  lemma Powers()
    ensures Power(0) == 1 && Power(1) == 0x100 && Power(2) == 0x1_0000 && Power(3) == 0x100_0000
    ensures Power(4) == 0x1_0000_0000 && Power(5) == 0x100_0000_0000 && Power(6) == 0x1_0000_0000_0000
    ensures Power(7) == 0x100_0000_0000_0000
  {
  }

  /** The bytes of a word, least significant first. */
  predicate IsWord(e: seq<byte>, n: size_t) {
    e == [n % 256, n / 0x100 % 256, n / 0x1_0000 % 256, n / 0x100_0000 % 256, n / 0x1_0000_0000 % 256,
          n / 0x100_0000_0000 % 256, n / 0x1_0000_0000_0000 % 256, n / 0x100_0000_0000_0000 % 256]
  }

  lemma WordBytes(n: size_t)
    ensures IsWord(Little(n, 8), n)
  {
    Powers();
    forall i | 0 <= i < 8 ensures Little(n, 8)[i] == n / Power(i) % 256 { LittleAt(n, 8, i); }
    assert n / Power(0) == n;
  }

  /** The bytes of an int, in two's complement and least significant first. */
  predicate IsInt(e: seq<byte>, i: int32) {
    var n := i % 0x1_0000_0000;
    e == [n % 256, n / 0x100 % 256, n / 0x1_0000 % 256, n / 0x100_0000 % 256]
  }

  lemma IntBytes(i: int32)
    ensures IsInt(Little(i % 0x1_0000_0000, 4), i)
  {
    var n: nat := i % 0x1_0000_0000;
    Powers();
    forall k | 0 <= k < 4 ensures Little(n, 4)[k] == n / Power(k) % 256 { LittleAt(n, 4, k); }
    assert n / Power(0) == n;
  }

  lemma WordPower()
    ensures Power(1) == 0x100 && Power(4) == 0x1_0000_0000 && Power(8) == WORD
  {
    assert Power(2) == 0x1_0000;
    assert Power(6) == 0x1_0000 * Power(4);
  }
}
