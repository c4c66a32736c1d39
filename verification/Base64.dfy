/** Base64 without padding, over a 24-bit accumulator. */
module Base64 {
  import opened Options
  import opened Bytes

  type sextet = d: int | 0 <= d < 64

  /** `base64_chars`: the upper-case letters, the lower-case letters, the digits, '+' and '/'. */
  function Letter(d: sextet): char {
    if d < 26 then 'A' + d as char
    else if d < 52 then 'a' + (d - 26) as char
    else if d < 62 then '0' + (d - 52) as char
    else if d == 62 then '+'
    else '/'
  }

  lemma LetterInjective(c: sextet, d: sextet)
    requires Letter(c) == Letter(d)
    ensures c == d
  {
  }

  function Letters(ds: seq<sextet>): (s: string)
    ensures |s| == |ds|
  {
    seq(|ds|, i requires 0 <= i < |ds| => Letter(ds[i]))
  }

  // ---------------------------------------------------------------- section 4 of RFC 4648

  /** A 24-bit group of three bytes as four 6-bit groups. */
  function Quantum(a: byte, b: byte, c: byte): (q: seq<sextet>)
    ensures |q| == 4
  {
    [a / 4, a % 4 * 16 + b / 16, b % 16 * 4 + c / 64, c % 64]
  }

  function Quanta(s: seq<byte>, n: nat): (ds: seq<sextet>)
    requires 3 * n <= |s|
    ensures |ds| == 4 * n
  {
    if n == 0 then [] else Quanta(s, n - 1) + Quantum(s[3 * n - 3], s[3 * n - 2], s[3 * n - 1])
  }

  /** The final group when 8 or 16 bits are left, filled up with zero bits. */
  function Tail(rest: seq<byte>): seq<sextet> {
    if |rest| == 1 then [rest[0] / 4, rest[0] % 4 * 16]
    else if |rest| == 2 then [rest[0] / 4, rest[0] % 4 * 16 + rest[1] / 16, rest[1] % 16 * 4]
    else []
  }

  function Sextets(s: seq<byte>): seq<sextet> { Quanta(s, |s| / 3) + Tail(s[|s| / 3 * 3..]) }

  /** The encoding, with the padding characters omitted as section 3.2 of RFC 4648 allows. */
  function Encoding(s: seq<byte>): string { Letters(Sextets(s)) }

  // quotients and remainders of q * m + r

  lemma By4(q: nat, r: nat)
    requires r < 4
    ensures (q * 4 + r) / 4 == q && (q * 4 + r) % 4 == r
  {
  }

  lemma By16(q: nat, r: nat)
    requires r < 16
    ensures (q * 16 + r) / 16 == q && (q * 16 + r) % 16 == r
  {
  }

  lemma By64(q: nat, r: nat)
    requires r < 64
    ensures (q * 64 + r) / 64 == q && (q * 64 + r) % 64 == r
  {
  }

  lemma By256(q: nat, r: nat)
    requires r < 256
    ensures (q * 256 + r) / 256 == q && (q * 256 + r) % 256 == r
  {
  }

  lemma By4096(q: nat, r: nat)
    requires r < 4096
    ensures (q * 4096 + r) / 4096 == q && (q * 4096 + r) % 4096 == r
  {
  }

  lemma By65536(q: nat, r: nat)
    requires r < 65536
    ensures (q * 65536 + r) / 65536 == q && (q * 65536 + r) % 65536 == r
  {
  }

  lemma By262144(q: nat, r: nat)
    requires r < 262144
    ensures (q * 262144 + r) / 262144 == q && (q * 262144 + r) % 262144 == r
  {
  }

  // ---------------------------------------------------------------- encoding

  /** What the loop has given out, and what it still holds, after k bytes. */
  function Given(s: seq<byte>, k: nat): seq<sextet>
    requires k <= |s|
  {
    var rest := s[k / 3 * 3..k];
    Quanta(s, k / 3)
    + if |rest| == 0 then []
      else if |rest| == 1 then [rest[0] / 4]
      else [rest[0] / 4, rest[0] % 4 * 16 + rest[1] / 16]
  }

  function Held(s: seq<byte>, k: nat): nat
    requires k <= |s|
  {
    var rest := s[k / 3 * 3..k];
    if |rest| == 0 then 0
    else if |rest| == 1 then (rest[0] as int) * 65536
    else (rest[0] as int) * 65536 + (rest[1] as int) * 256
  }

  lemma FirstSextet(a: byte)
    ensures (a as int) * 65536 / 262144 % 64 == a / 4
  {
    By262144(a / 4, 65536 * (a % 4) as int);
  }

  lemma SecondSextet(a: byte, b: byte)
    ensures ((a as int) * 65536 + (b as int) * 256) / 4096 % 64 == Quantum(a, b, 0)[1]
  {
    var aq: nat, ar: nat, bq: nat, br: nat := a / 4, a % 4, b / 16, b % 16;
    By4096(16 * a as int + bq, 256 * br);
    By64(aq, 16 * ar + bq);
  }

  lemma LastSextets(a: byte, b: byte, c: byte)
    ensures var v := (a as int) * 65536 + (b as int) * 256 + c;
            v / 64 % 64 == Quantum(a, b, c)[2] && v % 64 == Quantum(a, b, c)[3]
  {
    var bq: nat, br: nat, cq: nat, cr: nat := b / 16, b % 16, c / 64, c % 64;
    By64(1024 * a as int + 64 * bq + 4 * br + cq, cr);
    By64(16 * a as int + bq, 4 * br + cq);
  }

  lemma FirstOfThree(s: seq<byte>, k: nat)
    requires k < |s| && k % 3 == 0
    ensures Held(s, k) == 0 && Held(s, k + 1) == (s[k] as int) * 65536
    ensures Given(s, k + 1) == Given(s, k) + [s[k] / 4]
  {
    assert s[k..k] == [] && s[k..k + 1] == [s[k]];
    assert (k + 1) / 3 == k / 3 && k / 3 * 3 == k;
  }

  lemma SecondOfThree(s: seq<byte>, k: nat)
    requires k < |s| && k % 3 == 1
    ensures Held(s, k) == (s[k - 1] as int) * 65536
    ensures Held(s, k + 1) == (s[k - 1] as int) * 65536 + (s[k] as int) * 256
    ensures Given(s, k + 1) == Given(s, k) + [Quantum(s[k - 1], s[k], 0)[1]]
  {
    var g := k - 1;
    assert k / 3 * 3 == g && (k + 1) / 3 * 3 == g;
    assert s[g..k] == [s[g]] && s[g..k + 1] == [s[g], s[k]];
  }

  lemma ThirdOfThree(s: seq<byte>, k: nat)
    requires k < |s| && k % 3 == 2
    ensures var q := Quantum(s[k - 2], s[k - 1], s[k]);
            && Given(s, k + 1) == Given(s, k) + [q[2]] + [q[3]] && Held(s, k + 1) == 0
            && Held(s, k) == (s[k - 2] as int) * 65536 + (s[k - 1] as int) * 256
  {
    var g, n := k - 2, (k + 1) / 3;
    assert k / 3 == n - 1 && k / 3 * 3 == g && n * 3 == k + 1;
    assert s[g..k] == [s[g], s[k - 1]];
    assert s[k + 1..k + 1] == [];
    assert Given(s, k + 1) == Quanta(s, n);
    assert Quanta(s, n) == Quanta(s, n - 1) + Quantum(s[g], s[k - 1], s[k]);
  }

  /** The sextets for the bits left at the end. */
  lemma Leftover(s: seq<byte>)
    ensures |s| % 3 == 0 ==> Sextets(s) == Given(s, |s|)
    ensures |s| % 3 == 1 ==>
              var a := s[|s| - 1];
              Held(s, |s|) == (a as int) * 65536 && Sextets(s) == Given(s, |s|) + [Quantum(a, 0, 0)[1]]
    ensures |s| % 3 == 2 ==>
              var a, b := s[|s| - 2], s[|s| - 1];
              && Held(s, |s|) == (a as int) * 65536 + (b as int) * 256
              && Sextets(s) == Given(s, |s|) + [Quantum(a, b, 0)[2]]
  {
    var rest := s[|s| / 3 * 3..];
    assert rest == s[|s| / 3 * 3..|s|];
  }

  lemma LettersSnoc(ds: seq<sextet>, d: sextet)
    ensures Letters(ds + [d]) == Letters(ds) + [Letter(d)]
  {
  }

  lemma EncodeFirst(s: seq<byte>, k: nat)
    requires k < |s| && k % 3 == 0
    ensures var v := Held(s, k) + (s[k] as int) * 65536;
            Held(s, k + 1) == v && Letters(Given(s, k + 1)) == Letters(Given(s, k)) + [Letter(v / 262144 % 64)]
  {
    hide Given, Held, Letter, Letters;
    FirstOfThree(s, k);
    FirstSextet(s[k]);
    LettersSnoc(Given(s, k), s[k] / 4);
  }

  lemma EncodeSecond(s: seq<byte>, k: nat)
    requires k < |s| && k % 3 == 1
    ensures var v := Held(s, k) + (s[k] as int) * 256;
            Held(s, k + 1) == v && Letters(Given(s, k + 1)) == Letters(Given(s, k)) + [Letter(v / 4096 % 64)]
  {
    hide Given, Held, Letter, Letters, Quantum;
    SecondOfThree(s, k);
    SecondSextet(s[k - 1], s[k]);
    LettersSnoc(Given(s, k), Quantum(s[k - 1], s[k], 0)[1]);
  }

  lemma EncodeThird(s: seq<byte>, k: nat)
    requires k < |s| && k % 3 == 2
    ensures var v := Held(s, k) + s[k] as int;
            && Held(s, k + 1) == 0
            && Letters(Given(s, k + 1)) == Letters(Given(s, k)) + [Letter(v / 64 % 64)] + [Letter(v % 64)]
  {
    hide Given, Held, Letter, Letters, Quantum;
    ThirdOfThree(s, k);
    var q := Quantum(s[k - 2], s[k - 1], s[k]);
    LastSextets(s[k - 2], s[k - 1], s[k]);
    LettersSnoc(Given(s, k), q[2]);
    LettersSnoc(Given(s, k) + [q[2]], q[3]);
  }

  /** The letters for the bits left at the end. */
  lemma EncodeRest(s: seq<byte>)
    ensures |s| % 3 == 0 ==> Encoding(s) == Letters(Given(s, |s|))
    ensures |s| % 3 == 1 ==> Encoding(s) == Letters(Given(s, |s|)) + [Letter(Held(s, |s|) / 4096 % 64)]
    ensures |s| % 3 == 2 ==> Encoding(s) == Letters(Given(s, |s|)) + [Letter(Held(s, |s|) / 64 % 64)]
  {
    hide Given, Held, Letter, Letters, Quantum, Sextets;
    Leftover(s);
    if |s| % 3 == 1 {
      SecondSextet(s[|s| - 1], 0);
      LettersSnoc(Given(s, |s|), Quantum(s[|s| - 1], 0, 0)[1]);
    } else if |s| % 3 == 2 {
      LastSextets(s[|s| - 2], s[|s| - 1], 0);
      LettersSnoc(Given(s, |s|), Quantum(s[|s| - 2], s[|s| - 1], 0)[2]);
    }
  }

  /** The j-th six bits of three bytes, most significant first. */
  function Bits(a: byte, b: byte, c: byte, j: nat): sextet
    requires j < 4
  {
    var v := (a as int) * 65536 + (b as int) * 256 + c;
    if j == 0 then v / 262144 % 64 else if j == 1 then v / 4096 % 64 else if j == 2 then v / 64 % 64 else v % 64
  }

  lemma QuantumBits(a: byte, b: byte, c: byte)
    ensures forall j :: 0 <= j < 4 ==> Quantum(a, b, c)[j] == Bits(a, b, c, j)
  {
    LastSextets(a, b, c);
    var aq: nat, ar: nat, bq: nat, br: nat := a / 4, a % 4, b / 16, b % 16;
    By262144(aq, 65536 * ar + 256 * b as int + c);
    By4096(16 * a as int + bq, 256 * br + c);
    By64(aq, 16 * ar + bq);
  }

  /** Six bits of the bytes from bit 6 * i on, with zero bits after the last byte. */
  function SixBits(s: seq<byte>, i: nat): sextet
    requires i / 4 * 3 < |s|
  {
    var k := i / 4 * 3;
    Bits(s[k], if k + 1 < |s| then s[k + 1] else 0, if k + 2 < |s| then s[k + 2] else 0, i % 4)
  }

  lemma GroupAt(s: seq<byte>, i: nat)
    requires i / 4 < |s| / 3
    ensures i < |Sextets(s)| && Sextets(s)[i] == SixBits(s, i)
  {
    hide Bits, Quantum, Quanta, Tail;
    var n, k := |s| / 3, i / 4;
    QuantaAt(s, n, k);
    assert Sextets(s)[i] == Quanta(s, n)[4 * k..4 * k + 4][i % 4];
    QuantumBits(s[3 * k], s[3 * k + 1], s[3 * k + 2]);
  }

  lemma TailAt(s: seq<byte>, i: nat)
    requires |s| / 3 <= i / 4 && i < |Sextets(s)|
    ensures i / 4 * 3 < |s| && Sextets(s)[i] == SixBits(s, i)
  {
    hide Bits, Quantum, Quanta, Tail;
    var rest := s[|s| / 3 * 3..];
    TailIsQuantum(rest);
    TailLength(rest);
    assert Sextets(s)[i] == Tail(rest)[i % 4];
    QuantumBits(rest[0], if |rest| == 2 then rest[1] else 0, 0);
  }

  lemma TailLength(rest: seq<byte>)
    requires |rest| < 3
    ensures |Tail(rest)| == if |rest| == 0 then 0 else |rest| + 1
  {
  }

  /** Character i of the encoding is the i-th six bits' place in the alphabet of RFC 4648, in ASCII. */
  lemma EncodingAt(s: seq<byte>, i: nat)
    requires i < |Encoding(s)|
    ensures i / 4 * 3 < |s|
    ensures var v: int := SixBits(s, i);
            Encoding(s)[i] as int == if v < 26 then 65 + v else if v < 52 then 71 + v
                                     else if v < 62 then v - 4 else if v == 62 then 43 else 47
  {
    hide SixBits, Sextets;
    assert Encoding(s)[i] == Letter(Sextets(s)[i]);
    if i / 4 < |s| / 3 { GroupAt(s, i); } else { TailAt(s, i); }
  }

  lemma EncodingLength(s: seq<byte>)
    ensures |Encoding(s)| == (4 * |s| + 2) / 3
  {
  }

  /** The encoding loop; a shift by k bits is a product or quotient by 2^k. */
  method Base64Encode(data: seq<byte>) returns (encoded: string)
    requires |data| < 0x8000_0000
    ensures encoded == Encoding(data)
  {
    hide Given, Held, Sextets, Letter, Letters, Encoding;
    var counter, bitStream, offset := 0, 0, 0;
    encoded := "";
    NothingYet(data);
    while counter < |data|
      invariant counter <= |data|
      invariant offset == if counter % 3 == 1 then 16 else if counter % 3 == 2 then 8 else 0
      invariant bitStream == Held(data, counter) && encoded == Letters(Given(data, counter))
    {
      var numVal: int := data[counter];
      offset := 16 - counter % 3 * 8;
      if offset == 16 {
        EncodeFirst(data, counter);
        bitStream := bitStream + numVal * 65536;
        encoded := encoded + [Letter(bitStream / 262144 % 64)];
      }
      if offset == 8 {
        EncodeSecond(data, counter);
        bitStream := bitStream + numVal * 256;
        encoded := encoded + [Letter(bitStream / 4096 % 64)];
      }
      if offset == 0 {
        EncodeThird(data, counter);
        bitStream := bitStream + numVal;
        encoded := encoded + [Letter(bitStream / 64 % 64)];
        encoded := encoded + [Letter(bitStream % 64)];
        bitStream := 0;
      }
      counter := counter + 1;
    }
    EncodeRest(data);
    if offset == 16 { encoded := encoded + [Letter(bitStream / 4096 % 64)]; }
    if offset == 8 { encoded := encoded + [Letter(bitStream / 64 % 64)]; }
  }

  lemma NothingYet(s: seq<byte>)
    ensures Letters(Given(s, 0)) == "" && Held(s, 0) == 0
  {
  }

  // ---------------------------------------------------------------- decoding

  const NPOS := 64

  /** `Util::Find` in the alphabet. */
  method Find(c: char) returns (d: nat)
    ensures d < NPOS ==> Letter(d) == c
    ensures d >= NPOS ==> d == NPOS && !InAlphabet(c)
  {
    d := 0;
    while d < NPOS
      invariant d <= NPOS && forall i: sextet :: i < d ==> Letter(i) != c
    {
      if Letter(d) == c { return; }
      d := d + 1;
    }
  }

  /** Four sextets as three bytes. */
  function Triple(a: sextet, b: sextet, c: sextet, d: sextet): (t: seq<byte>)
    ensures |t| == 3
  {
    [First(a, b), Second(b, c), Third(c, d)]
  }

  function First(a: sextet, b: sextet): byte { (a as int) * 4 + b / 16 }

  function Second(b: sextet, c: sextet): byte { (b % 16) as int * 16 + c / 4 }

  function Third(c: sextet, d: sextet): byte { (c % 4) as int * 64 + d }

  function Triples(ds: seq<sextet>, n: nat): (s: seq<byte>)
    requires 4 * n <= |ds|
    ensures |s| == 3 * n
  {
    if n == 0 then [] else Triples(ds, n - 1) + Triple(ds[4 * n - 4], ds[4 * n - 3], ds[4 * n - 2], ds[4 * n - 1])
  }

  /** The whole bytes among the bits of `ds`; fewer than eight bits at the end are dropped. */
  function Decoding(ds: seq<sextet>): seq<byte> { Released(ds, |ds|) }

  /** What the decoding loop has given out, and what it still holds, after k sextets. */
  function Released(ds: seq<sextet>, k: nat): seq<byte>
    requires k <= |ds|
  {
    Triples(ds, k / 4) + Whole(ds[k / 4 * 4..k])
  }

  /** The whole bytes of an unfinished group of sextets. */
  function Whole(rest: seq<sextet>): (w: seq<byte>)
    ensures |w| <= 2
  {
    if |rest| < 2 then []
    else if |rest| == 2 then [First(rest[0], rest[1])]
    else [First(rest[0], rest[1]), Second(rest[1], rest[2])]
  }

  function Kept(ds: seq<sextet>, k: nat): nat
    requires k <= |ds|
  {
    var rest := ds[k / 4 * 4..k];
    (if |rest| > 0 then (rest[0] as int) * 262144 else 0)
    + (if |rest| > 1 then (rest[1] as int) * 4096 else 0)
    + (if |rest| > 2 then (rest[2] as int) * 64 else 0)
  }

  lemma FirstByte(a: sextet, b: sextet)
    ensures ((a as int) * 262144 + (b as int) * 4096) / 65536 % 256 == First(a, b)
  {
    var bq: nat, br: nat := b / 16, b % 16;
    By65536(4 * a as int + bq, 4096 * br);
  }

  lemma SecondByte(a: sextet, b: sextet, c: sextet)
    ensures ((a as int) * 262144 + (b as int) * 4096 + (c as int) * 64) / 256 % 256 == Second(b, c)
  {
    var bq: nat, br: nat, cq: nat, cr: nat := b / 16, b % 16, c / 4, c % 4;
    By256(1024 * a as int + 256 * bq + 16 * br + cq, 64 * cr);
    By256(4 * a as int + bq, 16 * br + cq);
  }

  lemma ThirdByte(a: sextet, b: sextet, c: sextet, d: sextet)
    ensures ((a as int) * 262144 + (b as int) * 4096 + (c as int) * 64 + d) % 256 == Third(c, d)
  {
    var cq: nat, cr: nat := c / 4, c % 4;
    By256(1024 * a as int + 16 * b as int + cq, 64 * cr + d);
  }

  lemma FirstOfFour(ds: seq<sextet>, k: nat)
    requires k < |ds| && k % 4 == 0
    ensures Kept(ds, k) == 0 && Kept(ds, k + 1) == (ds[k] as int) * 262144 && Released(ds, k + 1) == Released(ds, k)
  {
    assert k / 4 * 4 == k && (k + 1) / 4 * 4 == k;
  }

  lemma SecondOfFour(ds: seq<sextet>, k: nat)
    requires k < |ds| && k % 4 == 1
    ensures Kept(ds, k) == (ds[k - 1] as int) * 262144
    ensures Kept(ds, k + 1) == Kept(ds, k) + (ds[k] as int) * 4096
    ensures Released(ds, k + 1) == Released(ds, k) + [First(ds[k - 1], ds[k])]
  {
    var g := k - 1;
    assert k / 4 * 4 == g && (k + 1) / 4 * 4 == g;
    assert |ds[g..k]| == 1 && ds[g..k][0] == ds[g];
    assert ds[g..k + 1] == [ds[g], ds[k]];
  }

  lemma ThirdOfFour(ds: seq<sextet>, k: nat)
    requires k < |ds| && k % 4 == 2
    ensures Kept(ds, k) == (ds[k - 2] as int) * 262144 + (ds[k - 1] as int) * 4096
    ensures Kept(ds, k + 1) == Kept(ds, k) + (ds[k] as int) * 64
    ensures Released(ds, k + 1) == Released(ds, k) + [Second(ds[k - 1], ds[k])]
  {
    var g := k - 2;
    assert k / 4 * 4 == g && (k + 1) / 4 * 4 == g;
    assert ds[g..k] == [ds[g], ds[k - 1]] && ds[g..k + 1] == [ds[g], ds[k - 1], ds[k]];
  }

  lemma FourthOfFour(ds: seq<sextet>, k: nat)
    requires k < |ds| && k % 4 == 3
    ensures Kept(ds, k) == (ds[k - 3] as int) * 262144 + (ds[k - 2] as int) * 4096 + (ds[k - 1] as int) * 64
    ensures Kept(ds, k + 1) == 0
    ensures Released(ds, k + 1) == Released(ds, k) + [Third(ds[k - 1], ds[k])]
  {
    hide First, Second, Third;
    var g, n := k - 3, (k + 1) / 4;
    assert k / 4 == n - 1 && k / 4 * 4 == g && n * 4 == k + 1;
    assert ds[g..k] == [ds[g], ds[k - 2], ds[k - 1]];
    assert Triples(ds, n) == Triples(ds, n - 1) + Triple(ds[g], ds[k - 2], ds[k - 1], ds[k]);
    assert ds[k + 1..k + 1] == [];
    assert Released(ds, k + 1) == Triples(ds, n);
  }

  predicate InAlphabet(c: char) { exists d: sextet :: Letter(d) == c }

  function Pads(n: nat): (s: string)
    ensures |s| == n && forall i :: 0 <= i < n ==> s[i] == '='
  {
    seq(n, _ => '=')
  }

  lemma {:induction false} TriplesPrefix(ds: seq<sextet>, more: seq<sextet>, n: nat)
    requires 4 * n <= |ds|
    ensures Triples(ds + more, n) == Triples(ds, n)
  {
    if n > 0 { TriplesPrefix(ds, more, n - 1); }
  }

  lemma ReleasedPrefix(ds: seq<sextet>, d: sextet)
    ensures Released(ds + [d], |ds|) == Released(ds, |ds|) && Kept(ds + [d], |ds|) == Kept(ds, |ds|)
  {
    TriplesPrefix(ds, [d], |ds| / 4);
    assert (ds + [d])[|ds| / 4 * 4..|ds|] == ds[|ds| / 4 * 4..|ds|];
  }

  lemma TextShape(ds: seq<sextet>, n: nat)
    ensures var t := Letters(ds) + Pads(n);
            && (forall i :: 0 <= i < |ds| ==> t[i] == Letter(ds[i]) && t[i] != '=' && InAlphabet(t[i]))
            && (forall i :: |ds| <= i < |t| ==> t[i] == '=')
            && (forall i :: 0 <= i < |t| ==> t[i] == '=' || InAlphabet(t[i]))
  {
    var t := Letters(ds) + Pads(n);
    forall i | 0 <= i < |ds| ensures t[i] == Letter(ds[i]) && t[i] != '=' && InAlphabet(t[i]) { LetterNotPad(ds[i]); }
  }

  /** The number of characters before the first '='. */
  function Unpadded(t: string): nat { if t == "" || t[0] == '=' then 0 else 1 + Unpadded(t[1..]) }

  lemma {:induction false} LettersBefore(t: string, k: nat)
    requires k <= |t| && (forall i :: 0 <= i < k ==> t[i] != '=') && (k < |t| ==> t[k] == '=')
    ensures Unpadded(t) == k
  {
    if k > 0 { LettersBefore(t[1..], k - 1); }
  }

  /** A text is letters and then padding in one way at most. */
  lemma OneReading(ds: seq<sextet>, m: nat, es: seq<sextet>, n: nat)
    requires Letters(ds) + Pads(m) == Letters(es) + Pads(n)
    ensures ds == es
  {
    var s, t := Letters(ds) + Pads(m), Letters(es) + Pads(n);
    TextShape(ds, m);
    TextShape(es, n);
    LettersBefore(s, |ds|);
    LettersBefore(t, |es|);
    forall i | 0 <= i < |ds| ensures ds[i] == es[i] {
      assert s[i] == Letter(ds[i]) && t[i] == Letter(es[i]);
      LetterInjective(ds[i], es[i]);
    }
  }

  lemma NotPadded(data: string, i: nat, j: nat, es: seq<sextet>, n: nat)
    requires i < j < |data| && data[i] == '=' && data[j] != '='
    ensures data != Letters(es) + Pads(n)
  {
    TextShape(es, n);
  }

  lemma ReadLetter(data: string, ds: seq<sextet>, d: sextet)
    requires |ds| < |data| && data[..|ds|] == Letters(ds) + Pads(0) && data[|ds|] == Letter(d)
    ensures data[..|ds| + 1] == Letters(ds + [d]) + Pads(0)
  {
    assert data[..|ds| + 1] == data[..|ds|] + [data[|ds|]];
    LettersSnoc(ds, d);
  }

  lemma ReadPad(data: string, ds: seq<sextet>, n: nat)
    requires |ds| + n < |data| && data[..|ds| + n] == Letters(ds) + Pads(n) && data[|ds| + n] == '='
    ensures data[..|ds| + n + 1] == Letters(ds) + Pads(n + 1)
  {
    assert data[..|ds| + n + 1] == data[..|ds| + n] + ['='];
    assert Pads(n + 1) == Pads(n) + ['='];
  }

  lemma LastPad(data: string, ds: seq<sextet>, n: nat)
    requires 0 < n && |ds| + n <= |data| && data[..|ds| + n] == Letters(ds) + Pads(n)
    ensures data[|ds| + n - 1] == '='
  {
    assert data[|ds| + n - 1] == data[..|ds| + n][|ds| + n - 1];
  }

  /** What the loop knows after k characters: they were letters `ds` and padding, or `late` holds an
      '=' and a letter after it. */
  ghost predicate Reading(data: string, k: nat, ds: seq<sextet>, late: Option<(nat, nat)>, bits: nat, out: seq<byte>) {
    && k <= |data| && (forall i :: 0 <= i < k ==> data[i] == '=' || InAlphabet(data[i]))
    && match late
       case None =>
         && |ds| <= k && data[..k] == Letters(ds) + Pads(k - |ds|)
         && out == Released(ds, |ds|) && (|ds| == k ==> bits == Kept(ds, |ds|))
       case Some(at) => at.0 < at.1 < k && data[at.0] == '=' && data[at.1] != '='
  }

  /** The bits after one more letter, and the byte that it completes. */
  function Shifted(bits: nat, d: sextet, k: nat): nat { bits + d * ShiftOf(18 - k % 4 * 6) }

  function Left(v: nat, k: nat): nat { if k % 4 == 3 then 0 else v }

  function Byte(v: nat, k: nat): (out: seq<byte>) {
    if k % 4 == 0 then []
    else if k % 4 == 1 then [v / 65536 % 256]
    else if k % 4 == 2 then [v / 256 % 256]
    else [v % 256]
  }

  lemma DecodeStep(ds: seq<sextet>, d: sextet)
    ensures var k, more := |ds|, ds + [d];
            var v := Shifted(Kept(ds, k), d, k);
            Kept(more, k + 1) == Left(v, k) && Released(more, k + 1) == Released(ds, k) + Byte(v, k)
  {
    hide Released, Kept, First, Second, Third;
    var k := |ds|;
    Advance(ds, d);
    if k % 4 == 1 { FirstByte(ds[k - 1], d); }
    if k % 4 == 2 { SecondByte(ds[k - 2], ds[k - 1], d); }
    if k % 4 == 3 { ThirdByte(ds[k - 3], ds[k - 2], ds[k - 1], d); }
  }

  lemma AfterLetter(data: string, k: nat, ds: seq<sextet>, late: Option<(nat, nat)>, bits: nat, out: seq<byte>,
                    d: sextet)
    returns (ds': seq<sextet>, late': Option<(nat, nat)>)
    requires Reading(data, k, ds, late, bits, out) && k < |data| && data[k] == Letter(d)
    ensures var v := Shifted(bits, d, k); Reading(data, k + 1, ds', late', Left(v, k), out + Byte(v, k))
  {
    hide Released, Kept, Letter, Letters, Pads, InAlphabet, Shifted, Left, Byte;
    LetterNotPad(d);
    ds', late' := ds, late;
    if late == None {
      if |ds| == k {
        DecodeStep(ds, d);
        ReadLetter(data, ds, d);
        ds' := ds + [d];
      } else {
        LastPad(data, ds, k - |ds|);
        late' := Some((k - 1, k));
      }
    }
  }

  lemma AfterPad(data: string, k: nat, ds: seq<sextet>, late: Option<(nat, nat)>, bits: nat, out: seq<byte>)
    requires Reading(data, k, ds, late, bits, out) && k < |data| && data[k] == '='
    ensures Reading(data, k + 1, ds, late, bits, out)
  {
    hide Released, Kept, Letter, Letters, Pads, InAlphabet;
    if late == None { ReadPad(data, ds, k - |ds|); }
  }

  /** At the end only one reading as letters and padding is left. */
  lemma ReadToTheEnd(data: string, ds: seq<sextet>, late: Option<(nat, nat)>, bits: nat, out: seq<byte>,
                     es: seq<sextet>, n: nat)
    requires Reading(data, |data|, ds, late, bits, out) && data == Letters(es) + Pads(n)
    ensures out == Decoding(es)
  {
    hide Released, Letter, Letters, Pads;
    assert data[..|data|] == data;
    match late
    case None => OneReading(ds, |data| - |ds|, es, n);
    case Some(at) => NotPadded(data, at.0, at.1, es, n);
  }

  /** The decoding loop: empty when a character is neither a letter nor '='; for letters followed by
      any amount of padding, the whole bytes among their bits. */
  method Base64Decode(data: string) returns (decoded: seq<byte>)
    requires |data| < 0x8000_0000
    ensures (exists i :: 0 <= i < |data| && data[i] != '=' && !InAlphabet(data[i])) ==> decoded == []
    ensures forall ds, n :: data == Letters(ds) + Pads(n) ==> decoded == Decoding(ds)
  {
    hide Letter, Letters, Pads, InAlphabet, Decoding, Reading;
    var counter, bitStream, offset := 0, 0, 0;
    decoded := [];
    ghost var ds: seq<sextet> := [];
    ghost var late: Option<(nat, nat)> := None;
    NothingRead(data);
    while counter < |data|
      invariant 0 <= counter <= |data| && bitStream >= 0
      invariant Reading(data, counter, ds, late, bitStream, decoded)
    {
      var c := data[counter];
      var numVal := Find(c);
      if numVal != NPOS {
        ds, late := AfterLetter(data, counter, ds, late, bitStream, decoded, numVal);
        assert decoded + [] == decoded;
        offset := 18 - counter % 4 * 6;
        bitStream := bitStream + numVal * ShiftOf(offset);
        if offset == 12 { decoded := decoded + [bitStream / 65536 % 256]; }
        if offset == 6 { decoded := decoded + [bitStream / 256 % 256]; }
        if offset == 0 {
          decoded := decoded + [bitStream % 256];
          bitStream := 0;
        }
      } else if c != '=' {
        ghost var at := counter;
        forall es, n ensures data != Letters(es) + Pads(n) { NoReading(data, at, es, n); }
        return [];
      } else {
        AfterPad(data, counter, ds, late, bitStream, decoded);
      }
      counter := counter + 1;
    }
    AllLetters(data, ds, late, bitStream, decoded);
    forall es, n | data == Letters(es) + Pads(n) ensures decoded == Decoding(es) {
      ReadToTheEnd(data, ds, late, bitStream, decoded, es, n);
    }
  }

  lemma AllLetters(data: string, ds: seq<sextet>, late: Option<(nat, nat)>, bits: nat, out: seq<byte>)
    requires Reading(data, |data|, ds, late, bits, out)
    ensures forall i :: 0 <= i < |data| ==> data[i] == '=' || InAlphabet(data[i])
  {
  }

  /** `<< offset` as a factor. */
  function ShiftOf(offset: int): nat {
    if offset == 18 then 262144 else if offset == 12 then 4096 else if offset == 6 then 64 else 1
  }

  lemma NothingRead(data: string)
    ensures Reading(data, 0, [], None, 0, [])
  {
    assert data[..0] == "" && Letters([]) + Pads(0) == "";
  }

  lemma LetterNotPad(d: sextet)
    ensures Letter(d) != '=' && InAlphabet(Letter(d))
  {
  }

  lemma NoReading(data: string, at: nat, es: seq<sextet>, n: nat)
    requires at < |data| && data[at] != '=' && !InAlphabet(data[at])
    ensures data != Letters(es) + Pads(n)
  {
    TextShape(es, n);
  }

  /** One more sextet, by its place in its group of four. */
  lemma Advance(ds: seq<sextet>, d: sextet)
    ensures var k, more := |ds|, ds + [d];
            && Kept(more, k + 1) == (if k % 4 == 3 then 0 else Kept(ds, k) + d * ShiftOf(18 - k % 4 * 6))
            && Kept(ds, k) == (if k % 4 == 0 then 0 else ds[k - k % 4] as int * 262144)
                              + (if k % 4 < 2 then 0 else ds[k - k % 4 + 1] as int * 4096)
                              + (if k % 4 < 3 then 0 else ds[k - k % 4 + 2] as int * 64)
            && Released(more, k + 1) == Released(ds, k)
                                        + if k % 4 == 0 then []
                                          else if k % 4 == 1 then [First(ds[k - 1], d)]
                                          else if k % 4 == 2 then [Second(ds[k - 1], d)]
                                          else [Third(ds[k - 1], d)]
  {
    hide Released, Kept, First, Second, Third;
    var k, more := |ds|, ds + [d];
    ReleasedPrefix(ds, d);
    if k % 4 == 0 { FirstOfFour(more, k); }
    else if k % 4 == 1 { SecondOfFour(more, k); }
    else if k % 4 == 2 { ThirdOfFour(more, k); }
    else { FourthOfFour(more, k); }
  }

  // ---------------------------------------------------------------- round trips

  /** The k-th three bytes are what the k-th four sextets decode to. */
  predicate Decodes(ds: seq<sextet>, s: seq<byte>, k: nat)
    requires 4 * k + 4 <= |ds| && 3 * k + 3 <= |s|
  {
    var at := 4 * k;
    Triple(ds[at], ds[at + 1], ds[at + 2], ds[at + 3]) == s[3 * k..3 * k + 3]
  }

  /** The k-th four sextets are what the k-th three bytes encode to. */
  predicate Encodes(s: seq<byte>, ds: seq<sextet>, k: nat)
    requires 4 * k + 4 <= |ds| && 3 * k + 3 <= |s|
  {
    var at := 3 * k;
    Quantum(s[at], s[at + 1], s[at + 2]) == ds[4 * k..4 * k + 4]
  }

  lemma {:induction false} TriplesOfGroups(ds: seq<sextet>, s: seq<byte>, n: nat)
    requires 4 * n <= |ds| && 3 * n <= |s| && forall k: nat :: k < n ==> Decodes(ds, s, k)
    ensures Triples(ds, n) == s[..3 * n]
  {
    hide First, Second, Third;
    if n > 0 {
      TriplesOfGroups(ds, s, n - 1);
      assert Decodes(ds, s, n - 1);
      assert s[..3 * n] == s[..3 * n - 3] + s[3 * n - 3..3 * n];
    }
  }

  lemma {:induction false} QuantaOfGroups(s: seq<byte>, ds: seq<sextet>, n: nat)
    requires 4 * n <= |ds| && 3 * n <= |s| && forall k: nat :: k < n ==> Encodes(s, ds, k)
    ensures Quanta(s, n) == ds[..4 * n]
  {
    hide Quantum;
    if n > 0 {
      QuantaOfGroups(s, ds, n - 1);
      assert Encodes(s, ds, n - 1);
      assert ds[..4 * n] == ds[..4 * n - 4] + ds[4 * n - 4..4 * n];
    }
  }

  lemma {:induction false} QuantaAt(s: seq<byte>, n: nat, k: nat)
    requires 3 * n <= |s| && k < n
    ensures Quanta(s, n)[4 * k..4 * k + 4] == Quantum(s[3 * k], s[3 * k + 1], s[3 * k + 2])
  {
    hide Quantum;
    var init, last := Quanta(s, n - 1), Quantum(s[3 * n - 3], s[3 * n - 2], s[3 * n - 1]);
    if k < n - 1 {
      QuantaAt(s, n - 1, k);
      assert (init + last)[4 * k..4 * k + 4] == init[4 * k..4 * k + 4];
    } else {
      assert (init + last)[4 * k..4 * k + 4] == last;
    }
  }

  lemma {:induction false} TriplesAt(ds: seq<sextet>, n: nat, k: nat)
    requires 4 * n <= |ds| && k < n
    ensures Triples(ds, n)[3 * k..3 * k + 3] == Triple(ds[4 * k], ds[4 * k + 1], ds[4 * k + 2], ds[4 * k + 3])
  {
    hide Triple;
    var init, last := Triples(ds, n - 1), Triple(ds[4 * n - 4], ds[4 * n - 3], ds[4 * n - 2], ds[4 * n - 1]);
    if k < n - 1 {
      TriplesAt(ds, n - 1, k);
      assert (init + last)[3 * k..3 * k + 3] == init[3 * k..3 * k + 3];
    } else {
      assert (init + last)[3 * k..3 * k + 3] == last;
    }
  }

  lemma QuantumParts(a: byte, b: byte, c: byte)
    ensures Split(Quantum(a, b, c), a, b, c)
  {
    By16(a % 4, b / 16);
    By4(b % 16, c / 64);
  }

  lemma FirstParts(a: sextet, b: sextet)
    ensures First(a, b) / 4 == a && First(a, b) % 4 == b / 16
  {
    By4(a, b / 16);
  }

  lemma SecondParts(b: sextet, c: sextet)
    ensures Second(b, c) / 16 == b % 16 && Second(b, c) % 16 == c / 4
  {
    By16(b % 16, c / 4);
  }

  lemma ThirdParts(c: sextet, d: sextet)
    ensures Third(c, d) / 64 == c % 4 && Third(c, d) % 64 == d
  {
    By64(c % 4, d);
  }

  /** Four sextets that hold the bits of three bytes decode to them. */
  predicate Split(q: seq<sextet>, a: byte, b: byte, c: byte) {
    && |q| == 4 && q[0] == a / 4 && q[1] / 16 == a % 4 && q[1] % 16 == b / 16
    && q[2] / 4 == b % 16 && q[2] % 4 == c / 64 && q[3] == c % 64
  }

  lemma DecodesAt(ds: seq<sextet>, s: seq<byte>, k: nat)
    requires 4 * k + 4 <= |ds| && 3 * k + 3 <= |s|
    requires Split(ds[4 * k..4 * k + 4], s[3 * k], s[3 * k + 1], s[3 * k + 2])
    ensures Decodes(ds, s, k)
  {
    var q := ds[4 * k..4 * k + 4];
    assert q[0] == ds[4 * k] && q[1] == ds[4 * k + 1] && q[2] == ds[4 * k + 2] && q[3] == ds[4 * k + 3];
    assert s[3 * k..3 * k + 3] == [s[3 * k], s[3 * k + 1], s[3 * k + 2]];
  }

  lemma WholeOfPart(rest: seq<byte>, q: seq<sextet>)
    requires 1 <= |rest| <= 2 && Split(q, rest[0], if |rest| == 2 then rest[1] else 0, 0)
    ensures Whole(q[..|rest| + 1]) == rest
  {
  }

  /** Three bytes that hold the bits of four sextets encode to them. */
  predicate Joins(x: byte, y: byte, z: byte, q: seq<sextet>) {
    && |q| == 4 && x / 4 == q[0] && x % 4 == q[1] / 16 && y / 16 == q[1] % 16 && y % 16 == q[2] / 4
    && z / 64 == q[2] % 4 && z % 64 == q[3]
  }

  lemma EncodesAt(s: seq<byte>, ds: seq<sextet>, k: nat)
    requires 4 * k + 4 <= |ds| && 3 * k + 3 <= |s|
    requires Joins(s[3 * k], s[3 * k + 1], s[3 * k + 2], ds[4 * k..4 * k + 4])
    ensures Encodes(s, ds, k)
  {
  }

  /** A piece of a prefix is a piece of the whole. */
  lemma Within<T>(xs: seq<T>, prefix: seq<T>, lo: nat, hi: nat)
    requires lo <= hi <= |prefix| <= |xs| && xs[..|prefix|] == prefix
    ensures xs[lo..hi] == prefix[lo..hi]
  {
    forall i | lo <= i < hi ensures xs[i] == prefix[i] { assert xs[..|prefix|][i] == xs[i]; }
  }

  lemma TailIsQuantum(rest: seq<byte>)
    ensures |rest| == 1 ==> Tail(rest) == Quantum(rest[0], 0, 0)[..2]
    ensures |rest| == 2 ==> Tail(rest) == Quantum(rest[0], rest[1], 0)[..3]
  {
  }

  /** Decoding the encoding gives the bytes back, whatever padding is put after it. */
  method RoundTrip(s: seq<byte>, padding: nat) returns (back: seq<byte>)
    requires |s| < 0x8000_0000 && |Encoding(s)| + padding < 0x8000_0000
    ensures back == s
  {
    hide Quantum, Quanta, Triples, Tail, Whole, Split, Decodes, Letters;
    var text := Base64Encode(s);
    back := Base64Decode(text + Pads(padding));
    ghost var ds, n := Sextets(s), |s| / 3;
    ghost var rest := s[n * 3..];
    assert ds[..4 * n] == Quanta(s, n) && ds[4 * n..] == Tail(rest);
    assert Whole(Tail(rest)) == rest && |Tail(rest)| < 4 by { WholeOfTail(rest); }
    assert |ds| / 4 == n && ds[n * 4..|ds|] == Tail(rest);
    forall k: nat | k < n ensures Decodes(ds, s, k) {
      QuantaAt(s, n, k);
      Within(ds, Quanta(s, n), 4 * k, 4 * k + 4);
      QuantumParts(s[3 * k], s[3 * k + 1], s[3 * k + 2]);
      DecodesAt(ds, s, k);
    }
    TriplesOfGroups(ds, s, n);
    assert s == s[..3 * n] + rest;
  }

  lemma WholeOfTail(rest: seq<byte>)
    requires |rest| < 3
    ensures Whole(Tail(rest)) == rest && |Tail(rest)| < 4
  {
    hide Quantum, Split;
    TailIsQuantum(rest);
    if |rest| > 0 {
      var b := if |rest| == 2 then rest[1] else 0;
      QuantumParts(rest[0], b, 0);
      WholeOfPart(rest, Quantum(rest[0], b, 0));
    }
  }

  /** No character was cut off and no bits were dropped. */
  predicate Canonical(ds: seq<sextet>) {
    var r := |ds| % 4;
    r != 1 && (r == 2 ==> ds[|ds| - 1] % 16 == 0) && (r == 3 ==> ds[|ds| - 1] % 4 == 0)
  }

  /** Decoding a text and encoding the bytes again gives the text back exactly when it is canonical. */
  method Reencode(ds: seq<sextet>) returns (again: string)
    requires |ds| < 0x8000_0000
    ensures again == Letters(ds) <==> Canonical(ds)
  {
    hide Quantum, Quanta, Triples, Triple, Tail, Canonical, Letters, First, Second, Third, Joins, Encodes, Kept;
    var text := Letters(ds);
    assert text == Letters(ds) + Pads(0);
    var s := Base64Decode(text);
    assert s == Decoding(ds);
    again := Base64Encode(s);
    ReencodeIff(ds);
  }

  lemma ReencodeIff(ds: seq<sextet>)
    ensures Encoding(Decoding(ds)) == Letters(ds) <==> Canonical(ds)
  {
    hide Quantum, Quanta, Triples, Triple, Tail, Canonical, Letters, First, Second, Third, Decoding, Sextets, Whole;
    var s, n := Decoding(ds), |ds| / 4;
    var rest := ds[n * 4..|ds|];
    SextetsAgain(ds);
    SamePrefix(ds[..4 * n], Tail(s[3 * n..]), rest);
    assert ds == ds[..4 * n] + rest;
    if Letters(Sextets(s)) == Letters(ds) { OneReading(Sextets(s), 0, ds, 0); }
    TailAgain(rest, s[3 * n..]);
    TailIff(ds, rest, s[3 * n..]);
  }

  /** Decoding and encoding again keeps the whole groups. */
  lemma SextetsAgain(ds: seq<sextet>)
    ensures var s, n := Decoding(ds), |ds| / 4;
            3 * n <= |s| && s[3 * n..] == Whole(ds[n * 4..|ds|]) && Sextets(s) == ds[..4 * n] + Tail(s[3 * n..])
  {
    hide Quantum, Quanta, Triples, Triple, Tail, First, Second, Third, Kept;
    var s, n := Decoding(ds), |ds| / 4;
    assert s[..3 * n] == Triples(ds, n) && s[3 * n..] == Whole(ds[n * 4..|ds|]) && |s| / 3 == n;
    GroupsEncode(ds, s, n);
  }

  lemma TailAgain(rest: seq<sextet>, tail: seq<byte>)
    requires |rest| < 4 && tail == Whole(rest)
    ensures |tail| == if |rest| < 2 then 0 else |rest| - 1
    ensures |rest| >= 2 ==> tail[0] / 4 == rest[0] && tail[0] % 4 == rest[1] / 16
    ensures |rest| == 3 ==> tail[1] / 16 == rest[1] % 16 && tail[1] % 16 == rest[2] / 4
  {
    hide First, Second;
    if |rest| >= 2 { FirstParts(rest[0], rest[1]); }
    if |rest| == 3 { SecondParts(rest[1], rest[2]); }
  }

  /** The whole groups of three bytes encode to the groups of four they came from. */
  lemma GroupsEncode(ds: seq<sextet>, s: seq<byte>, n: nat)
    requires 4 * n <= |ds| && 3 * n <= |s| && s[..3 * n] == Triples(ds, n)
    ensures Quanta(s, n) == ds[..4 * n]
  {
    hide Quantum, Quanta, Triples, Triple, Joins, Encodes;
    forall k: nat | k < n ensures Encodes(s, ds, k) {
      TriplesAt(ds, n, k);
      Within(s, Triples(ds, n), 3 * k, 3 * k + 3);
      JoinsOfTriple(s, ds, k);
      EncodesAt(s, ds, k);
    }
    QuantaOfGroups(s, ds, n);
  }

  lemma SamePrefix<T>(prefix: seq<T>, xs: seq<T>, ys: seq<T>)
    ensures prefix + xs == prefix + ys <==> xs == ys
  {
    if prefix + xs == prefix + ys {
      assert xs == (prefix + xs)[|prefix|..] == (prefix + ys)[|prefix|..] == ys;
    }
  }

  lemma JoinsOfTriple(s: seq<byte>, ds: seq<sextet>, k: nat)
    requires 4 * k + 4 <= |ds| && 3 * k + 3 <= |s|
    requires s[3 * k..3 * k + 3] == Triple(ds[4 * k], ds[4 * k + 1], ds[4 * k + 2], ds[4 * k + 3])
    ensures Joins(s[3 * k], s[3 * k + 1], s[3 * k + 2], ds[4 * k..4 * k + 4])
  {
    hide First, Second, Third;
    FirstParts(ds[4 * k], ds[4 * k + 1]);
    SecondParts(ds[4 * k + 1], ds[4 * k + 2]);
    ThirdParts(ds[4 * k + 2], ds[4 * k + 3]);
    var t := s[3 * k..3 * k + 3];
    assert s[3 * k] == t[0] && s[3 * k + 1] == t[1] && s[3 * k + 2] == t[2];
  }

  lemma TailIff(ds: seq<sextet>, rest: seq<sextet>, tail: seq<byte>)
    requires |rest| == |ds| % 4 && (rest != [] ==> rest[|rest| - 1] == ds[|ds| - 1])
    requires |tail| == if |rest| < 2 then 0 else |rest| - 1
    requires |rest| >= 2 ==> tail[0] / 4 == rest[0] && tail[0] % 4 == rest[1] / 16
    requires |rest| == 3 ==> tail[1] / 16 == rest[1] % 16 && tail[1] % 16 == rest[2] / 4
    ensures Tail(tail) == rest <==> Canonical(ds)
  {
    assert |rest| < 2 ==> tail == [] && Tail(tail) == [];
    if |rest| == 2 { assert Tail(tail) == [rest[0], rest[1] / 16 * 16] && rest == [rest[0], rest[1]]; }
    if |rest| == 3 {
      assert Tail(tail) == [rest[0], rest[1], rest[2] / 4 * 4] && rest == [rest[0], rest[1], rest[2]];
    }
  }

  /** The j-th eight bits of four sextets, most significant first. */
  function Octet(a: sextet, b: sextet, c: sextet, d: sextet, j: nat): byte
    requires j < 3
  {
    var v := (a as int) * 262144 + (b as int) * 4096 + (c as int) * 64 + d;
    if j == 0 then v / 65536 % 256 else if j == 1 then v / 256 % 256 else v % 256
  }

  lemma FirstOctet(a: sextet, b: sextet, c: sextet, d: sextet)
    ensures Octet(a, b, c, d, 0) == First(a, b)
  {
    var bq: nat, br: nat := b / 16, b % 16;
    By65536(4 * a as int + bq, 4096 * br + 64 * c as int + d);
  }

  lemma SecondOctet(a: sextet, b: sextet, c: sextet, d: sextet)
    ensures Octet(a, b, c, d, 1) == Second(b, c)
  {
    var bq: nat, br: nat, cq: nat, cr: nat := b / 16, b % 16, c / 4, c % 4;
    By256(1024 * a as int + 256 * bq + 16 * br + cq, 64 * cr + d);
    By256(4 * a as int + bq, 16 * br + cq);
  }

  lemma TripleBits(a: sextet, b: sextet, c: sextet, d: sextet)
    ensures forall j :: 0 <= j < 3 ==> Triple(a, b, c, d)[j] == Octet(a, b, c, d, j)
  {
    FirstOctet(a, b, c, d);
    SecondOctet(a, b, c, d);
    ThirdByte(a, b, c, d);
    assert Octet(a, b, c, d, 2) == Third(c, d);
    hide Octet, First, Second, Third;
  }

  /** Eight bits of the sextets from bit 8 * j on, with zero bits after the last. */
  function EightBits(ds: seq<sextet>, j: nat): byte
    requires j / 3 * 4 + 1 < |ds|
  {
    var k := j / 3 * 4;
    Octet(ds[k], ds[k + 1], if k + 2 < |ds| then ds[k + 2] else 0, if k + 3 < |ds| then ds[k + 3] else 0, j % 3)
  }

  lemma TripleGroupAt(ds: seq<sextet>, j: nat)
    requires j / 3 < |ds| / 4
    ensures j < |Decoding(ds)| && Decoding(ds)[j] == EightBits(ds, j)
  {
    hide Octet, Triple, Triples, Whole;
    var n, k := |ds| / 4, j / 3;
    TriplesAt(ds, n, k);
    assert Decoding(ds)[j] == Triples(ds, n)[3 * k..3 * k + 3][j % 3];
    TripleBits(ds[4 * k], ds[4 * k + 1], ds[4 * k + 2], ds[4 * k + 3]);
  }

  lemma WholeAt(ds: seq<sextet>, j: nat)
    requires |ds| / 4 <= j / 3 && j < |Decoding(ds)|
    ensures j / 3 * 4 + 1 < |ds| && Decoding(ds)[j] == EightBits(ds, j)
  {
    hide Octet, Triple, Triples, Whole;
    var rest := ds[|ds| / 4 * 4..|ds|];
    WholeIsTriple(rest);
    assert Decoding(ds) == Triples(ds, |ds| / 4) + Whole(rest);
    assert Decoding(ds)[j] == Whole(rest)[j % 3];
    TripleBits(rest[0], rest[1], if |rest| == 3 then rest[2] else 0, 0);
  }

  lemma WholeIsTriple(rest: seq<sextet>)
    requires |rest| < 4
    ensures |Whole(rest)| == if |rest| < 2 then 0 else |rest| - 1
    ensures |rest| >= 2 ==> Whole(rest) == Triple(rest[0], rest[1], if |rest| == 3 then rest[2] else 0, 0)[..|rest| - 1]
  {
  }

  /** Byte j of a decoding is the j-th eight bits of the letters, whether or not bits are dropped at the end. */
  lemma DecodingAt(ds: seq<sextet>, j: nat)
    requires j < |Decoding(ds)|
    ensures j / 3 * 4 + 1 < |ds| && Decoding(ds)[j] == EightBits(ds, j)
  {
    hide EightBits, Decoding;
    if j / 3 < |ds| / 4 { TripleGroupAt(ds, j); } else { WholeAt(ds, j); }
  }

  lemma DecodingLength(ds: seq<sextet>)
    ensures |Decoding(ds)| == 6 * |ds| / 8
  {
    WholeIsTriple(ds[|ds| / 4 * 4..|ds|]);
  }
}
