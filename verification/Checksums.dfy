/** The checksum recorded with each migration (internal/store/migrate.go, computeChecksum). */
module Checksums {
  import opened Common

  const WORD: int := 0x1_0000_0000

  function Power31(k: nat): nat {
    if k == 0 then 1 else 31 * Power31(k - 1)
  }

  /** The sum of data[i] * 31^(n-1-i). */
  function Polynomial(data: seq<Byte>): nat {
    if data == [] then 0 else data[0] * Power31(|data| - 1) + Polynomial(data[1..])
  }

  lemma {:induction false} PowersMultiply(j: nat, k: nat)
    ensures Power31(j + k) == Power31(j) * Power31(k)
  {
    if j == 0 {
    } else {
      PowersMultiply(j - 1, k);
    }
  }

  lemma Distribute(x: int, p: int, r: int, q: int)
    ensures (x * p + r) * q == x * (p * q) + r * q
  {
  }

  /** The polynomial of a concatenation. */
  lemma {:induction false} PolynomialOfConcat(a: seq<Byte>, b: seq<Byte>)
    ensures Polynomial(a + b) == Polynomial(a) * Power31(|b|) + Polynomial(b)
  {
    if a == [] {
      assert a + b == b;
    } else {
      assert (a + b)[1..] == a[1..] + b;
      PolynomialOfConcat(a[1..], b);
      PowersMultiply(|a| - 1, |b|);
      assert (a + b)[0] == a[0] && |a + b| - 1 == |a| - 1 + |b|;
      Distribute(a[0], Power31(|a| - 1), Polynomial(a[1..]), Power31(|b|));
    }
  }

  /** One more byte multiplies by 31 and adds. */
  lemma OneMoreByte(data: seq<Byte>, b: Byte)
    ensures Polynomial([]) == 0 && Polynomial(data + [b]) == 31 * Polynomial(data) + b
  {
    PolynomialOfConcat(data, [b]);
    assert Power31(1) == 31 * Power31(0);
    assert Polynomial([b]) == b * Power31(0) + Polynomial([]);
  }

  /** What the uint32 accumulator holds after the loop. */
  function Sum(data: seq<Byte>): nat {
    Polynomial(data) % WORD
  }

  lemma ModAddsMultiples(t: nat, k: nat)
    ensures (WORD * k + t) % WORD == t % WORD
  {
    assert t == WORD * (t / WORD) + t % WORD;
    assert WORD * k + t == WORD * (k + t / WORD) + t % WORD;
  }

  lemma ReducedStep(x: nat, b: nat)
    ensures (x % WORD * 31 + b) % WORD == (x * 31 + b) % WORD
  {
    var q, r := x / WORD, x % WORD;
    var t := r * 31 + b;
    assert x == WORD * q + r;
    assert x * 31 + b == WORD * (31 * q) + t;
    ModAddsMultiples(t, 31 * q);
  }

  lemma ProductModWord(x: nat, y: nat, z: nat)
    ensures (x % WORD * y + z % WORD) % WORD == (x * y + z) % WORD
  {
    var q, r := x / WORD, x % WORD;
    var p, u := z / WORD, z % WORD;
    assert x == WORD * q + r && z == WORD * p + u;
    assert x * y == WORD * (q * y) + r * y;
    var t := r * y + u;
    assert x * y + z == WORD * (q * y + p) + t;
    ModAddsMultiples(t, q * y + p);
  }

  /** Checksums compose modulo 2^32. */
  lemma {:induction false} SumOfConcat(a: seq<Byte>, b: seq<Byte>)
    ensures Sum(a + b) == (Sum(a) * Power31(|b|) + Sum(b)) % WORD
  {
    PolynomialOfConcat(a, b);
    ProductModWord(Polynomial(a), Power31(|b|), Polynomial(b));
  }

  // ----- The %08x form -----

  const HEX := "0123456789abcdef"

  function Hex(x: nat, width: nat): (s: string)
    ensures |s| == width
  {
    if width == 0 then [] else Hex(x / 16, width - 1) + [HEX[x % 16]]
  }

  predicate IsHexDigit(c: char) {
    '0' <= c <= '9' || 'a' <= c <= 'f'
  }

  function HexDigitValue(c: char): nat
    requires IsHexDigit(c)
  {
    if c <= '9' then c as int - '0' as int else c as int - 'a' as int + 10
  }

  function HexValue(s: string): nat
    requires forall i :: 0 <= i < |s| ==> IsHexDigit(s[i])
  {
    if s == [] then 0 else 16 * HexValue(s[..|s| - 1]) + HexDigitValue(s[|s| - 1])
  }

  function Power16(k: nat): nat {
    if k == 0 then 1 else 16 * Power16(k - 1)
  }

  lemma {:induction false} HexDecodes(x: nat, width: nat)
    requires x < Power16(width)
    ensures forall i :: 0 <= i < width ==> IsHexDigit(Hex(x, width)[i])
    ensures HexValue(Hex(x, width)) == x
  {
    if width == 0 {
    } else {
      HexDecodes(x / 16, width - 1);
      var s := Hex(x, width);
      assert s[..width - 1] == Hex(x / 16, width - 1);
      assert IsHexDigit(HEX[x % 16]) && HexDigitValue(HEX[x % 16]) == x % 16;
    }
  }

  /** The recorded text. */
  function ChecksumOf(data: seq<Byte>): string {
    Hex(Sum(data), 8)
  }

  /** The recorded text is eight lower-case hex digits whose value is the base-31 polynomial modulo 2^32. */
  lemma ChecksumDecodes(data: seq<Byte>)
    ensures |ChecksumOf(data)| == 8
    ensures forall i :: 0 <= i < 8 ==> IsHexDigit(ChecksumOf(data)[i])
    ensures HexValue(ChecksumOf(data)) == Polynomial(data) % 0x1_0000_0000
  {
    assert Power16(8) == WORD;
    HexDecodes(Sum(data), 8);
  }

  /** The loop of the source, with its 32-bit wrap-around. */
  method ComputeChecksum(data: seq<Byte>) returns (text: string)
    ensures text == ChecksumOf(data)
    ensures |text| == 8 && (forall i :: 0 <= i < 8 ==> IsHexDigit(text[i]))
    ensures HexValue(text) == Polynomial(data) % 0x1_0000_0000
  {
    var sum: nat := 0;
    for i := 0 to |data|
      invariant sum == Sum(data[..i])
    {
      assert data[..i + 1] == data[..i] + [data[i]];
      OneMoreByte(data[..i], data[i]);
      ReducedStep(Polynomial(data[..i]), data[i]);
      sum := (sum * 31 + data[i]) % WORD;
    }
    assert data[..|data|] == data;
    text := Hex(sum, 8);
    ChecksumDecodes(data);
  }
}
