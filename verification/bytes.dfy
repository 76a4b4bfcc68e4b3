/** Byte strings and the Java integer conversions the discovery code relies on.

    The library's `ByteUtils.byteArrayToLong` and `ByteUtils.intToByteArray`
    are not modelled from their code; they are taken here as big-endian unsigned
    decoding and 4-byte big-endian two's-complement encoding. Java's `int`
    cast and its truncating `/` are written out explicitly. */
module ByteUtils {

  type byte = b: int | 0 <= b < 256
  type Bytes = seq<byte>

  /** Java `int` and `long` value ranges. */
  type int32 = x: int | -0x8000_0000 <= x < 0x8000_0000
  type int64 = x: int | -0x8000_0000_0000_0000 <= x < 0x8000_0000_0000_0000

  const TWO_32: nat := 0x1_0000_0000

  function Pow256(n: nat): (p: nat)
    ensures p >= 1
  {
    if n == 0 then 1 else 256 * Pow256(n - 1)
  }

  /** Unsigned big-endian value of a byte string. */
  function BeValue(s: Bytes): (v: nat)
    ensures v < Pow256(|s|)
  {
    if |s| == 0 then 0
    else
      var high := BeValue(s[..|s| - 1]);
      assert high * 256 <= (Pow256(|s| - 1) - 1) * 256;
      high * 256 + s[|s| - 1]
  }

  /** The `n`-byte big-endian encoding of `v`, keeping its low `n` bytes. */
  function BeBytes(v: nat, n: nat): (s: Bytes)
    ensures |s| == n
  {
    if n == 0 then [] else BeBytes(v / 256, n - 1) + [v % 256]
  }

  /** Encoding a value that fits in `n` bytes and decoding it gives it back. */
  lemma {:induction false} BeValueOfBeBytes(v: nat, n: nat)
    requires v < Pow256(n)
    ensures BeValue(BeBytes(v, n)) == v
  {
    if n > 0 {
      var s := BeBytes(v, n);
      assert v / 256 < Pow256(n - 1);
      BeValueOfBeBytes(v / 256, n - 1);
      assert s[..n - 1] == BeBytes(v / 256, n - 1);
    }
  }

  /** Decoding a byte string and re-encoding it at the same width gives it back. */
  lemma {:induction false} BeBytesOfBeValue(s: Bytes)
    ensures BeBytes(BeValue(s), |s|) == s
  {
    if |s| > 0 {
      var n := |s|;
      var v := BeValue(s);
      var high := BeValue(s[..n - 1]);
      assert v == high * 256 + s[n - 1];
      assert v / 256 == high && v % 256 == s[n - 1];
      BeBytesOfBeValue(s[..n - 1]);
      assert s == s[..n - 1] + [s[n - 1]];
    }
  }

  /** Java's narrowing cast `(int) x`: keeps the low 32 bits, two's complement. */
  function ToInt32(x: int): (r: int32)
    ensures (r - x) % TWO_32 == 0
    ensures -0x8000_0000 <= x < 0x8000_0000 ==> r == x
  {
    (x + 0x8000_0000) % TWO_32 - 0x8000_0000
  }

  /** Java's integer division, which truncates toward zero. */
  function JavaDiv(a: int, b: int): (q: int)
    requires b > 0
    ensures a >= 0 ==> 0 <= a - q * b < b
    ensures a < 0 ==> -b < a - q * b <= 0
  {
    if a >= 0 then a / b else -((-a) / b)
  }

  /** `ByteUtils.intToByteArray`: the four bytes of a Java `int`, most significant first. */
  function IntToByteArray(i: int32): (s: Bytes)
    ensures |s| == 4
    ensures BeValue(s) == i % TWO_32
    ensures i >= 0 ==> BeValue(s) == i
  {
    assert Pow256(4) == TWO_32;
    BeValueOfBeBytes(i % TWO_32, 4);
    BeBytes(i % TWO_32, 4)
  }
}
