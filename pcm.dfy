/** 16-bit PCM samples: the ECMAScript conversion a store into an `Int16Array`
    performs, and the little-endian byte layout of an `Int16Array`'s buffer. */
module Pcm {
  import opened Base64

  type int16 = x: int | -32768 <= x < 32768

  /** ECMAScript ToIntegerOrInfinity on a finite number: truncation toward zero. */
  function Trunc(x: real): (n: int)
    ensures 0.0 <= x ==> n as real <= x < n as real + 1.0
    ensures x < 0.0 ==> n as real - 1.0 < x <= n as real
  {
    if x >= 0.0 then x.Floor else -((-x).Floor)
  }

  /** ECMAScript ToInt16 (ECMA-262 section 7.1.8) on an integer: the one 16-bit
      value congruent to `n` modulo 2^16; no clamping. */
  function ToInt16(n: int): (r: int16)
    ensures (n - r) % 65536 == 0
    ensures -32768 <= n < 32768 ==> r == n
  {
    var m := n % 65536;
    if m >= 32768 then m - 65536 else m
  }

  /** The value `int16[i] = x * 32768` stores for a sample `x`. Multiplying a
      float32 by 2^15 is exact, so the product is the real one. */
  function Quantize(x: real): (q: int16)
  {
    ToInt16(Trunc(x * 32768.0))
  }

  /** The sample a stored 16-bit value is read back as, `v / 32768.0`; a
      float32 holds every such quotient exactly. */
  function ToFloat(v: int16): (r: real)
    ensures -1.0 <= r < 1.0
    ensures r * 32768.0 == v as real
  {
    v as real / 32768.0
  }

  /** On [-1, 1) the conversion does not wrap, and reading the stored value back
      gives the sample to within one quantization step. */
  lemma QuantizeRoundTrip(x: real)
    requires -1.0 <= x < 1.0
    ensures Quantize(x) == Trunc(x * 32768.0)
    ensures -1.0 / 32768.0 < ToFloat(Quantize(x)) - x < 1.0 / 32768.0
  {
    var y := x * 32768.0;
    var n := Trunc(y);
    assert -32768 <= n < 32768;
    assert ToFloat(n) - x == (n as real - y) / 32768.0;
  }

  /** A full-scale positive sample wraps to full-scale negative. */
  lemma FullScaleWraps()
    ensures Quantize(1.0) == -32768
    ensures ToFloat(Quantize(1.0)) == -1.0
  {
    assert Trunc(32768.0) == 32768;
  }

  /** The two's-complement bit pattern of a 16-bit value. */
  function Unsigned(v: int16): (u: int)
    ensures 0 <= u < 65536
    ensures (u - v) % 65536 == 0
  {
    if v < 0 then v + 65536 else v
  }

  /** The bytes of an `Int16Array`'s buffer (viewed through a `Uint8Array`):
      each value takes two bytes, low byte first. */
  function LittleEndian(ws: seq<int16>): (bytes: seq<byte>)
    ensures |bytes| == 2 * |ws|
  {
    if ws == [] then []
    else [Unsigned(ws[0]) % 256, Unsigned(ws[0]) / 256] + LittleEndian(ws[1..])
  }

  /** Element `j` of an `Int16Array` laid over little-endian bytes. */
  function ReadInt16(bytes: seq<byte>, j: nat): (w: int16)
    requires 2 * j + 1 < |bytes|
  {
    var u: int := bytes[2 * j] as int + 256 * bytes[2 * j + 1] as int;
    if u >= 32768 then u - 65536 else u
  }

  /** `new Int16Array(buffer)` over a buffer of even length. */
  function Int16View(bytes: seq<byte>): (ws: seq<int16>)
    requires |bytes| % 2 == 0
    ensures |ws| == |bytes| / 2
  {
    seq(|bytes| / 2, j requires 0 <= j < |bytes| / 2 => ReadInt16(bytes, j))
  }

  /** Value `j` occupies bytes `2j` (low) and `2j + 1` (high). */
  lemma {:induction false} LittleEndianAt(ws: seq<int16>, j: nat)
    requires j < |ws|
    ensures LittleEndian(ws)[2 * j] == Unsigned(ws[j]) % 256
    ensures LittleEndian(ws)[2 * j + 1] == Unsigned(ws[j]) / 256
  {
    if j > 0 {
      LittleEndianAt(ws[1..], j - 1);
    }
  }

  /** Reading a little-endian buffer back as `Int16Array` gives every value that
      was written. */
  lemma ReadBack(ws: seq<int16>)
    ensures Int16View(LittleEndian(ws)) == ws
  {
    var bytes := LittleEndian(ws);
    forall j | 0 <= j < |ws| ensures ReadInt16(bytes, j) == ws[j] {
      LittleEndianAt(ws, j);
    }
  }
}
