/** The browser's `btoa` and `atob`: the base64 encoding of section 4 of RFC 4648
    over "binary strings" (strings whose code units are byte values), and the
    forgiving-base64 decode algorithm of the WHATWG Infra Standard that `atob` runs. */
module Base64 {
  import opened Wrappers

  type byte = x: int | 0 <= x < 256
  type sextet = x: int | 0 <= x < 64

  /** The character the RFC 4648 alphabet assigns to a 6-bit value. */
  function Char(v: sextet): (c: char)
    ensures Value(c) == Some(v)
  {
    if v < 26 then ('A' as int + v) as char
    else if v < 52 then ('a' as int + (v - 26)) as char
    else if v < 62 then ('0' as int + (v - 52)) as char
    else if v == 62 then '+'
    else '/'
  }

  /** The 6-bit value of an alphabet character; None for every other character,
      the padding character `=` and whitespace included. */
  function Value(c: char): (r: Option<sextet>)
  {
    if 'A' <= c <= 'Z' then Some(c as int - 'A' as int)
    else if 'a' <= c <= 'z' then Some(c as int - 'a' as int + 26)
    else if '0' <= c <= '9' then Some(c as int - '0' as int + 52)
    else if c == '+' then Some(62)
    else if c == '/' then Some(63)
    else None
  }

  lemma CharOfValue(c: char)
    requires Value(c).Some?
    ensures Char(Value(c).value) == c
  {
  }

  // ---------------------------------------------------------------- encoding

  /** Three bytes (24 bits, most significant first) as four 6-bit groups. */
  function Split(x: byte, y: byte, z: byte): (g: seq<sextet>)
    ensures |g| == 4
  {
    [x / 4, x % 4 * 16 + y / 16, y % 16 * 4 + z / 64, z % 64]
  }

  /** Four 6-bit groups as three bytes; the inverse of Split. */
  function Join(a: sextet, b: sextet, c: sextet, d: sextet): (t: seq<byte>)
    ensures |t| == 3
  {
    [a * 4 + b / 16, b % 16 * 16 + c / 4, c % 4 * 64 + d]
  }

  /** The 6-bit groups of a byte sequence: three bytes give four groups, a final
      one or two bytes give two or three groups whose low bits are zero. */
  function ToSextets(b: seq<byte>): (v: seq<sextet>)
    decreases |b|
  {
    if |b| == 0 then []
    else if |b| == 1 then Split(b[0], 0, 0)[..2]
    else if |b| == 2 then Split(b[0], b[1], 0)[..3]
    else Split(b[0], b[1], b[2]) + ToSextets(b[3..])
  }

  function Chars(v: seq<sextet>): (s: string)
    ensures |s| == |v|
    ensures forall i :: 0 <= i < |s| ==> Value(s[i]) == Some(v[i])
  {
    seq(|v|, i requires 0 <= i < |v| => Char(v[i]))
  }

  /** The `=` characters that complete the last group of four. */
  function Padding(n: nat): (p: string)
  {
    if n % 3 == 1 then "==" else if n % 3 == 2 then "=" else ""
  }

  /** Base64 of a byte sequence, padded (RFC 4648 section 4). */
  function Encode(b: seq<byte>): (s: string)
  {
    Chars(ToSextets(b)) + Padding(|b|)
  }

  /** The groups of a final one or two bytes are what is left over modulo 4. */
  lemma {:induction false} GroupRemainder(b: seq<byte>)
    ensures |ToSextets(b)| % 4 == if |b| % 3 == 0 then 0 else |b| % 3 + 1
    decreases |b|
  {
    if |b| >= 3 {
      GroupRemainder(b[3..]);
      assert |ToSextets(b)| == 4 + |ToSextets(b[3..])|;
      assert |b| % 3 == |b[3..]| % 3;
    }
  }

  /** Base64 of n bytes has 4 * ceil(n / 3) characters. */
  lemma EncodedLength(b: seq<byte>)
    ensures |Encode(b)| == 4 * ((|b| + 2) / 3)
  {
    SextetCount(b);
  }

  /** Every three bytes give four groups; a final one or two bytes give two or three. */
  lemma {:induction false} SextetCount(b: seq<byte>)
    ensures |ToSextets(b)| == 4 * (|b| / 3) + if |b| % 3 == 0 then 0 else |b| % 3 + 1
    decreases |b|
  {
    if |b| >= 3 {
      SextetCount(b[3..]);
      assert |b[3..]| / 3 == |b| / 3 - 1 && |b[3..]| % 3 == |b| % 3;
    }
  }

  // ---------------------------------------------------------------- decoding

  /** The bytes carried by a sequence of 6-bit groups; a final group of two or
      three carries one or two bytes and its leftover bits are dropped. A lone
      final group carries no byte (`atob` refuses that length beforehand). */
  function FromSextets(v: seq<sextet>): (b: seq<byte>)
    ensures |v| == 0 ==> b == []
    decreases |v|
  {
    if |v| <= 1 then []
    else if |v| == 2 then Join(v[0], v[1], 0, 0)[..1]
    else if |v| == 3 then Join(v[0], v[1], v[2], 0)[..2]
    else Join(v[0], v[1], v[2], v[3]) + FromSextets(v[4..])
  }

  /** ASCII whitespace as the Infra Standard defines it: TAB, LF, FF, CR, SPACE. */
  predicate IsAsciiWhitespace(c: char)
  {
    c == '\t' || c == '\n' || c as int == 12 || c == '\r' || c == ' '
  }

  function StripWhitespace(s: string): (r: string)
    ensures |r| <= |s|
    ensures forall i :: 0 <= i < |r| ==> !IsAsciiWhitespace(r[i])
  {
    if s == [] then []
    else (if IsAsciiWhitespace(s[0]) then [] else [s[0]]) + StripWhitespace(s[1..])
  }

  /** When the length is a multiple of four, one or two trailing `=` are removed. */
  function StripPadding(s: string): (r: string)
  {
    if |s| % 4 == 0 && |s| >= 2 && s[|s| - 2] == '=' && s[|s| - 1] == '=' then s[..|s| - 2]
    else if |s| % 4 == 0 && |s| >= 1 && s[|s| - 1] == '=' then s[..|s| - 1]
    else s
  }

  predicate AllAlphabet(s: string)
  {
    forall i :: 0 <= i < |s| ==> Value(s[i]).Some?
  }

  function Values(s: string): (v: seq<sextet>)
    requires AllAlphabet(s)
    ensures |v| == |s|
  {
    seq(|s|, i requires 0 <= i < |s| => Value(s[i]).value)
  }

  /** A string whose code units are the given bytes. */
  function Binary(b: seq<byte>): (s: string)
    ensures |s| == |b|
    ensures forall i :: 0 <= i < |s| ==> s[i] as int == b[i]
  {
    seq(|b|, i requires 0 <= i < |b| => b[i] as char)
  }

  predicate IsBinary(s: string)
  {
    forall i :: 0 <= i < |s| ==> s[i] as int < 256
  }

  /** The byte values of a binary string's code units (`charCodeAt`). */
  function Codes(s: string): (b: seq<byte>)
    requires IsBinary(s)
    ensures |b| == |s|
    ensures Binary(b) == s
  {
    seq(|s|, i requires 0 <= i < |s| => s[i] as int)
  }

  /** `btoa`: fails (InvalidCharacterError) when a code unit exceeds 255. */
  function Btoa(input: string): (r: Option<string>)
    ensures r.Some? <==> IsBinary(input)
  {
    if IsBinary(input) then Some(Encode(Codes(input))) else None
  }

  /** `atob`: the forgiving-base64 decode. Fails (InvalidCharacterError) when,
      after whitespace and padding are removed, the length leaves remainder 1
      modulo 4 or a character outside the alphabet remains. */
  function Atob(data: string): (r: Option<string>)
    ensures r.Some? ==> IsBinary(r.value)
  {
    var s := StripPadding(StripWhitespace(data));
    if |s| % 4 == 1 || !AllAlphabet(s) then None
    else Some(Binary(FromSextets(Values(s))))
  }

  // ---------------------------------------------------------------- round trip

  lemma GroupRoundTrip(x: byte, y: byte, z: byte)
    ensures var g := Split(x, y, z); Join(g[0], g[1], g[2], g[3]) == [x, y, z]
  {
  }

  /** Decoding the 6-bit groups of a byte sequence gives the bytes back. */
  lemma {:induction false} SextetsRoundTrip(b: seq<byte>)
    ensures FromSextets(ToSextets(b)) == b
    decreases |b|
  {
    if |b| == 1 {
      OneByteRoundTrip(b[0]);
    } else if |b| == 2 {
      TwoBytesRoundTrip(b[0], b[1]);
    } else if |b| >= 3 {
      SextetsRoundTrip(b[3..]);
      FullGroupRoundTrip(b);
    }
  }

  /** A final single byte travels in two groups. */
  lemma OneByteRoundTrip(x: byte)
    ensures FromSextets(ToSextets([x])) == [x]
  {
    GroupRoundTrip(x, 0, 0);
    var g := Split(x, 0, 0);
    assert ToSextets([x]) == g[..2];
    assert FromSextets(g[..2]) == Join(g[0], g[1], 0, 0)[..1];
  }

  /** A final pair of bytes travels in three groups. */
  lemma TwoBytesRoundTrip(x: byte, y: byte)
    ensures FromSextets(ToSextets([x, y])) == [x, y]
  {
    GroupRoundTrip(x, y, 0);
    var g := Split(x, y, 0);
    assert ToSextets([x, y]) == g[..3];
    assert FromSextets(g[..3]) == Join(g[0], g[1], g[2], 0)[..2];
  }

  /** One full group: decoding the first four 6-bit groups gives the first three
      bytes, and the rest decodes on its own. */
  lemma FullGroupRoundTrip(b: seq<byte>)
    requires |b| >= 3
    requires FromSextets(ToSextets(b[3..])) == b[3..]
    ensures FromSextets(ToSextets(b)) == b
  {
    var g := Split(b[0], b[1], b[2]);
    var v := ToSextets(b);
    assert v == g + ToSextets(b[3..]);
    assert v[..4] == g && v[4..] == ToSextets(b[3..]);
    FromSextetsStep(v);
    GroupRoundTrip(b[0], b[1], b[2]);
    HeadGroup(b);
  }

  lemma HeadGroup(b: seq<byte>)
    requires |b| >= 3
    ensures b == [b[0], b[1], b[2]] + b[3..]
  {
  }

  lemma FromSextetsStep(v: seq<sextet>)
    requires |v| >= 4
    ensures FromSextets(v) == Join(v[0], v[1], v[2], v[3]) + FromSextets(v[4..])
  {
  }

  lemma {:induction false} StripWhitespaceNone(s: string)
    requires forall i :: 0 <= i < |s| ==> !IsAsciiWhitespace(s[i])
    ensures StripWhitespace(s) == s
  {
    if s != [] {
      StripWhitespaceNone(s[1..]);
    }
  }

  /** The padding of an encoding is exactly what the decoder strips. */
  lemma StripPaddingOfEncode(b: seq<byte>)
    ensures StripPadding(Encode(b)) == Chars(ToSextets(b))
  {
    GroupRemainder(b);
    if |b| % 3 == 0 {
      StripNoPadding(ToSextets(b));
    } else if |b| % 3 == 1 {
      StripTwoPadding(ToSextets(b));
    } else {
      StripOnePadding(ToSextets(b));
    }
  }

  /** The last character of an encoded group is never `=`. */
  lemma LastIsAlphabet(v: seq<sextet>)
    requires |v| > 0
    ensures Chars(v)[|v| - 1] != '='
  {
    assert Value(Chars(v)[|v| - 1]).Some?;
  }

  lemma StripNoPadding(v: seq<sextet>)
    requires |v| % 4 == 0
    ensures StripPadding(Chars(v)) == Chars(v)
  {
    if |v| > 0 {
      LastIsAlphabet(v);
    }
  }

  lemma StripTwoPadding(v: seq<sextet>)
    requires |v| % 4 == 2
    ensures StripPadding(Chars(v) + "==") == Chars(v)
  {
    var s := Chars(v) + "==";
    assert s[..|s| - 2] == Chars(v);
  }

  lemma StripOnePadding(v: seq<sextet>)
    requires |v| % 4 == 3
    ensures StripPadding(Chars(v) + "=") == Chars(v)
  {
    var u := Chars(v);
    var s := u + "=";
    LastIsAlphabet(v);
    assert s[|s| - 2] == u[|u| - 1];
    assert s[..|s| - 1] == u;
  }

  /** `atob` inverts `btoa` on every binary string. */
  lemma AtobInvertsBtoa(b: seq<byte>)
    ensures Btoa(Binary(b)) == Some(Encode(b))
    ensures Atob(Encode(b)) == Some(Binary(b))
  {
    assert Codes(Binary(b)) == b;
    var v := ToSextets(b);
    EncodeHasNoWhitespace(b);
    StripWhitespaceNone(Encode(b));
    StripPaddingOfEncode(b);
    GroupRemainder(b);
    AtobOfChars(Encode(b), v);
    SextetsRoundTrip(b);
  }

  lemma EncodeHasNoWhitespace(b: seq<byte>)
    ensures forall i :: 0 <= i < |Encode(b)| ==> !IsAsciiWhitespace(Encode(b)[i])
  {
    var u := Chars(ToSextets(b));
    var s := Encode(b);
    assert s == u + Padding(|b|);
    forall i | 0 <= i < |s| ensures !IsAsciiWhitespace(s[i]) {
      if i < |u| {
        assert Value(s[i]).Some?;
      } else {
        assert s[i] == '=';
      }
    }
  }

  /** Input that is, once cleaned, the characters of some 6-bit groups decodes
      to the bytes those groups carry. */
  lemma AtobOfChars(data: string, v: seq<sextet>)
    requires StripPadding(StripWhitespace(data)) == Chars(v)
    requires |v| % 4 != 1
    ensures Atob(data) == Some(Binary(FromSextets(v)))
  {
    var u := Chars(v);
    assert AllAlphabet(u);
    assert Values(u) == v;
  }
}
