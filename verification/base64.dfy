/** The base64 encoding of section 4 of RFC 4648 ("Base 64 Encoding"), as
 *  Python's `base64.b64encode` produces it: the standard 64-character
 *  alphabet, every 3 bytes as 4 characters, and a final group of 1 or 2
 *  bytes padded with "==" or "=". Decoding is the inverse on every encoded
 *  text. */
module Base64 {
  import opened Wrappers

  newtype byte = x: int | 0 <= x < 256

  /** A 6-bit group. */
  type Sextet = i: int | 0 <= i < 64

  /** Table 1 of RFC 4648: A-Z, a-z, 0-9, "+", "/". */
  function Alphabet(i: Sextet): (c: char)
    ensures c != '='
  {
    if i < 26 then (65 + i) as char
    else if i < 52 then (97 + i - 26) as char
    else if i < 62 then (48 + i - 52) as char
    else if i == 62 then '+'
    else '/'
  }

  /** The value of an alphabet character; `None` for any other character. */
  function SextetOf(c: char): (r: Option<Sextet>)
    ensures r.Some? ==> Alphabet(r.value) == c
  {
    if 'A' <= c <= 'Z' then Some(c as int - 65)
    else if 'a' <= c <= 'z' then Some(c as int - 97 + 26)
    else if '0' <= c <= '9' then Some(c as int - 48 + 52)
    else if c == '+' then Some(62)
    else if c == '/' then Some(63)
    else None
  }

  /** Each character of the alphabet stands for exactly one sextet. */
  lemma SextetOfAlphabet(i: Sextet)
    ensures SextetOf(Alphabet(i)) == Some(i)
  {
  }

  // ---------------------------------------------------------------------------
  // Encoding

  /** Three bytes, 24 bits, as four sextets, most significant first. */
  function Quad(a: byte, b: byte, c: byte): string
  {
    [Alphabet(a as int / 4), Alphabet(a as int % 4 * 16 + b as int / 16),
     Alphabet(b as int % 16 * 4 + c as int / 64), Alphabet(c as int % 64)]
  }

  /** `base64.b64encode(data)`. */
  function Encode(data: seq<byte>): (r: string)
    ensures |r| == (|data| + 2) / 3 * 4
    ensures forall i :: 0 <= i < |r| && r[i] == '=' ==> i >= |r| - 2
  {
    if |data| == 0 then ""
    else if |data| == 1 then
      [Alphabet(data[0] as int / 4), Alphabet(data[0] as int % 4 * 16), '=', '=']
    else if |data| == 2 then
      [Alphabet(data[0] as int / 4), Alphabet(data[0] as int % 4 * 16 + data[1] as int / 16),
       Alphabet(data[1] as int % 16 * 4), '=']
    else Quad(data[0], data[1], data[2]) + Encode(data[3..])
  }

  // ---------------------------------------------------------------------------
  // Decoding

  /** One group of four characters: "xx==" is one byte, "xxx=" two, and
   *  "xxxx" three; any other character is an error. */
  function DecodeGroup(q: string): (r: Option<seq<byte>>)
    requires |q| == 4
    ensures r.Some? ==> 1 <= |r.value| <= 3
  {
    var s0, s1 := SextetOf(q[0]), SextetOf(q[1]);
    if s0.None? || s1.None? then None
    else if q[2] == '=' then
      if q[3] == '=' then Some([(s0.value * 4 + s1.value / 16) as byte]) else None
    else
      var s2 := SextetOf(q[2]);
      if s2.None? then None
      else if q[3] == '=' then
        Some([(s0.value * 4 + s1.value / 16) as byte, (s1.value % 16 * 16 + s2.value / 4) as byte])
      else
        var s3 := SextetOf(q[3]);
        if s3.None? then None
        else Some([(s0.value * 4 + s1.value / 16) as byte, (s1.value % 16 * 16 + s2.value / 4) as byte,
                   (s2.value % 4 * 64 + s3.value) as byte])
  }

  /** The inverse of `Encode`: the text must be whole groups of four, with
   *  padding only in the last group. */
  function Decode(text: string): (r: Option<seq<byte>>)
    decreases |text|
  {
    if |text| == 0 then Some([])
    else if |text| < 4 then None
    else
      var head := DecodeGroup(text[..4]);
      if head.None? then None
      else if |text| == 4 then head
      else if |head.value| < 3 then None
      else
        var rest := Decode(text[4..]);
        if rest.None? then None else Some(head.value + rest.value)
  }

  // ---------------------------------------------------------------------------
  // Properties

  /** `hi` and `lo` packed as `hi * m + lo` come apart again. */
  lemma Unpack(hi: int, lo: int, m: int)
    requires m in {4, 16, 64} && 0 <= lo < m
    ensures (hi * m + lo) / m == hi && (hi * m + lo) % m == lo
  {
  }

  /** Three bytes survive a group. */
  lemma QuadRoundTrip(a: byte, b: byte, c: byte)
    ensures DecodeGroup(Quad(a, b, c)) == Some([a, b, c])
  {
    var s0: Sextet, s1: Sextet := a as int / 4, a as int % 4 * 16 + b as int / 16;
    var s2: Sextet, s3: Sextet := b as int % 16 * 4 + c as int / 64, c as int % 64;
    Unpack(a as int % 4, b as int / 16, 16);
    Unpack(b as int % 16, c as int / 64, 4);
    SextetOfAlphabet(s0);
    SextetOfAlphabet(s1);
    SextetOfAlphabet(s2);
    SextetOfAlphabet(s3);
    assert s0 * 4 + s1 / 16 == a as int;
    assert s1 % 16 * 16 + s2 / 4 == b as int;
    assert s2 % 4 * 64 + s3 == c as int;
  }

  /** A final byte survives its "xx==" group. */
  lemma OneRoundTrip(a: byte)
    ensures Decode(Encode([a])) == Some([a])
  {
    var s0: Sextet, s1: Sextet := a as int / 4, a as int % 4 * 16;
    Unpack(a as int % 4, 0, 16);
    SextetOfAlphabet(s0);
    SextetOfAlphabet(s1);
    assert Encode([a])[..4] == Encode([a]);
  }

  /** Two final bytes survive their "xxx=" group. */
  lemma TwoRoundTrip(a: byte, b: byte)
    ensures Decode(Encode([a, b])) == Some([a, b])
  {
    var s0: Sextet, s1: Sextet := a as int / 4, a as int % 4 * 16 + b as int / 16;
    var s2: Sextet := b as int % 16 * 4;
    Unpack(a as int % 4, b as int / 16, 16);
    Unpack(b as int % 16, 0, 4);
    SextetOfAlphabet(s0);
    SextetOfAlphabet(s1);
    SextetOfAlphabet(s2);
    assert s0 * 4 + s1 / 16 == a as int;
    assert s1 % 16 * 16 + s2 / 4 == b as int;
    assert Encode([a, b])[..4] == Encode([a, b]);
  }

  /** A full group in front of a decodable text adds its three bytes in
   *  front of the decoded text. */
  lemma DecodeStep(q: string, tail: string, g: seq<byte>)
    requires |q| == 4 && DecodeGroup(q) == Some(g) && |g| == 3
    requires Decode(tail).Some?
    ensures Decode(q + tail) == Some(g + Decode(tail).value)
  {
    assert (q + tail)[..4] == q;
    assert (q + tail)[4..] == tail;
    if tail == [] {
      assert q + tail == q;
      assert g + [] == g;
    }
  }

  /** Decoding an encoding gives back exactly the bytes. */
  lemma {:induction false} RoundTrip(data: seq<byte>)
    ensures Decode(Encode(data)) == Some(data)
    decreases |data|
  {
    if |data| == 1 {
      OneRoundTrip(data[0]);
      assert data == [data[0]];
    } else if |data| == 2 {
      TwoRoundTrip(data[0], data[1]);
      assert data == [data[0], data[1]];
    } else if |data| >= 3 {
      RoundTrip(data[3..]);
      GroupRoundTrip(data);
    }
  }

  /** One full group in front of a tail that round-trips. */
  lemma GroupRoundTrip(data: seq<byte>)
    requires |data| >= 3 && Decode(Encode(data[3..])) == Some(data[3..])
    ensures Decode(Encode(data)) == Some(data)
  {
    var q := EncodeGroup(data);
    DecodeStep(q, Encode(data[3..]), data[..3]);
    TakeDrop(data, 3);
  }

  lemma TakeDrop(s: seq<byte>, n: nat)
    requires n <= |s|
    ensures s[..n] + s[n..] == s
  {
  }

  /** A text of three or more bytes starts with a group that decodes to its
   *  first three. */
  lemma EncodeGroup(data: seq<byte>) returns (q: string)
    requires |data| >= 3
    ensures |q| == 4 && DecodeGroup(q) == Some(data[..3])
    ensures Encode(data) == q + Encode(data[3..])
  {
    q := Quad(data[0], data[1], data[2]);
    QuadRoundTrip(data[0], data[1], data[2]);
    assert data[..3] == [data[0], data[1], data[2]];
  }

  /** Encoding is one-to-one: different byte strings never share a
   *  payload. */
  lemma Injective(a: seq<byte>, b: seq<byte>)
    requires Encode(a) == Encode(b)
    ensures a == b
  {
    RoundTrip(a);
    RoundTrip(b);
  }

  /** The examples of section 10 of RFC 4648. */
  lemma TestVectors()
    ensures Encode([]) == ""
    ensures Encode([102]) == "Zg=="
    ensures Encode([102, 111]) == "Zm8="
    ensures Encode([102, 111, 111]) == "Zm9v"
    ensures Encode([102, 111, 111, 98]) == "Zm9vYg=="
  {
    assert [102, 111, 111, 98][3..] == [98 as byte];
  }
}
