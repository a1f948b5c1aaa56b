/**
 * The "base64url" alphabet of RFC 4648, section 5, without padding: what Go's
 * `base64.RawURLEncoding.EncodeToString` produces. `Decode` is its inverse on
 * canonical text: it states that encoding loses nothing, and that the encoder's
 * output is exactly the canonical texts (`EncodeDecode`, `CanonicalIsEncoding`).
 */
module Base64 {

  newtype byte = x: int | 0 <= x < 256

  /** A 6-bit group, the value of one encoded character. */
  type Sextet = x: nat | x < 64

  /** The characters of the URL- and filename-safe alphabet. */
  predicate IsUrlChar(ch: char)
  {
    ('A' <= ch <= 'Z') || ('a' <= ch <= 'z') || ('0' <= ch <= '9') || ch == '-' || ch == '_'
  }

  predicate AllUrlChars(s: string)
  {
    forall k :: 0 <= k < |s| ==> IsUrlChar(s[k])
  }

  /** A character outside the alphabet never occurs in an encoding. */
  lemma NotInUrlChars(s: string, ch: char)
    requires AllUrlChars(s) && !IsUrlChar(ch)
    ensures ch !in s
  {
    forall k | 0 <= k < |s| ensures s[k] != ch {
      assert IsUrlChar(s[k]);
    }
  }

  /** Table 2 of RFC 4648: A-Z, a-z, 0-9, then '-' and '_'. */
  function SextetChar(v: Sextet): (ch: char)
    ensures IsUrlChar(ch)
  {
    if v < 26 then ('A' as int + v) as char
    else if v < 52 then ('a' as int + (v - 26)) as char
    else if v < 62 then ('0' as int + (v - 52)) as char
    else if v == 62 then '-'
    else '_'
  }

  function CharSextet(ch: char): (v: Sextet)
    requires IsUrlChar(ch)
    ensures SextetChar(v) == ch
  {
    if 'A' <= ch <= 'Z' then ch as int - 'A' as int
    else if 'a' <= ch <= 'z' then ch as int - 'a' as int + 26
    else if '0' <= ch <= '9' then ch as int - '0' as int + 52
    else if ch == '-' then 62
    else 63
  }

  lemma CharOfSextet(v: Sextet)
    ensures CharSextet(SextetChar(v)) == v
  {
  }

  /** Three bytes become four characters, six bits at a time, high bits first. */
  function EncodeGroup(b0: byte, b1: byte, b2: byte): (s: string)
    ensures |s| == 4 && AllUrlChars(s)
  {
    [ SextetChar(b0 as int / 4),
      SextetChar((b0 as int % 4) * 16 + b1 as int / 16),
      SextetChar((b1 as int % 16) * 4 + b2 as int / 64),
      SextetChar(b2 as int % 64) ]
  }

  /**
   * Text in the canonical unpadded form: alphabet characters only, never a lone
   * character after the last full group, and a final character whose bits past
   * the data (four after one leftover byte, two after two) are zero, as section
   * 3.5 of RFC 4648 requires of an encoder.
   */
  predicate Canonical(s: string)
  {
    && AllUrlChars(s) && |s| % 4 != 1
    && (|s| % 4 == 2 ==> CharSextet(s[|s| - 1]) % 16 == 0)
    && (|s| % 4 == 3 ==> CharSextet(s[|s| - 1]) % 4 == 0)
  }

  /**
   * Unpadded encoding: whole groups of three bytes, then two characters for one
   * leftover byte or three for two. The result is canonical: the unused low bits
   * of its last character are zero.
   */
  function Encode(data: seq<byte>): (s: string)
    ensures |s| == (4 * |data| + 2) / 3
    ensures Canonical(s)
    decreases |data|
  {
    if |data| == 0 then ""
    else if |data| == 1 then
      CanonicalOne(data[0]);
      [SextetChar(data[0] as int / 4), SextetChar((data[0] as int % 4) * 16)]
    else if |data| == 2 then
      CanonicalTwo(data[0], data[1]);
      [ SextetChar(data[0] as int / 4),
        SextetChar((data[0] as int % 4) * 16 + data[1] as int / 16),
        SextetChar((data[1] as int % 16) * 4) ]
    else
      var rest := Encode(data[3..]);
      LengthStep(|data|, |rest|);
      CanonicalPrepend(EncodeGroup(data[0], data[1], data[2]), rest);
      EncodeGroup(data[0], data[1], data[2]) + rest
  }

  /**
   * The zero bits, counted from the data: four in the last character after one
   * leftover byte, two after two.
   */
  lemma EncodePadBits(data: seq<byte>)
    ensures var s := Encode(data);
      && (|data| % 3 == 1 ==> CharSextet(s[|s| - 1]) % 16 == 0)
      && (|data| % 3 == 2 ==> CharSextet(s[|s| - 1]) % 4 == 0)
  {
    var s := Encode(data);
    EncodedLength(|data|);
  }

  lemma EncodedLength(n: nat)
    ensures n % 3 == 1 ==> (4 * n + 2) / 3 % 4 == 2
    ensures n % 3 == 2 ==> (4 * n + 2) / 3 % 4 == 3
  {
    var q := n / 3;
    if n % 3 == 1 {
      assert 4 * n + 2 == 3 * (4 * q + 2);
      assert (4 * n + 2) / 3 == 4 * q + 2;
    } else if n % 3 == 2 {
      assert 4 * n + 2 == 3 * (4 * q + 3) + 1;
      assert (4 * n + 2) / 3 == 4 * q + 3;
    }
  }

  /** One leftover byte: the last character carries four zero bits. */
  lemma CanonicalOne(b0: byte)
    ensures Canonical([SextetChar(b0 as int / 4), SextetChar((b0 as int % 4) * 16)])
  {
    CharOfSextet((b0 as int % 4) * 16);
  }

  /** Two leftover bytes: the last character carries two zero bits. */
  lemma CanonicalTwo(b0: byte, b1: byte)
    ensures Canonical([ SextetChar(b0 as int / 4),
                        SextetChar((b0 as int % 4) * 16 + b1 as int / 16),
                        SextetChar((b1 as int % 16) * 4) ])
  {
    CharOfSextet((b1 as int % 16) * 4);
  }

  /** A full group in front of canonical text keeps it canonical. */
  lemma CanonicalPrepend(g: string, rest: string)
    requires |g| == 4 && AllUrlChars(g) && Canonical(rest)
    ensures Canonical(g + rest)
  {
    var s := g + rest;
    assert forall k :: 4 <= k < |s| ==> s[k] == rest[k - 4];
    assert |s| % 4 == |rest| % 4;
    if |rest| > 0 { assert s[|s| - 1] == rest[|rest| - 1]; }
  }

  lemma LengthStep(n: int, m: int)
    requires 3 <= n && m == (4 * (n - 3) + 2) / 3
    ensures 4 + m == (4 * n + 2) / 3
  {
  }

  /** Reassembles the bytes of one group of four characters. */
  function DecodeGroup(s: string): (data: seq<byte>)
    requires |s| == 4 && AllUrlChars(s)
    ensures |data| == 3
  {
    var v0, v1, v2, v3 := CharSextet(s[0]), CharSextet(s[1]), CharSextet(s[2]), CharSextet(s[3]);
    [ (v0 * 4 + v1 / 16) as byte, ((v1 % 16) * 16 + v2 / 4) as byte, ((v2 % 4) * 64 + v3) as byte ]
  }

  function Decode(s: string): (data: seq<byte>)
    requires AllUrlChars(s) && |s| % 4 != 1
    decreases |s|
  {
    if |s| == 0 then []
    else if |s| == 2 then
      var v0, v1 := CharSextet(s[0]), CharSextet(s[1]);
      [(v0 * 4 + v1 / 16) as byte]
    else if |s| == 3 then
      var v0, v1, v2 := CharSextet(s[0]), CharSextet(s[1]), CharSextet(s[2]);
      [(v0 * 4 + v1 / 16) as byte, ((v1 % 16) * 16 + v2 / 4) as byte]
    else
      assert AllUrlChars(s[4..]) by {
        forall k | 0 <= k < |s[4..]| ensures IsUrlChar(s[4..][k]) { assert s[4..][k] == s[k + 4]; }
      }
      DecodeGroup(s[..4]) + Decode(s[4..])
  }

  lemma DecodeEncodeGroup(b0: byte, b1: byte, b2: byte)
    ensures DecodeGroup(EncodeGroup(b0, b1, b2)) == [b0, b1, b2]
  {
    var x0, x1, x2 := b0 as int, b1 as int, b2 as int;
    CharOfSextet(x0 / 4);
    CharOfSextet((x0 % 4) * 16 + x1 / 16);
    CharOfSextet((x1 % 16) * 4 + x2 / 64);
    CharOfSextet(x2 % 64);
    assert ((x0 % 4) * 16 + x1 / 16) / 16 == x0 % 4;
    assert ((x0 % 4) * 16 + x1 / 16) % 16 == x1 / 16;
    assert ((x1 % 16) * 4 + x2 / 64) / 4 == x1 % 16;
    assert ((x1 % 16) * 4 + x2 / 64) % 4 == x2 / 64;
  }

  lemma DecodeEncodeOne(b0: byte)
    ensures Decode(Encode([b0])) == [b0]
  {
    var x0 := b0 as int;
    CharOfSextet(x0 / 4);
    CharOfSextet((x0 % 4) * 16);
  }

  lemma DecodeEncodeTwo(b0: byte, b1: byte)
    ensures Decode(Encode([b0, b1])) == [b0, b1]
  {
    var x0, x1 := b0 as int, b1 as int;
    CharOfSextet(x0 / 4);
    CharOfSextet((x0 % 4) * 16 + x1 / 16);
    CharOfSextet((x1 % 16) * 4);
    assert ((x0 % 4) * 16 + x1 / 16) / 16 == x0 % 4;
    assert ((x0 % 4) * 16 + x1 / 16) % 16 == x1 / 16;
  }

  /** Decoding an encoding gives back the bytes. */
  lemma {:induction false} DecodeEncode(data: seq<byte>)
    ensures Decode(Encode(data)) == data
    decreases |data|
  {
    if |data| == 1 {
      assert data == [data[0]];
      DecodeEncodeOne(data[0]);
    } else if |data| == 2 {
      assert data == [data[0], data[1]];
      DecodeEncodeTwo(data[0], data[1]);
    } else if |data| >= 3 {
      DecodeEncode(data[3..]);
      DecodeEncodeStep(data);
    }
  }

  lemma DecodeEncodeStep(data: seq<byte>)
    requires |data| >= 3 && Decode(Encode(data[3..])) == data[3..]
    ensures Decode(Encode(data)) == data
  {
    var g := EncodeGroup(data[0], data[1], data[2]);
    var rest := Encode(data[3..]);
    var s := g + rest;
    EncodeUnfold(data);
    assert Encode(data) == s;
    assert s[..4] == g && s[4..] == rest;
    DecodeUnfold(s);
    assert Decode(s) == DecodeGroup(g) + Decode(rest);
    DecodeEncodeGroup(data[0], data[1], data[2]);
    SplitThree(data);
  }

  lemma SplitThree(data: seq<byte>)
    requires |data| >= 3
    ensures data == [data[0], data[1], data[2]] + data[3..]
  {
  }

  lemma EncodeUnfold(data: seq<byte>)
    requires |data| >= 3
    ensures Encode(data) == EncodeGroup(data[0], data[1], data[2]) + Encode(data[3..])
  {
  }

  lemma DecodeUnfold(s: string)
    requires AllUrlChars(s) && |s| % 4 != 1 && |s| >= 4
    ensures AllUrlChars(s[..4]) && AllUrlChars(s[4..]) && |s[4..]| % 4 != 1
    ensures Decode(s) == DecodeGroup(s[..4]) + Decode(s[4..])
  {
    assert forall k :: 0 <= k < 4 ==> s[..4][k] == s[k];
    assert forall k :: 0 <= k < |s| - 4 ==> s[4..][k] == s[k + 4];
  }

  /** Encoding what canonical text decodes to gives the text back. */
  lemma {:induction false} EncodeDecode(s: string)
    requires Canonical(s)
    ensures Encode(Decode(s)) == s
    decreases |s|
  {
    if |s| == 0 {
      assert Decode(s) == [];
    } else if |s| == 2 {
      EncodeDecodeTwo(s);
    } else if |s| == 3 {
      EncodeDecodeThree(s);
    } else {
      CanonicalRest(s);
      EncodeDecode(s[4..]);
      EncodeDecodeStep(s);
    }
  }

  /** What follows the first group of canonical text is canonical. */
  lemma CanonicalRest(s: string)
    requires Canonical(s) && |s| >= 4
    ensures Canonical(s[4..])
  {
    var rest := s[4..];
    assert AllUrlChars(rest) by {
      forall k | 0 <= k < |rest| ensures IsUrlChar(rest[k]) { assert rest[k] == s[k + 4]; }
    }
    assert |rest| % 4 == |s| % 4;
    if |rest| > 0 { assert rest[|rest| - 1] == s[|s| - 1]; }
  }

  lemma EncodeDecodeStep(s: string)
    requires Canonical(s) && |s| >= 4 && Canonical(s[4..])
    requires Encode(Decode(s[4..])) == s[4..]
    ensures Encode(Decode(s)) == s
  {
    DecodeUnfold(s);
    var g, rest := s[..4], s[4..];
    EncodeDecodeGroup(g);
    var d := DecodeGroup(g);
    var data := d + Decode(rest);
    EncodeUnfold(data);
    assert data[..3] == d && data[3..] == Decode(rest);
    assert s == g + rest;
  }

  /** The bit arithmetic of one group: the bytes built from four sextets give those sextets back. */
  lemma GroupBits(v0: int, v1: int, v2: int, v3: int)
    requires 0 <= v0 < 64 && 0 <= v1 < 64 && 0 <= v2 < 64 && 0 <= v3 < 64
    ensures var x0, x1, x2 := v0 * 4 + v1 / 16, (v1 % 16) * 16 + v2 / 4, (v2 % 4) * 64 + v3;
      && 0 <= x0 < 256 && 0 <= x1 < 256 && 0 <= x2 < 256
      && x0 / 4 == v0 && (x0 % 4) * 16 + x1 / 16 == v1
      && (x1 % 16) * 4 + x2 / 64 == v2 && x2 % 64 == v3
  {
    var x0, x1, x2 := v0 * 4 + v1 / 16, (v1 % 16) * 16 + v2 / 4, (v2 % 4) * 64 + v3;
    assert x0 / 4 == v0 && x0 % 4 == v1 / 16;
    assert x1 / 16 == v1 % 16 && x1 % 16 == v2 / 4;
    assert x2 / 64 == v2 % 4 && x2 % 64 == v3;
  }

  lemma EncodeDecodeGroup(g: string)
    requires |g| == 4 && AllUrlChars(g)
    ensures var d := DecodeGroup(g); EncodeGroup(d[0], d[1], d[2]) == g
  {
    var v0: int, v1: int, v2: int, v3: int := CharSextet(g[0]), CharSextet(g[1]), CharSextet(g[2]), CharSextet(g[3]);
    GroupBits(v0, v1, v2, v3);
    var d := DecodeGroup(g);
    var x0, x1, x2 := d[0] as int, d[1] as int, d[2] as int;
    assert x0 / 4 == v0 && (x0 % 4) * 16 + x1 / 16 == v1;
    assert (x1 % 16) * 4 + x2 / 64 == v2 && x2 % 64 == v3;
    var e := EncodeGroup(d[0], d[1], d[2]);
    assert e[0] == g[0] && e[1] == g[1] && e[2] == g[2] && e[3] == g[3];
  }

  lemma EncodeDecodeTwo(s: string)
    requires |s| == 2 && Canonical(s)
    ensures Encode(Decode(s)) == s
  {
    var v0: int, v1: int := CharSextet(s[0]), CharSextet(s[1]);
    GroupBits(v0, v1, 0, 0);
    var d := Decode(s);
    assert d == [(v0 * 4 + v1 / 16) as byte];
    var x0 := d[0] as int;
    assert x0 / 4 == v0 && (x0 % 4) * 16 == v1;
    var e := Encode(d);
    assert e[0] == s[0] && e[1] == s[1];
  }

  lemma EncodeDecodeThree(s: string)
    requires |s| == 3 && Canonical(s)
    ensures Encode(Decode(s)) == s
  {
    assert s[|s| - 1] == s[2];
    var v0: Sextet, v1: Sextet, v2: Sextet := CharSextet(s[0]), CharSextet(s[1]), CharSextet(s[2]);
    assert Decode(s) == [(v0 * 4 + v1 / 16) as byte, ((v1 % 16) * 16 + v2 / 4) as byte];
    EncodeTail(v0, v1, v2);
    assert s == [SextetChar(v0), SextetChar(v1), SextetChar(v2)];
  }

  /** Two bytes rebuilt from three sextets, the last with two zero bits, encode back to them. */
  lemma EncodeTail(v0: Sextet, v1: Sextet, v2: Sextet)
    requires v2 % 4 == 0
    ensures Encode([(v0 * 4 + v1 / 16) as byte, ((v1 % 16) * 16 + v2 / 4) as byte])
      == [SextetChar(v0), SextetChar(v1), SextetChar(v2)]
  {
    TailBits(v0, v1, v2);
    var x0, x1 := v0 as int * 4 + v1 as int / 16, (v1 as int % 16) * 16 + v2 as int / 4;
    var b0, b1 := x0 as byte, x1 as byte;
    EncodeTwoBytes(b0, b1);
    assert b0 as int == x0 && b1 as int == x1;
  }

  lemma EncodeTwoBytes(b0: byte, b1: byte)
    ensures Encode([b0, b1])
      == [SextetChar(b0 as int / 4), SextetChar((b0 as int % 4) * 16 + b1 as int / 16), SextetChar((b1 as int % 16) * 4)]
  {
  }

  /** `GroupBits` for the last two bytes of the data, where the final sextet has two zero bits. */
  lemma TailBits(v0: int, v1: int, v2: int)
    requires 0 <= v0 < 64 && 0 <= v1 < 64 && 0 <= v2 < 64 && v2 % 4 == 0
    ensures var x0, x1 := v0 * 4 + v1 / 16, (v1 % 16) * 16 + v2 / 4;
      && 0 <= x0 < 256 && 0 <= x1 < 256
      && x0 / 4 == v0 && (x0 % 4) * 16 + x1 / 16 == v1 && (x1 % 16) * 4 == v2
  {
    GroupBits(v0, v1, v2, 0);
  }

  /** Canonical text is determined by what it decodes to: it is the encoding. */
  lemma CanonicalIsEncoding(s: string, data: seq<byte>)
    requires Canonical(s) && Decode(s) == data
    ensures s == Encode(data)
  {
    EncodeDecode(s);
  }

  /** Different bytes never share an encoding. */
  lemma EncodeInjective(a: seq<byte>, b: seq<byte>)
    requires Encode(a) == Encode(b)
    ensures a == b
  {
    DecodeEncode(a);
    DecodeEncode(b);
  }
}
