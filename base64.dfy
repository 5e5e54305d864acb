/**
 * The standard padded Base64 encoding of section 4 of RFC 4648, as Go's
 * `base64.StdEncoding` implements it: `EncodeToString` and the lenient
 * `DecodeString`, which skips carriage returns and line feeds anywhere,
 * requires the final quantum to be padded, rejects anything after the
 * padding, and accepts non-zero bits in the unused part of the last
 * character.
 */
module Base64 {
  import opened Wrappers
  import opened Bytes

  type Sextet = x: int | 0 <= x < 64

  const Pad: Byte := 61   // '='

  /** The alphabet of Table 1: A-Z, a-z, 0-9, '+', '/'. */
  function EncodeChar(v: Sextet): Byte {
    if v < 26 then 65 + v
    else if v < 52 then 97 + (v - 26)
    else if v < 62 then 48 + (v - 52)
    else if v == 62 then 43
    else 47
  }

  predicate IsAlphabet(c: Byte) {
    (65 <= c <= 90) || (97 <= c <= 122) || (48 <= c <= 57) || c == 43 || c == 47
  }

  function DecodeChar(c: Byte): (v: Sextet)
    requires IsAlphabet(c)
    ensures EncodeChar(v) == c
  {
    if 65 <= c <= 90 then c - 65
    else if 97 <= c <= 122 then c - 97 + 26
    else if 48 <= c <= 57 then c - 48 + 52
    else if c == 43 then 62
    else 63
  }

  lemma DecodeEncodeChar(v: Sextet)
    ensures IsAlphabet(EncodeChar(v)) && DecodeChar(EncodeChar(v)) == v
  {
  }

  /** Three bytes as four characters. */
  function EncodeGroup(x: Byte, y: Byte, z: Byte): seq<Byte> {
    [EncodeChar(x / 4), EncodeChar((x % 4) * 16 + y / 16), EncodeChar((y % 16) * 4 + z / 64), EncodeChar(z % 64)]
  }

  /** `base64.StdEncoding.EncodeToString`. */
  function Encode(data: seq<Byte>): (r: seq<Byte>)
    ensures |r| == (|data| + 2) / 3 * 4
    decreases |data|
  {
    if |data| == 0 then []
    else if |data| == 1 then [EncodeChar(data[0] / 4), EncodeChar((data[0] % 4) * 16), Pad, Pad]
    else if |data| == 2 then
      [EncodeChar(data[0] / 4), EncodeChar((data[0] % 4) * 16 + data[1] / 16), EncodeChar((data[1] % 16) * 4), Pad]
    else EncodeGroup(data[0], data[1], data[2]) + Encode(data[3..])
  }

  predicate IsNewline(c: Byte) {
    c == 10 || c == 13
  }

  function StripNewlines(s: seq<Byte>): (r: seq<Byte>)
    ensures forall i :: 0 <= i < |r| ==> !IsNewline(r[i])
    decreases |s|
  {
    if s == [] then []
    else if IsNewline(s[0]) then StripNewlines(s[1..])
    else [s[0]] + StripNewlines(s[1..])
  }

  /** Four sextets as three bytes. */
  function DecodeGroup(a: Sextet, b: Sextet, c: Sextet, d: Sextet): seq<Byte> {
    [a * 4 + b / 16, (b % 16) * 16 + c / 4, (c % 4) * 64 + d]
  }

  predicate AllAlphabet(q: seq<Byte>) {
    forall i :: 0 <= i < |q| ==> IsAlphabet(q[i])
  }

  /** The quantum loop of `DecodeString` over input without line breaks. */
  function DecodeQuanta(t: seq<Byte>): Option<seq<Byte>>
    decreases |t|
  {
    if |t| == 0 then Some([])
    else if |t| < 4 then None
    else if AllAlphabet(t[..4]) then
      match DecodeQuanta(t[4..])
      case None => None
      case Some(rest) => Some(DecodeGroup(DecodeChar(t[0]), DecodeChar(t[1]), DecodeChar(t[2]), DecodeChar(t[3])) + rest)
    else if |t| == 4 && AllAlphabet(t[..2]) && t[2] == Pad && t[3] == Pad then
      Some([DecodeChar(t[0]) * 4 + DecodeChar(t[1]) / 16])
    else if |t| == 4 && AllAlphabet(t[..3]) && t[3] == Pad then
      Some([DecodeChar(t[0]) * 4 + DecodeChar(t[1]) / 16, (DecodeChar(t[1]) % 16) * 16 + DecodeChar(t[2]) / 4])
    else None
  }

  /** `base64.StdEncoding.DecodeString`: `None` is a `CorruptInputError`. */
  function Decode(s: seq<Byte>): Option<seq<Byte>> {
    DecodeQuanta(StripNewlines(s))
  }

  // ------------------------------------------------------------------
  // Properties
  // ------------------------------------------------------------------

  lemma GroupRoundTrip(x: Byte, y: Byte, z: Byte)
    ensures DecodeGroup(x / 4, (x % 4) * 16 + y / 16, (y % 16) * 4 + z / 64, z % 64) == [x, y, z]
  {
    var b := (x % 4) * 16 + y / 16;
    var c := (y % 16) * 4 + z / 64;
    assert b / 16 == x % 4 && b % 16 == y / 16;
    assert c / 4 == y % 16 && c % 4 == z / 64;
  }

  lemma TailRoundTrip(x: Byte, y: Byte)
    ensures (x / 4) * 4 + ((x % 4) * 16) / 16 == x
    ensures (x / 4) * 4 + ((x % 4) * 16 + y / 16) / 16 == x
    ensures (((x % 4) * 16 + y / 16) % 16) * 16 + ((y % 16) * 4) / 4 == y
  {
    var b := (x % 4) * 16 + y / 16;
    assert b / 16 == x % 4 && b % 16 == y / 16;
  }

  /** An encoding uses only the alphabet and the pad character. */
  lemma {:induction false} EncodeChars(data: seq<Byte>)
    ensures forall i :: 0 <= i < |Encode(data)| ==> IsAlphabet(Encode(data)[i]) || Encode(data)[i] == Pad
    decreases |data|
  {
    forall v: Sextet ensures IsAlphabet(EncodeChar(v)) {
      DecodeEncodeChar(v);
    }
    if |data| >= 3 {
      EncodeChars(data[3..]);
    }
  }

  lemma {:induction false} StripNoNewlines(s: seq<Byte>)
    requires forall i :: 0 <= i < |s| ==> !IsNewline(s[i])
    ensures StripNewlines(s) == s
    decreases |s|
  {
    if s != [] {
      StripNoNewlines(s[1..]);
      assert [s[0]] + s[1..] == s;
    }
  }

  lemma DecodeOneByte(x: Byte)
    ensures DecodeQuanta(Encode([x])) == Some([x])
  {
    var e := Encode([x]);
    TailRoundTrip(x, 0);
    DecodeEncodeChar(x / 4);
    DecodeEncodeChar((x % 4) * 16);
    assert !AllAlphabet(e[..4]) by { assert e[3] == Pad; }
    assert AllAlphabet(e[..2]);
  }

  lemma DecodeTwoBytes(x: Byte, y: Byte)
    ensures DecodeQuanta(Encode([x, y])) == Some([x, y])
  {
    var e := Encode([x, y]);
    TailRoundTrip(x, y);
    DecodeEncodeChar(x / 4);
    DecodeEncodeChar((x % 4) * 16 + y / 16);
    DecodeEncodeChar((y % 16) * 4);
    assert !AllAlphabet(e[..4]) by { assert e[3] == Pad; }
    assert e[2] != Pad && AllAlphabet(e[..3]);
  }

  lemma DecodeGroupFirst(x: Byte, y: Byte, z: Byte, rest: seq<Byte>)
    requires DecodeQuanta(rest).Some?
    ensures DecodeQuanta(EncodeGroup(x, y, z) + rest) == Some([x, y, z] + DecodeQuanta(rest).value)
  {
    var a, b, c, d := x / 4, (x % 4) * 16 + y / 16, (y % 16) * 4 + z / 64, z % 64;
    var t := EncodeGroup(x, y, z) + rest;
    DecodeEncodeChar(a);
    DecodeEncodeChar(b);
    DecodeEncodeChar(c);
    DecodeEncodeChar(d);
    assert t[0] == EncodeChar(a) && t[1] == EncodeChar(b) && t[2] == EncodeChar(c) && t[3] == EncodeChar(d);
    assert AllAlphabet(t[..4]);
    assert t[4..] == rest;
    GroupRoundTrip(x, y, z);
    assert DecodeGroup(DecodeChar(t[0]), DecodeChar(t[1]), DecodeChar(t[2]), DecodeChar(t[3])) == [x, y, z];
  }

  lemma {:induction false} DecodeQuantaEncode(data: seq<Byte>)
    ensures DecodeQuanta(Encode(data)) == Some(data)
    decreases |data|
  {
    if |data| == 1 {
      DecodeOneByte(data[0]);
      assert [data[0]] == data;
    } else if |data| == 2 {
      DecodeTwoBytes(data[0], data[1]);
      assert [data[0], data[1]] == data;
    } else if |data| >= 3 {
      DecodeQuantaEncode(data[3..]);
      DecodeGroupFirst(data[0], data[1], data[2], Encode(data[3..]));
      assert [data[0], data[1], data[2]] + data[3..] == data;
    }
  }

  /** Decoding an encoding gives the bytes back. */
  lemma DecodeEncode(data: seq<Byte>)
    ensures Decode(Encode(data)) == Some(data)
  {
    EncodeChars(data);
    var e := Encode(data);
    assert forall i :: 0 <= i < |e| ==> !IsNewline(e[i]) by {
      forall i | 0 <= i < |e| ensures !IsNewline(e[i]) {
        assert IsAlphabet(e[i]) || e[i] == Pad;
      }
    }
    StripNoNewlines(e);
    DecodeQuantaEncode(data);
  }

  /** Input whose length without line breaks is not a multiple of four is rejected. */
  lemma {:induction false} DecodeQuantaRejectsLength(t: seq<Byte>)
    requires |t| % 4 != 0
    ensures DecodeQuanta(t) == None
    decreases |t|
  {
    if |t| >= 4 {
      DecodeQuantaRejectsLength(t[4..]);
    }
  }

  lemma DecodeRejectsLength(s: seq<Byte>)
    requires |StripNewlines(s)| % 4 != 0
    ensures Decode(s) == None
  {
    DecodeQuantaRejectsLength(StripNewlines(s));
  }

  lemma {:induction false} StripKeeps(s: seq<Byte>, i: int)
    requires 0 <= i < |s| && !IsNewline(s[i])
    ensures s[i] in StripNewlines(s)
    decreases |s|
  {
    if i > 0 {
      StripKeeps(s[1..], i - 1);
    }
  }

  lemma {:induction false} DecodeQuantaRejectsForeign(t: seq<Byte>, i: int)
    requires 0 <= i < |t| && !IsAlphabet(t[i]) && t[i] != Pad
    ensures DecodeQuanta(t) == None
    decreases |t|
  {
    if |t| >= 4 {
      if i < 4 {
        assert !AllAlphabet(t[..4]) by { assert t[..4][i] == t[i]; }
        assert !(AllAlphabet(t[..3]) && t[3] == Pad) by { if i < 3 { assert t[..3][i] == t[i]; } }
        assert !(AllAlphabet(t[..2]) && t[2] == Pad && t[3] == Pad) by { if i < 2 { assert t[..2][i] == t[i]; } }
      } else {
        DecodeQuantaRejectsForeign(t[4..], i - 4);
      }
    }
  }

  /** A byte outside the alphabet, the pad character and line breaks makes decoding fail. */
  lemma DecodeRejectsForeign(s: seq<Byte>, i: int)
    requires 0 <= i < |s| && !IsAlphabet(s[i]) && s[i] != Pad && !IsNewline(s[i])
    ensures Decode(s) == None
  {
    StripKeeps(s, i);
    var t := StripNewlines(s);
    var j :| 0 <= j < |t| && t[j] == s[i];
    DecodeQuantaRejectsForeign(t, j);
  }
}
