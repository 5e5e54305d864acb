/**
 * Go's `url.QueryEscape` (percent-encoding as in section 2.1 of RFC 3986,
 * keeping only the unreserved characters of section 2.3, with space written
 * as '+') and its inverse `url.QueryUnescape`, over bytes.
 */
module QueryEscape {
  import opened Wrappers
  import opened Bytes

  const Percent: Byte := 37
  const Plus: Byte := 43
  const Space: Byte := 32

  /** A-Z, a-z, 0-9, '-', '.', '_', '~'. */
  predicate IsUnreserved(c: Byte) {
    (65 <= c <= 90) || (97 <= c <= 122) || (48 <= c <= 57) || c == 45 || c == 46 || c == 95 || c == 126
  }

  /** Upper-case hexadecimal digits, as `url` writes them. */
  function HexDigit(v: int): (c: Byte)
    requires 0 <= v < 16
  {
    if v < 10 then 48 + v else 55 + v
  }

  predicate IsHex(c: Byte) {
    (48 <= c <= 57) || (65 <= c <= 70) || (97 <= c <= 102)
  }

  /** Either case is accepted when reading. */
  function HexValue(c: Byte): (v: int)
    requires IsHex(c)
    ensures 0 <= v < 16
  {
    if c <= 57 then c - 48 else if c <= 70 then c - 55 else c - 87
  }

  function EscapeByte(c: Byte): seq<Byte> {
    if IsUnreserved(c) then [c]
    else if c == Space then [Plus]
    else [Percent, HexDigit(c / 16), HexDigit(c % 16)]
  }

  /**
   * `url.QueryEscape`. The result holds only unreserved bytes, '+' and
   * percent escapes, so never '&' or '='.
   */
  function Escape(s: seq<Byte>): (r: seq<Byte>)
    ensures forall i :: 0 <= i < |r| ==> IsUnreserved(r[i]) || r[i] == Percent || r[i] == Plus
    ensures Ampersand !in r && Equals !in r
    ensures |r| >= |s|
    decreases |s|
  {
    if s == [] then [] else EscapeByte(s[0]) + Escape(s[1..])
  }

  function Prepend(c: Byte, rest: Option<seq<Byte>>): Option<seq<Byte>> {
    match rest
    case None => None
    case Some(r) => Some([c] + r)
  }

  /** `url.QueryUnescape`: `None` for a '%' not followed by two hexadecimal digits. */
  function Unescape(s: seq<Byte>): Option<seq<Byte>>
    decreases |s|
  {
    if s == [] then Some([])
    else if s[0] == Percent then
      if |s| >= 3 && IsHex(s[1]) && IsHex(s[2]) then Prepend(HexValue(s[1]) * 16 + HexValue(s[2]), Unescape(s[3..]))
      else None
    else if s[0] == Plus then Prepend(Space, Unescape(s[1..]))
    else Prepend(s[0], Unescape(s[1..]))
  }

  lemma UnescapeEscapeByte(c: Byte, rest: seq<Byte>)
    ensures Unescape(EscapeByte(c) + rest) == Prepend(c, Unescape(rest))
  {
    var e := EscapeByte(c) + rest;
    if IsUnreserved(c) {
      assert e[0] == c && e[1..] == rest;
    } else if c == Space {
      assert e[0] == Plus && e[1..] == rest;
    } else {
      assert e[0] == Percent && e[1] == HexDigit(c / 16) && e[2] == HexDigit(c % 16) && e[3..] == rest;
      assert HexValue(HexDigit(c / 16)) * 16 + HexValue(HexDigit(c % 16)) == c;
    }
  }

  /** Unescaping an escaped value gives the value back. */
  lemma {:induction false} UnescapeEscape(s: seq<Byte>)
    ensures Unescape(Escape(s)) == Some(s)
    decreases |s|
  {
    if s != [] {
      UnescapeEscape(s[1..]);
      UnescapeEscapeByte(s[0], Escape(s[1..]));
      assert [s[0]] + s[1..] == s;
    }
  }

  /** A value made only of unreserved bytes is written unchanged. */
  lemma {:induction false} EscapeUnreserved(s: seq<Byte>)
    requires forall i :: 0 <= i < |s| ==> IsUnreserved(s[i])
    ensures Escape(s) == s
    decreases |s|
  {
    if s != [] {
      EscapeUnreserved(s[1..]);
      assert [s[0]] + s[1..] == s;
    }
  }
}
