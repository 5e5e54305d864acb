/**
 * The MQTT password of a device (client_config.go:36-105): `OneNET_Sign`
 * signs a string with an HMAC keyed by the Base64-decoded access key, and
 * `getOneNETToken` lays the signature out with the other token fields as a
 * sorted, query-escaped `key=value&...` string.
 *
 * The hash functions are not modelled: `Hmac` stands for HMAC (RFC 2104)
 * over MD5, SHA-1 or SHA-256 and only promises a digest of the method's
 * length. The clock is the parameter `now` (Unix seconds).
 */
module Credentials {
  import opened Wrappers
  import opened Bytes
  import opened Decimal
  import Base64
  import QueryEscape

  datatype SignMethod = Md5 | Sha1 | Sha256

  /** The digest size of each hash in bytes. */
  function DigestSize(m: SignMethod): nat {
    match m
    case Md5 => 16
    case Sha1 => 20
    case Sha256 => 32
  }

  /** HMAC with the given hash, key and message: a digest of the hash's size. */
  type Hmac = f: (SignMethod, seq<Byte>, seq<Byte>) -> seq<Byte> | forall m, k, msg :: |f(m, k, msg)| == DigestSize(m)
    witness (m: SignMethod, k: seq<Byte>, msg: seq<Byte>) => seq(DigestSize(m), _ => 0)

  // ------------------------------------------------------------------
  // OneNET_Sign
  // ------------------------------------------------------------------

  predicate IsUpper(b: Byte) {
    65 <= b <= 90
  }

  /** ASCII lowering, byte by byte: no upper-case letter is left and every other byte is kept. */
  function ToLower(s: seq<Byte>): (r: seq<Byte>)
    ensures |r| == |s|
    ensures forall i :: 0 <= i < |r| ==> !IsUpper(r[i])
    ensures forall i :: 0 <= i < |s| && !IsUpper(s[i]) ==> r[i] == s[i]
  {
    seq(|s|, i requires 0 <= i < |s| => if IsUpper(s[i]) then s[i] + 32 else s[i])
  }

  /** Two bytes that are equal, or the upper- and lower-case forms of one ASCII letter. */
  predicate SameLetter(a: Byte, b: Byte) {
    a == b || (IsUpper(a) && b == a + 32) || (IsUpper(b) && a == b + 32)
  }

  /** Two byte strings that differ only in the case of ASCII letters. */
  predicate SameIgnoringCase(s: seq<Byte>, t: seq<Byte>) {
    |s| == |t| && forall i :: 0 <= i < |s| ==> SameLetter(s[i], t[i])
  }

  /** Lowering twice is lowering once. */
  lemma ToLowerIdempotent(s: seq<Byte>)
    ensures ToLower(ToLower(s)) == ToLower(s)
  {
    var r := ToLower(s);
    forall i | 0 <= i < |r| ensures ToLower(r)[i] == r[i] {
      assert !IsUpper(r[i]);
    }
  }

  /** Two strings lower to the same bytes exactly when they differ only in ASCII case. */
  lemma ToLowerCaseInsensitive(s: seq<Byte>, t: seq<Byte>)
    ensures ToLower(s) == ToLower(t) <==> SameIgnoringCase(s, t)
  {
    if SameIgnoringCase(s, t) {
      forall i | 0 <= i < |s| ensures ToLower(s)[i] == ToLower(t)[i] {
        assert SameLetter(s[i], t[i]);
      }
    }
    if ToLower(s) == ToLower(t) {
      forall i | 0 <= i < |s| ensures SameLetter(s[i], t[i]) {
        assert ToLower(s)[i] == ToLower(t)[i];
      }
    }
  }

  /** The lower-case name each method is selected by. */
  function MethodName(m: SignMethod): seq<Byte> {
    match m
    case Md5 => Ascii("md5")
    case Sha1 => Ascii("sha1")
    case Sha256 => Ascii("sha256")
  }

  /** The `switch strings.ToLower(method)` of client_config.go:46-55. */
  function SelectMethod(signMethod: seq<Byte>): Option<SignMethod> {
    var lower := ToLower(signMethod);
    if lower == MethodName(Md5) then Some(Md5)
    else if lower == MethodName(Sha1) then Some(Sha1)
    else if lower == MethodName(Sha256) then Some(Sha256)
    else None
  }

  datatype SignError =
    | KeyDecodeFailed                     // "base64 decode key failed"
    | UnsupportedMethod(signMethod: seq<Byte>) // "unsupported signature method: <method>"

  /** `OneNET_Sign` (client_config.go:37-65). */
  function Sign(hmac: Hmac, key: seq<Byte>, stringForSignature: seq<Byte>, signMethod: seq<Byte>): Result<seq<Byte>, SignError> {
    match Base64.Decode(key)
    case None => Err(KeyDecodeFailed)
    case Some(rawKey) =>
      match SelectMethod(signMethod)
      case None => Err(UnsupportedMethod(signMethod))
      case Some(m) => Ok(Base64.Encode(hmac(m, rawKey, stringForSignature)))
  }

  /** The method is found by its lower-cased name, so case does not matter. */
  lemma SelectMethodByName(signMethod: seq<Byte>, m: SignMethod)
    ensures SelectMethod(signMethod) == Some(m) <==> ToLower(signMethod) == MethodName(m)
    ensures SelectMethod(signMethod) == SelectMethod(ToLower(signMethod))
  {
    ToLowerIdempotent(signMethod);
    assert MethodName(Md5) != MethodName(Sha1) by { assert |MethodName(Md5)| != |MethodName(Sha1)|; }
    assert MethodName(Md5) != MethodName(Sha256) by { assert |MethodName(Md5)| != |MethodName(Sha256)|; }
    assert MethodName(Sha1) != MethodName(Sha256) by { assert |MethodName(Sha1)| != |MethodName(Sha256)|; }
  }

  /** Method names that differ only in ASCII case select the same method. */
  lemma SelectMethodIgnoresCase(s: seq<Byte>, t: seq<Byte>)
    requires SameIgnoringCase(s, t)
    ensures SelectMethod(s) == SelectMethod(t)
  {
    ToLowerCaseInsensitive(s, t);
  }

  /**
   * The key is decoded before the method is looked at: a key that is not
   * valid Base64 is reported as such whatever the method, and the method is
   * reported only for a valid key.
   */
  lemma SignErrors(hmac: Hmac, key: seq<Byte>, s: seq<Byte>, signMethod: seq<Byte>)
    ensures Sign(hmac, key, s, signMethod) == Err(KeyDecodeFailed) <==> Base64.Decode(key).None?
    ensures Sign(hmac, key, s, signMethod) == Err(UnsupportedMethod(signMethod)) <==>
              Base64.Decode(key).Some? && SelectMethod(signMethod).None?
    ensures Sign(hmac, key, s, signMethod).Ok? <==> Base64.Decode(key).Some? && SelectMethod(signMethod).Some?
  {
  }

  /** The Base64 length of each digest: 24, 28 or 44 characters. */
  function SignatureLength(m: SignMethod): nat {
    match m
    case Md5 => 24
    case Sha1 => 28
    case Sha256 => 44
  }

  /**
   * A signature is the Base64 encoding of the HMAC of the string under the
   * decoded key: it decodes back to that digest and has the length of the
   * method's encoded digest.
   */
  lemma SignatureShape(hmac: Hmac, key: seq<Byte>, s: seq<Byte>, signMethod: seq<Byte>)
    requires Sign(hmac, key, s, signMethod).Ok?
    ensures var sig := Sign(hmac, key, s, signMethod).value;
      var m := SelectMethod(signMethod).value;
      && Base64.Decode(sig) == Some(hmac(m, Base64.Decode(key).value, s))
      && |sig| == SignatureLength(m)
  {
    var m := SelectMethod(signMethod).value;
    var digest := hmac(m, Base64.Decode(key).value, s);
    assert |digest| == DigestSize(m);
    Base64.DecodeEncode(digest);
    EncodedDigestLength(m, digest);
  }

  lemma EncodedDigestLength(m: SignMethod, digest: seq<Byte>)
    requires |digest| == DigestSize(m)
    ensures |Base64.Encode(digest)| == SignatureLength(m)
  {
    match m
    case Md5 => assert (16 + 2) / 3 * 4 == 24;
    case Sha1 => assert (20 + 2) / 3 * 4 == 28;
    case Sha256 => assert (32 + 2) / 3 * 4 == 44;
  }

  // ------------------------------------------------------------------
  // getOneNETToken
  // ------------------------------------------------------------------

  /** `ExpiryDuration`: one hour. */
  const ExpirySeconds: int := 3600

  /** `fmt.Sprintf("%d", n)` as bytes: an optional '-' and decimal digits. */
  function DecimalBytes(n: int): (r: seq<Byte>)
    ensures forall i :: 0 <= i < |r| ==> QueryEscape.IsUnreserved(r[i])
    ensures Newline !in r
  {
    var s := IntString(n);
    Ascii(s)
  }

  /** `res` (client_config.go:70). */
  function Resource(productId: seq<Byte>, deviceName: seq<Byte>): seq<Byte> {
    Ascii("products/") + productId + Ascii("/devices/") + deviceName
  }

  /** The signable string (client_config.go:74): et, method, res and version, one per line. */
  function StringForSignature(et: int, signMethod: seq<Byte>, res: seq<Byte>, version: seq<Byte>): seq<Byte> {
    Join([DecimalBytes(et), signMethod, res, version], Newline)
  }

  /** The four fields of the signable string come back, in order, when it is split at line feeds. */
  lemma SignableFields(et: int, signMethod: seq<Byte>, res: seq<Byte>, version: seq<Byte>)
    requires Newline !in signMethod && Newline !in res && Newline !in version
    ensures Split(StringForSignature(et, signMethod, res, version), Newline) == [DecimalBytes(et), signMethod, res, version]
  {
    SplitJoin([DecimalBytes(et), signMethod, res, version], Newline);
  }

  /** The token field names in ascending byte order: et, method, res, sign, version. */
  const TokenKeys: seq<seq<Byte>> := [Ascii("et"), Ascii("method"), Ascii("res"), Ascii("sign"), Ascii("version")]

  /** The token fields by name (client_config.go:83-89). */
  function TokenParams(et: int, signMethod: seq<Byte>, res: seq<Byte>, sign: seq<Byte>, version: seq<Byte>): (p: map<seq<Byte>, seq<Byte>>)
    ensures p.Keys == set k | k in TokenKeys
  {
    map[Ascii("version") := version, Ascii("res") := res, Ascii("et") := DecimalBytes(et),
        Ascii("method") := signMethod, Ascii("sign") := sign]
  }

  /** One `key=QueryEscape(value)` field. */
  function Field(key: seq<Byte>, value: seq<Byte>): seq<Byte> {
    key + [Equals] + QueryEscape.Escape(value)
  }

  function Fields(params: map<seq<Byte>, seq<Byte>>, keys: seq<seq<Byte>>): (r: seq<seq<Byte>>)
    requires forall i :: 0 <= i < |keys| ==> keys[i] in params
    ensures |r| == |keys|
  {
    seq(|keys|, i requires 0 <= i < |keys| => Field(keys[i], params[keys[i]]))
  }

  /** `getOneNETToken` (client_config.go:68-105) as a function of its inputs and the clock. */
  function Token(hmac: Hmac, productId: seq<Byte>, deviceName: seq<Byte>, accessKey: seq<Byte>,
                 signMethod: seq<Byte>, version: seq<Byte>, now: int): Result<seq<Byte>, SignError>
  {
    var res := Resource(productId, deviceName);
    var et := now + ExpirySeconds;
    match Sign(hmac, accessKey, StringForSignature(et, signMethod, res, version), signMethod)
    case Err(e) => Err(e)
    case Ok(sign) =>
      TokenParamsKeys(et, signMethod, res, sign, version);
      Ok(Join(Fields(TokenParams(et, signMethod, res, sign, version), TokenKeys), Ampersand))
  }

  lemma TokenParamsKeys(et: int, signMethod: seq<Byte>, res: seq<Byte>, sign: seq<Byte>, version: seq<Byte>)
    ensures forall i :: 0 <= i < |TokenKeys| ==> TokenKeys[i] in TokenParams(et, signMethod, res, sign, version)
  {
  }

  // ------------------------------------------------------------------
  // Byte-string order and sort.Strings
  // ------------------------------------------------------------------

  /** Go's string comparison: `a < b` byte by byte, a proper prefix first. */
  predicate Below(a: seq<Byte>, b: seq<Byte>)
    decreases |a|
  {
    |b| > 0 && (|a| == 0 || a[0] < b[0] || (a[0] == b[0] && Below(a[1..], b[1..])))
  }

  lemma {:induction false} BelowIrreflexive(a: seq<Byte>)
    ensures !Below(a, a)
    decreases |a|
  {
    if |a| > 0 {
      BelowIrreflexive(a[1..]);
    }
  }

  lemma {:induction false} BelowTransitive(a: seq<Byte>, b: seq<Byte>, c: seq<Byte>)
    requires Below(a, b) && Below(b, c)
    ensures Below(a, c)
    decreases |a|
  {
    if |a| > 0 && a[0] == b[0] && b[0] == c[0] {
      BelowTransitive(a[1..], b[1..], c[1..]);
    }
  }

  /** Two different byte strings are ordered one way or the other. */
  lemma {:induction false} BelowTotal(a: seq<Byte>, b: seq<Byte>)
    requires a != b
    ensures Below(a, b) || Below(b, a)
    decreases |a|
  {
    if |a| > 0 && |b| > 0 && a[0] == b[0] {
      assert a[1..] != b[1..] by {
        assert a == [a[0]] + a[1..] && b == [b[0]] + b[1..];
      }
      BelowTotal(a[1..], b[1..]);
    }
  }

  /** Ascending: no later element is below an earlier one. */
  predicate Sorted(s: seq<seq<Byte>>) {
    forall i, j :: 0 <= i < j < |s| ==> !Below(s[j], s[i])
  }

  /** Insertion into an ascending sequence, before the first element not below `x`. */
  function Insert(x: seq<Byte>, s: seq<seq<Byte>>): (r: seq<seq<Byte>>)
    ensures multiset(r) == multiset(s) + multiset{x}
    decreases |s|
  {
    if s == [] then [x]
    else if Below(s[0], x) then
      assert s == [s[0]] + s[1..];
      [s[0]] + Insert(x, s[1..])
    else [x] + s
  }

  lemma {:induction false} InsertSorted(x: seq<Byte>, s: seq<seq<Byte>>)
    requires Sorted(s)
    ensures Sorted(Insert(x, s))
    decreases |s|
  {
    if s != [] && Below(s[0], x) {
      InsertSorted(x, s[1..]);
      var r := Insert(x, s);
      forall j | 0 < j < |r| ensures !Below(r[j], r[0]) {
        assert r[j] in multiset(Insert(x, s[1..]));
        assert r[j] in multiset(s[1..]) + multiset{x};
        if r[j] == x {
          if Below(x, s[0]) {
            BelowTransitive(x, s[0], x);
            BelowIrreflexive(x);
          }
        } else {
          var k :| 0 <= k < |s[1..]| && s[1..][k] == r[j];
          assert !Below(s[k + 1], s[0]);
        }
      }
    } else if s != [] {
      var r := Insert(x, s);
      forall j | 0 < j < |r| ensures !Below(r[j], x) {
        assert r[j] == s[j - 1];
        if Below(r[j], x) && r[j] != s[0] {
          assert !Below(s[j - 1], s[0]);
          BelowTotal(s[0], r[j]);
          BelowTransitive(s[0], r[j], x);
        }
      }
    }
  }

  /** `sort.Strings`: the same strings, ascending. */
  method SortStrings(keys: seq<seq<Byte>>) returns (sorted: seq<seq<Byte>>)
    ensures Sorted(sorted)
    ensures multiset(sorted) == multiset(keys)
  {
    sorted := [];
    for i := 0 to |keys|
      invariant Sorted(sorted)
      invariant multiset(sorted) == multiset(keys[..i])
    {
      InsertSorted(keys[i], sorted);
      sorted := Insert(keys[i], sorted);
      assert keys[..i + 1] == keys[..i] + [keys[i]];
    }
    assert keys[..|keys|] == keys;
  }

  /** Two ascending arrangements of the same strings start with the same string. */
  lemma SortedSameFirst(a: seq<seq<Byte>>, b: seq<seq<Byte>>)
    requires Sorted(a) && Sorted(b) && multiset(a) == multiset(b) && a != []
    ensures b != [] && a[0] == b[0]
  {
    assert a[0] in multiset(b);
    var j :| 0 <= j < |b| && b[j] == a[0];
    assert b[0] in multiset(a);
    var i :| 0 <= i < |a| && a[i] == b[0];
    if a[0] != b[0] {
      assert i > 0 && j > 0;
      assert !Below(a[i], a[0]) && !Below(b[j], b[0]);
      BelowTotal(a[0], b[0]);
    }
  }

  lemma TailMultiset(a: seq<seq<Byte>>)
    requires a != []
    ensures multiset(a[1..]) == multiset(a) - multiset{a[0]}
  {
    assert a == [a[0]] + a[1..];
  }

  /** There is only one ascending arrangement of a collection of strings. */
  lemma {:induction false} SortedUnique(a: seq<seq<Byte>>, b: seq<seq<Byte>>)
    requires Sorted(a) && Sorted(b) && multiset(a) == multiset(b)
    ensures a == b
    decreases |a|
  {
    if a == [] {
      assert |b| == |multiset(b)| == 0;
    } else {
      SortedSameFirst(a, b);
      TailMultiset(a);
      TailMultiset(b);
      SortedUnique(a[1..], b[1..]);
      assert a == [a[0]] + a[1..] && b == [b[0]] + b[1..];
    }
  }

  /** The five token field names are strictly ascending. */
  lemma TokenKeysAscending()
    ensures forall i, j :: 0 <= i < j < |TokenKeys| ==> Below(TokenKeys[i], TokenKeys[j])
    ensures Sorted(TokenKeys)
  {
    assert Ascii("et")[0] == 101 && Ascii("method")[0] == 109 && Ascii("res")[0] == 114
        && Ascii("sign")[0] == 115 && Ascii("version")[0] == 118;
    assert TokenKeys == [Ascii("et"), Ascii("method"), Ascii("res"), Ascii("sign"), Ascii("version")];
    assert TokenKeys[0][0] == 101 && TokenKeys[1][0] == 109 && TokenKeys[2][0] == 114
        && TokenKeys[3][0] == 115 && TokenKeys[4][0] == 118;
    forall i, j | 0 <= i < j < |TokenKeys| ensures !Below(TokenKeys[j], TokenKeys[i]) {
      assert TokenKeys[j][0] > TokenKeys[i][0];
    }
  }

  lemma BelowDistinct(a: seq<Byte>, b: seq<Byte>)
    requires Below(a, b)
    ensures a != b
  {
    BelowIrreflexive(a);
  }

  /** The field names are five different strings. */
  lemma TokenKeysDistinct()
    ensures forall i, j :: 0 <= i < j < |TokenKeys| ==> TokenKeys[i] != TokenKeys[j]
  {
    TokenKeysAscending();
    forall i, j | 0 <= i < j < |TokenKeys| ensures TokenKeys[i] != TokenKeys[j] {
      BelowDistinct(TokenKeys[i], TokenKeys[j]);
    }
  }

  /** A sequence without repetitions has the multiset of its set of elements. */
  lemma {:induction false} DistinctMultiset(s: seq<seq<Byte>>)
    requires forall i, j :: 0 <= i < j < |s| ==> s[i] != s[j]
    ensures multiset(s) == multiset(set x | x in s)
    decreases |s|
  {
    if s != [] {
      DistinctMultiset(s[1..]);
      assert s == [s[0]] + s[1..];
      assert (set x | x in s) == {s[0]} + (set x | x in s[1..]);
      assert s[0] !in s[1..];
    }
  }

  /** The keys of `tokenParams` in the order the map yields them (client_config.go:92-95). */
  method CollectKeys(params: map<seq<Byte>, seq<Byte>>) returns (keys: seq<seq<Byte>>)
    ensures multiset(keys) == multiset(params.Keys)
  {
    keys := [];
    var pending := params.Keys;
    while pending != {}
      invariant pending <= params.Keys
      invariant multiset(keys) == multiset(params.Keys - pending)
      decreases pending
    {
      var k :| k in pending;
      assert params.Keys - (pending - {k}) == (params.Keys - pending) + {k};
      keys := keys + [k];
      pending := pending - {k};
    }
  }

  /** Sorting the keys of `tokenParams` always yields the field names in the order of `TokenKeys`. */
  lemma SortedTokenKeys(keys: seq<seq<Byte>>, names: set<seq<Byte>>)
    requires Sorted(keys) && multiset(keys) == multiset(names)
    requires names == set k | k in TokenKeys
    ensures keys == TokenKeys
  {
    TokenKeysAscending();
    TokenKeysDistinct();
    DistinctMultiset(TokenKeys);
    SortedUnique(keys, TokenKeys);
  }

  /** The `encodedParams` loop (client_config.go:98-102): one `key=value` per key, in key order. */
  method EncodeFields(params: map<seq<Byte>, seq<Byte>>, keys: seq<seq<Byte>>) returns (encoded: seq<seq<Byte>>)
    requires forall i :: 0 <= i < |keys| ==> keys[i] in params
    ensures encoded == Fields(params, keys)
  {
    encoded := [];
    for i := 0 to |keys|
      invariant encoded == Fields(params, keys[..i])
    {
      encoded := encoded + [Field(keys[i], params[keys[i]])];
    }
    assert keys[..|keys|] == keys;
  }

  /** `getOneNETToken` (client_config.go:68-105). */
  method GetToken(hmac: Hmac, productId: seq<Byte>, deviceName: seq<Byte>, accessKey: seq<Byte>,
                  signMethod: seq<Byte>, version: seq<Byte>, now: int) returns (r: Result<seq<Byte>, SignError>)
    ensures r == Token(hmac, productId, deviceName, accessKey, signMethod, version, now)
  {
    var res := Resource(productId, deviceName);
    var et := now + ExpirySeconds;
    var stringForSignature := StringForSignature(et, signMethod, res, version);
    var signed := Sign(hmac, accessKey, stringForSignature, signMethod);
    if signed.Err? {
      return Err(signed.error);
    }
    var params := TokenParams(et, signMethod, res, signed.value, version);
    var keys := CollectKeys(params);
    keys := SortStrings(keys);
    SortedTokenKeys(keys, params.Keys);
    TokenParamsKeys(et, signMethod, res, signed.value, version);
    var encodedParams := EncodeFields(params, keys);
    r := Ok(Join(encodedParams, Ampersand));
  }

  // ------------------------------------------------------------------
  // Reading a token back
  // ------------------------------------------------------------------

  /** A `key=value` field split at its first '=' with the value unescaped. */
  function ParseField(field: seq<Byte>): Option<(seq<Byte>, seq<Byte>)> {
    var kv := Split(field, Equals);
    if |kv| != 2 then None
    else match QueryEscape.Unescape(kv[1])
      case None => None
      case Some(v) => Some((kv[0], v))
  }

  /** The fields of a token, as a reader splitting at '&' sees them. */
  function ParseToken(token: seq<Byte>): seq<Option<(seq<Byte>, seq<Byte>)>> {
    var parts := Split(token, Ampersand);
    seq(|parts|, i requires 0 <= i < |parts| => ParseField(parts[i]))
  }

  predicate IsLowerLetters(s: seq<Byte>) {
    forall i :: 0 <= i < |s| ==> 97 <= s[i] <= 122
  }

  lemma TokenKeysLetters()
    ensures forall i :: 0 <= i < |TokenKeys| ==> IsLowerLetters(TokenKeys[i])
  {
    assert IsLowerLetters(Ascii("et"));
    assert IsLowerLetters(Ascii("method"));
    assert IsLowerLetters(Ascii("res"));
    assert IsLowerLetters(Ascii("sign"));
    assert IsLowerLetters(Ascii("version"));
  }

  /** A field splits back into its name and its escaped value, and the value unescapes to the original. */
  lemma ParseFieldRoundTrip(key: seq<Byte>, value: seq<Byte>)
    requires IsLowerLetters(key)
    ensures Ampersand !in Field(key, value)
    ensures ParseField(Field(key, value)) == Some((key, value))
  {
    var e := QueryEscape.Escape(value);
    assert Equals !in key;
    SplitFirst(key, Equals, e);
    SplitNoSeparator(e, Equals);
    QueryEscape.UnescapeEscape(value);
    assert Ampersand !in key;
    assert Field(key, value) == key + [Equals] + e;
  }

  /** The token field values in the order of `TokenKeys`. */
  function TokenValues(et: int, signMethod: seq<Byte>, res: seq<Byte>, sign: seq<Byte>, version: seq<Byte>): seq<seq<Byte>> {
    [DecimalBytes(et), signMethod, res, sign, version]
  }

  lemma TokenParamsValues(et: int, signMethod: seq<Byte>, res: seq<Byte>, sign: seq<Byte>, version: seq<Byte>)
    ensures forall i :: 0 <= i < |TokenKeys| ==>
      TokenParams(et, signMethod, res, sign, version)[TokenKeys[i]] == TokenValues(et, signMethod, res, sign, version)[i]
  {
    TokenKeysDistinct();
  }

  /**
   * A token holds exactly five fields, et, method, res, sign and version in
   * that order, and a reader that splits it at '&' and '=' and unescapes each
   * value recovers every field: the expiry time, the method as given, the
   * resource, the signature and the version.
   */
  lemma TokenRoundTrip(hmac: Hmac, productId: seq<Byte>, deviceName: seq<Byte>, accessKey: seq<Byte>,
                       signMethod: seq<Byte>, version: seq<Byte>, now: int)
    requires Token(hmac, productId, deviceName, accessKey, signMethod, version, now).Ok?
    ensures var et := now + ExpirySeconds;
      var res := Resource(productId, deviceName);
      var sign := Sign(hmac, accessKey, StringForSignature(et, signMethod, res, version), signMethod).value;
      var values := TokenValues(et, signMethod, res, sign, version);
      ParseToken(Token(hmac, productId, deviceName, accessKey, signMethod, version, now).value)
        == seq(5, i requires 0 <= i < 5 => Some((TokenKeys[i], values[i])))
  {
    var et := now + ExpirySeconds;
    var res := Resource(productId, deviceName);
    var sign := Sign(hmac, accessKey, StringForSignature(et, signMethod, res, version), signMethod).value;
    var values := TokenValues(et, signMethod, res, sign, version);
    var params := TokenParams(et, signMethod, res, sign, version);
    TokenParamsKeys(et, signMethod, res, sign, version);
    TokenParamsValues(et, signMethod, res, sign, version);
    TokenKeysLetters();
    var fields := Fields(params, TokenKeys);
    forall i | 0 <= i < 5 ensures Ampersand !in fields[i] && ParseField(fields[i]) == Some((TokenKeys[i], values[i])) {
      ParseFieldRoundTrip(TokenKeys[i], values[i]);
    }
    SplitJoin(fields, Ampersand);
  }

  /** A signing error is returned as it is, and no token is built. */
  lemma TokenSignError(hmac: Hmac, productId: seq<Byte>, deviceName: seq<Byte>, accessKey: seq<Byte>,
                       signMethod: seq<Byte>, version: seq<Byte>, now: int)
    ensures var et := now + ExpirySeconds;
      var signed := Sign(hmac, accessKey, StringForSignature(et, signMethod, Resource(productId, deviceName), version), signMethod);
      var token := Token(hmac, productId, deviceName, accessKey, signMethod, version, now);
      && (token.Err? <==> signed.Err?)
      && (signed.Err? ==> token.error == signed.error)
  {
  }

  /** The expiry time is written in decimal and needs no escaping. */
  lemma ExpiryUnescaped(et: int)
    ensures QueryEscape.Escape(DecimalBytes(et)) == DecimalBytes(et)
  {
    QueryEscape.EscapeUnreserved(DecimalBytes(et));
  }
}
