/** UTF-8 and percent-encoding (sections 2.1 and 2.3 of RFC 3986), as `pct` in `auth-oidc/src/lib.rs` uses them. */
module Percent {
  import opened Prelude
  import opened Base64Url

  // ----- UTF-8, a library model of `str::as_bytes` -----

  /** Groups of six bits, as the continuation bytes carry them. */
  function EncodeChar(c: char): Bytes {
    var n := c as int;
    var q := n / 64;
    var r := q / 64;
    if n < 0x80 then [n]
    else if n < 0x800 then [0xC0 + q, 0x80 + n % 64]
    else if n < 0x1_0000 then [0xE0 + r, 0x80 + q % 64, 0x80 + n % 64]
    else [0xF0 + r / 64, 0x80 + r % 64, 0x80 + q % 64, 0x80 + n % 64]
  }

  function Utf8(s: string): Bytes {
    if s == [] then [] else EncodeChar(s[0]) + Utf8(s[1..])
  }

  function At(b: Bytes, i: nat): int {
    if i < |b| then b[i] else 0
  }

  /** The length and the code point that the leading bytes announce. */
  function Lead(b: Bytes): (nat, int)
    requires b != []
  {
    if At(b, 0) < 0xC0 || |b| < 2 then (1, At(b, 0))
    else if At(b, 0) < 0xE0 || |b| < 3 then (2, (At(b, 0) - 0xC0) * 64 + At(b, 1) - 0x80)
    else if At(b, 0) < 0xF0 || |b| < 4 then (3, ((At(b, 0) - 0xE0) * 64 + At(b, 1) - 0x80) * 64 + At(b, 2) - 0x80)
    else (4, (((At(b, 0) - 0xF0) * 64 + At(b, 1) - 0x80) * 64 + At(b, 2) - 0x80) * 64 + At(b, 3) - 0x80)
  }

  predicate ScalarValue(n: int) {
    0 <= n < 0xD800 || 0xE000 <= n < 0x11_0000
  }

  /** Strict decoding: the bytes must be exactly what encoding the character gives. */
  function Utf8Decode(b: Bytes): Option<string> {
    if b == [] then Some("")
    else
      var (len, n) := Lead(b);
      if !ScalarValue(n) || EncodeChar(n as char) != b[..len] then None
      else
        match Utf8Decode(b[len..])
        case None => None
        case Some(rest) => Some([n as char] + rest)
  }

  lemma LeadOfChar(c: char, rest: Bytes)
    ensures EncodeChar(c) + rest != []
    ensures Lead(EncodeChar(c) + rest) == (|EncodeChar(c)|, c as int)
  {
    var n := c as int;
    assert n == n / 64 * 64 + n % 64;
  }

  lemma {:induction false} Utf8RoundTrip(s: string)
    ensures Utf8Decode(Utf8(s)) == Some(s)
  {
    if s != [] {
      Utf8RoundTrip(s[1..]);
      LeadOfChar(s[0], Utf8(s[1..]));
      hide EncodeChar, Lead;
      var b := Utf8(s);
      assert b[..|EncodeChar(s[0])|] == EncodeChar(s[0]) && b[|EncodeChar(s[0])|..] == Utf8(s[1..]);
      assert s == [s[0]] + s[1..];
    }
  }

  // ----- percent-encoding -----

  predicate Unreserved(b: int) {
    || 'A' as int <= b <= 'Z' as int || 'a' as int <= b <= 'z' as int || '0' as int <= b <= '9' as int
    || b == '-' as int || b == '.' as int || b == '_' as int || b == '~' as int
  }

  function HexDigit(n: nat): char
    requires n < 16
  {
    if n < 10 then ('0' as int + n) as char else ('A' as int + n - 10) as char
  }

  function HexValue(c: char): Option<nat> {
    if '0' <= c <= '9' then Some(c as int - '0' as int)
    else if 'A' <= c <= 'F' then Some(c as int - 'A' as int + 10)
    else if 'a' <= c <= 'f' then Some(c as int - 'a' as int + 10)
    else None
  }

  function EncodeByte(b: Byte): string {
    if Unreserved(b) then [b as char] else ['%', HexDigit(b / 16), HexDigit(b % 16)]
  }

  function EncodeBytes(b: Bytes): string {
    if b == [] then "" else EncodeByte(b[0]) + EncodeBytes(b[1..])
  }

  /** The percent-encoding of a text. */
  function Pct(s: string): string {
    EncodeBytes(Utf8(s))
  }

  /** The loop of the source. */
  method RunPct(s: string) returns (out: string)
    ensures out == Pct(s)
  {
    hide Utf8, HexDigit, Unreserved;
    var bytes := Utf8(s);
    out := "";
    var i := 0;
    assert bytes[0..] == bytes;
    while i < |bytes|
      invariant 0 <= i <= |bytes|
      invariant out + EncodeBytes(bytes[i..]) == EncodeBytes(bytes)
    {
      var b := bytes[i];
      assert bytes[i..][1..] == bytes[i + 1..];
      assert EncodeBytes(bytes[i..]) == EncodeByte(b) + EncodeBytes(bytes[i + 1..]);
      assert out + (EncodeByte(b) + EncodeBytes(bytes[i + 1..])) == (out + EncodeByte(b)) + EncodeBytes(bytes[i + 1..]);
      if Unreserved(b) {
        out := out + [b as char];
      } else {
        out := out + ['%', HexDigit(b / 16), HexDigit(b % 16)];
      }
      i := i + 1;
    }
    assert bytes[i..] == [];
  }

  /** Percent-decoding, as any reader of the URL does it: upper or lower case digits, other characters as they are. */
  function DecodeBytes(s: string): Option<Bytes> {
    if s == [] then Some([])
    else if s[0] == '%' then
      if |s| < 3 || HexValue(s[1]).None? || HexValue(s[2]).None? then None
      else
        match DecodeBytes(s[3..])
        case None => None
        case Some(rest) => Some([HexValue(s[1]).value * 16 + HexValue(s[2]).value] + rest)
    else if s[0] as int >= 0x80 then None
    else
      match DecodeBytes(s[1..])
      case None => None
      case Some(rest) => Some([s[0] as int] + rest)
  }

  function PctDecode(s: string): Option<string> {
    match DecodeBytes(s)
    case None => None
    case Some(b) => Utf8Decode(b)
  }

  lemma {:induction false} BytesRoundTrip(b: Bytes)
    ensures DecodeBytes(EncodeBytes(b)) == Some(b)
  {
    if b != [] {
      hide EncodeByte;
      BytesRoundTrip(b[1..]);
      ByteReads(b[0], EncodeBytes(b[1..]));
      assert b == [b[0]] + b[1..];
      hide DecodeBytes;
    }
  }

  lemma HexReads(n: nat)
    requires n < 16
    ensures HexValue(HexDigit(n)) == Some(n)
  {
  }

  /** One encoded byte in front is that byte in front. */
  lemma ByteReads(b: Byte, rest: string)
    requires DecodeBytes(rest).Some?
    ensures DecodeBytes(EncodeByte(b) + rest) == Some([b] + DecodeBytes(rest).value)
  {
    hide HexDigit, HexValue;
    HexReads(b / 16);
    HexReads(b % 16);
    var s := EncodeByte(b) + rest;
    assert s[|EncodeByte(b)|..] == rest;
    assert b == b / 16 * 16 + b % 16;
  }

  /** Percent-decoding gives back every text, so no two texts are encoded alike. */
  lemma PctRoundTrip(s: string)
    ensures PctDecode(Pct(s)) == Some(s)
  {
    BytesRoundTrip(Utf8(s));
    Utf8RoundTrip(s);
  }

  lemma PctInjective(s: string, t: string)
    ensures Pct(s) == Pct(t) <==> s == t
  {
    PctRoundTrip(s);
    PctRoundTrip(t);
  }

  lemma {:induction false} EncodedChars(b: Bytes)
    ensures forall c :: c in EncodeBytes(b) ==> c == '%' || Unreserved(c as int)
  {
    if b != [] {
      EncodedChars(b[1..]);
      assert forall c :: c in EncodeByte(b[0]) ==> c == '%' || Unreserved(c as int);
    }
  }

  /** Nothing in an encoded text can be taken for a delimiter of a URL or of a query. */
  lemma PctHasNoDelimiters(s: string)
    ensures forall c :: c in Pct(s) ==> c == '%' || Unreserved(c as int)
    ensures '&' !in Pct(s) && '=' !in Pct(s) && '?' !in Pct(s) && '#' !in Pct(s) && ' ' !in Pct(s) && '+' !in Pct(s)
  {
    EncodedChars(Utf8(s));
  }

  predicate PlainText(s: string) {
    forall i :: 0 <= i < |s| ==> Unreserved(s[i] as int)
  }

  /** Unreserved characters stand for themselves. */
  lemma {:induction false} PctPlain(s: string)
    requires PlainText(s)
    ensures Pct(s) == s
  {
    if s != [] {
      assert PlainText(s[1..]) by {
        assert forall i :: 0 <= i < |s[1..]| ==> s[1..][i] == s[i + 1];
      }
      PctPlain(s[1..]);
      assert Unreserved(s[0] as int);
      assert EncodeChar(s[0]) == [s[0] as int];
      assert Utf8(s) == [s[0] as int] + Utf8(s[1..]);
      assert Utf8(s)[1..] == Utf8(s[1..]);
      assert s == [s[0]] + s[1..];
    }
  }

  // ----- the two encodings in figures -----

  /**
   UTF-8 as section 3 of RFC 3629 has it: the lead byte announces the length, every other byte carries six bits, and
   the shortest length is taken.
   */
  lemma Utf8Bytes(c: char)
    ensures var n, b := c as int, EncodeChar(c);
            && |b| == (if n < 0x80 then 1 else if n < 0x800 then 2 else if n < 0x1_0000 then 3 else 4)
            && (forall i :: 1 <= i < |b| ==> 0x80 <= b[i] < 0xC0)
            && (|b| == 1 ==> At(b, 0) == n)
            && (|b| == 2 ==> n == (At(b, 0) - 0xC0) * 64 + (At(b, 1) - 0x80))
            && (|b| == 3 ==> n == ((At(b, 0) - 0xE0) * 64 + (At(b, 1) - 0x80)) * 64 + (At(b, 2) - 0x80))
            && (|b| == 4 ==> n == (((At(b, 0) - 0xF0) * 64 + (At(b, 1) - 0x80)) * 64 + (At(b, 2) - 0x80)) * 64
                                + (At(b, 3) - 0x80))
  {
  }

  /** The unreserved characters of section 2.3 of RFC 3986 stand for themselves, and no others do. */
  lemma UnreservedSet(b: Byte)
    ensures EncodeByte(b) == [b as char] <==>
              || 65 <= b <= 90 || 97 <= b <= 122 || 48 <= b <= 57
              || b as char in "-._~"
    ensures |EncodeByte(b)| == 1 || |EncodeByte(b)| == 3
  {
  }

  /** Any other byte is a percent sign and its two hexadecimal digits, in upper case. */
  lemma EscapedByte(b: Byte)
    ensures |EncodeByte(b)| == 3 ==>
              EncodeByte(b) == ['%', "0123456789ABCDEF"[b / 16], "0123456789ABCDEF"[b % 16]]
  {
    HexDigits(b / 16);
    HexDigits(b % 16);
    hide HexDigit, Unreserved;
  }

  lemma HexDigits(n: nat)
    requires n < 16
    ensures HexDigit(n) == "0123456789ABCDEF"[n]
  {
  }
}
