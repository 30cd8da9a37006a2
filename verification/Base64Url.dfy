/**
 Library model: base64url without padding (section 5 of RFC 4648), as the engine `URL_SAFE_NO_PAD` reads
 and writes it. Decoding is strict: no padding, no character outside the alphabet, and the unused low bits
 of the last character must be zero.
 */
module Base64Url {
  import opened Prelude

  type Byte = b: int | 0 <= b < 256
  type Bytes = seq<Byte>
  type Sextet = v: int | 0 <= v < 64

  function Digit(v: Sextet): char {
    if v < 26 then ('A' as int + v) as char
    else if v < 52 then ('a' as int + (v - 26)) as char
    else if v < 62 then ('0' as int + (v - 52)) as char
    else if v == 62 then '-'
    else '_'
  }

  function Value(c: char): Option<Sextet> {
    if 'A' <= c <= 'Z' then Some(c as int - 'A' as int)
    else if 'a' <= c <= 'z' then Some(c as int - 'a' as int + 26)
    else if '0' <= c <= '9' then Some(c as int - '0' as int + 52)
    else if c == '-' then Some(62)
    else if c == '_' then Some(63)
    else None
  }

  // The four sextets of three bytes, and the three bytes of four sextets.

  function S0(x: Byte): Sextet { x / 4 }
  function S1(x: Byte, y: Byte): Sextet { x % 4 * 16 + y / 16 }
  function S2(y: Byte, z: Byte): Sextet { y % 16 * 4 + z / 64 }
  function S3(z: Byte): Sextet { z % 64 }

  function B0(a: Sextet, b: Sextet): Byte { a * 4 + b / 16 }
  function B1(b: Sextet, c: Sextet): Byte { b % 16 * 16 + c / 4 }
  function B2(c: Sextet, d: Sextet): Byte { c % 4 * 64 + d }

  function Encode(b: Bytes): string {
    if |b| == 0 then ""
    else if |b| == 1 then [Digit(S0(b[0])), Digit(S1(b[0], 0))]
    else if |b| == 2 then [Digit(S0(b[0])), Digit(S1(b[0], b[1])), Digit(S2(b[1], 0))]
    else
      [Digit(S0(b[0])), Digit(S1(b[0], b[1])), Digit(S2(b[1], b[2])), Digit(S3(b[2]))] + Encode(b[3..])
  }

  function Decode(s: string): Option<Bytes> {
    if |s| == 0 then Some([])
    else if |s| == 1 then None
    else match (Value(s[0]), Value(s[1]))
      case (Some(a), Some(b)) =>
        if |s| == 2 then
          if b % 16 == 0 then Some([B0(a, b)]) else None
        else (
          match Value(s[2])
          case None => None
          case Some(c) =>
            if |s| == 3 then
              if c % 4 == 0 then Some([B0(a, b), B1(b, c)]) else None
            else (
              match (Value(s[3]), Decode(s[4..]))
              case (Some(d), Some(rest)) => Some([B0(a, b), B1(b, c), B2(c, d)] + rest)
              case _ => None
            )
        )
      case _ => None
  }

  lemma Digits16(high: nat, low: nat)
    requires low < 16
    ensures (high * 16 + low) / 16 == high && (high * 16 + low) % 16 == low
  {
  }

  lemma Digits4(high: nat, low: nat)
    requires low < 4
    ensures (high * 4 + low) / 4 == high && (high * 4 + low) % 4 == low
  {
  }

  lemma FirstByte(x: Byte, y: Byte)
    ensures B0(S0(x), S1(x, y)) == x && S1(x, 0) % 16 == 0
  {
    Digits16(x % 4, y / 16);
    Digits16(x % 4, 0);
  }

  lemma SecondByte(x: Byte, y: Byte, z: Byte)
    ensures B1(S1(x, y), S2(y, z)) == y && S2(y, 0) % 4 == 0
  {
    Digits16(x % 4, y / 16);
    Digits4(y % 16, z / 64);
    Digits4(y % 16, 0);
  }

  lemma ThirdByte(y: Byte, z: Byte)
    ensures B2(S2(y, z), S3(z)) == z
  {
    Digits4(y % 16, z / 64);
  }

  lemma BytesOfSextets(x: Byte, y: Byte, z: Byte)
    ensures B0(S0(x), S1(x, y)) == x
    ensures B1(S1(x, y), S2(y, z)) == y
    ensures B2(S2(y, z), S3(z)) == z
    ensures S1(x, 0) % 16 == 0
    ensures S2(y, 0) % 4 == 0
  {
    hide S0, S1, S2, S3, B0, B1, B2;
    FirstByte(x, y);
    SecondByte(x, y, z);
    ThirdByte(y, z);
  }

  lemma SextetsOfBytes(a: Sextet, b: Sextet, c: Sextet, d: Sextet)
    ensures S0(B0(a, b)) == a
    ensures S1(B0(a, b), B1(b, c)) == b
    ensures S2(B1(b, c), B2(c, d)) == c
    ensures S3(B2(c, d)) == d
    ensures b % 16 == 0 ==> S1(B0(a, b), 0) == b
    ensures c % 4 == 0 ==> S2(B1(b, c), 0) == c
  {
  }

  lemma DigitValue(v: Sextet)
    ensures Value(Digit(v)) == Some(v)
  {
  }

  lemma ValueDigit(c: char)
    requires Value(c).Some?
    ensures Digit(Value(c).value) == c
  {
  }

  /** What `encode` writes, `decode` reads back. */
  lemma {:induction false} EncodeDecode(b: Bytes)
    ensures Decode(Encode(b)) == Some(b)
  {
    hide S0, S1, S2, S3, B0, B1, B2, Digit, Value;
    if |b| == 0 {
    } else if |b| == 1 {
      BytesOfSextets(b[0], 0, 0);
      DigitValue(S0(b[0]));
      DigitValue(S1(b[0], 0));
      assert b == [b[0]];
    } else if |b| == 2 {
      BytesOfSextets(b[0], b[1], 0);
      DigitValue(S0(b[0]));
      DigitValue(S1(b[0], b[1]));
      DigitValue(S2(b[1], 0));
      assert b == [b[0], b[1]];
    } else {
      EncodeDecode(b[3..]);
      EncodeGroup(b);
    }
  }

  /** Three bytes in front are four characters in front. */
  lemma EncodeCons(x: Byte, y: Byte, z: Byte, rest: Bytes)
    ensures Encode([x, y, z] + rest) == [Digit(S0(x)), Digit(S1(x, y)), Digit(S2(y, z)), Digit(S3(z))] + Encode(rest)
  {
    hide S0, S1, S2, S3, Digit;
    assert ([x, y, z] + rest)[3..] == rest;
  }

  /** Four characters in front are three bytes in front. */
  lemma DecodeCons(p: char, q: char, r: char, t: char, rest: string)
    requires Value(p).Some? && Value(q).Some? && Value(r).Some? && Value(t).Some? && Decode(rest).Some?
    ensures var a, b, c, d := Value(p).value, Value(q).value, Value(r).value, Value(t).value;
            Decode([p, q, r, t] + rest) == Some([B0(a, b), B1(b, c), B2(c, d)] + Decode(rest).value)
  {
    hide B0, B1, B2, Value;
    assert ([p, q, r, t] + rest)[4..] == rest;
  }

  lemma EncodeGroup(b: Bytes)
    requires |b| >= 3 && Decode(Encode(b[3..])) == Some(b[3..])
    ensures Decode(Encode(b)) == Some(b)
  {
    hide Encode, Decode, S0, S1, S2, S3, B0, B1, B2, Digit, Value;
    var x, y, z := b[0], b[1], b[2];
    assert b == [x, y, z] + b[3..];
    BytesOfSextets(x, y, z);
    DigitValue(S0(x));
    DigitValue(S1(x, y));
    DigitValue(S2(y, z));
    DigitValue(S3(z));
    EncodeCons(x, y, z, b[3..]);
    DecodeCons(Digit(S0(x)), Digit(S1(x, y)), Digit(S2(y, z)), Digit(S3(z)), Encode(b[3..]));
  }

  /** Every text `decode` accepts is the one `encode` writes for its bytes: the encoding is canonical. */
  lemma {:induction false} DecodeEncode(s: string)
    requires Decode(s).Some?
    ensures Encode(Decode(s).value) == s
  {
    hide S0, S1, S2, S3, B0, B1, B2, Digit, Value;
    if |s| == 0 {
    } else {
      ValueDigit(s[0]);
      ValueDigit(s[1]);
      var a, b := Value(s[0]).value, Value(s[1]).value;
      if |s| == 2 {
        SextetsOfBytes(a, b, 0, 0);
        assert s == [s[0], s[1]];
      } else {
        ValueDigit(s[2]);
        var c := Value(s[2]).value;
        if |s| == 3 {
          SextetsOfBytes(a, b, c, 0);
          assert s == [s[0], s[1], s[2]];
        } else {
          DecodeEncode(s[4..]);
          DecodeGroup(s);
        }
      }
    }
  }

  lemma DecodeGroup(s: string)
    requires |s| >= 4 && Value(s[0]).Some? && Value(s[1]).Some? && Value(s[2]).Some? && Value(s[3]).Some?
    requires Decode(s[4..]).Some? && Encode(Decode(s[4..]).value) == s[4..]
    ensures Decode(s).Some? && Encode(Decode(s).value) == s
  {
    hide Encode, Decode, S0, S1, S2, S3, B0, B1, B2, Digit, Value;
    var a, b, c, d := Value(s[0]).value, Value(s[1]).value, Value(s[2]).value, Value(s[3]).value;
    assert s == [s[0], s[1], s[2], s[3]] + s[4..];
    ValueDigit(s[0]);
    ValueDigit(s[1]);
    ValueDigit(s[2]);
    ValueDigit(s[3]);
    SextetsOfBytes(a, b, c, d);
    DecodeCons(s[0], s[1], s[2], s[3], s[4..]);
    EncodeCons(B0(a, b), B1(b, c), B2(c, d), Decode(s[4..]).value);
  }

  lemma {:induction false} EncodeHasNoDot(b: Bytes)
    ensures '.' !in Encode(b)
  {
    if |b| >= 3 {
      EncodeHasNoDot(b[3..]);
      forall v: Sextet ensures Digit(v) != '.' { DigitValue(v); }
    } else {
      forall v: Sextet ensures Digit(v) != '.' { DigitValue(v); }
    }
  }

  /** The alphabet of section 5 of RFC 4648, in order. */
  lemma Alphabet(v: Sextet)
    ensures v < 26 ==> Digit(v) == "ABCDEFGHIJKLMNOPQRSTUVWXYZ"[v]
    ensures 26 <= v < 52 ==> Digit(v) == "abcdefghijklmnopqrstuvwxyz"[v - 26]
    ensures 52 <= v ==> Digit(v) == "0123456789-_"[v - 52]
  {
  }

  /** The four sextets are the three bytes, read as one number with the first byte in front. */
  lemma BigEndian(x: Byte, y: Byte, z: Byte)
    ensures ((S0(x) * 64 + S1(x, y)) * 64 + S2(y, z)) * 64 + S3(z) == (x * 256 + y) * 256 + z
  {
    assert x == x / 4 * 4 + x % 4 && y == y / 16 * 16 + y % 16 && z == z / 64 * 64 + z % 64;
  }

  /** The test vectors of section 10 of RFC 4648, without their padding. */
  lemma Vectors()
    ensures Encode([0x66]) == "Zg"
    ensures Encode([0x66, 0x6F]) == "Zm8"
    ensures Encode([0x66, 0x6F, 0x6F]) == "Zm9v"
    ensures Encode([0x66, 0x6F, 0x6F, 0x62]) == "Zm9vYg"
  {
    assert Encode([0x66]) == [Digit(25), Digit(32)];
    assert Encode([0x66, 0x6F]) == [Digit(25), Digit(38), Digit(60)];
    EncodeCons(0x66, 0x6F, 0x6F, []);
    EncodeCons(0x66, 0x6F, 0x6F, [0x62]);
    assert [0x66, 0x6F, 0x6F] + [] == [0x66, 0x6F, 0x6F];
    assert [0x66, 0x6F, 0x6F] + [0x62] == [0x66, 0x6F, 0x6F, 0x62];
    assert Encode([0x62]) == [Digit(24), Digit(32)];
    assert "Zm9v" + "Yg" == "Zm9vYg" && "Zm9v" + "" == "Zm9v";
  }
}
