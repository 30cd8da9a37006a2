/** Compact JWS tokens: splitting, and the signature decision around an abstract crypto predicate. */
module Jwt {
  import opened Prelude
  import opened Base64Url
  import opened Strings
  import opened Json
  import opened Jwks
  import opened KeyLookup

  const ALG_RS256 := "RS256"
  const ALG_ES256 := "ES256"

  datatype Header = Header(alg: string, kid: Option<string>, crit: Option<seq<string>>)

  datatype Parts = Parts(header: Header, payload: Bytes, signature: Bytes, signingInput: string)

  /**
   What the model takes from outside: the JSON readers of the header and of the claims, and the two signature
   verifiers, over decoded key material, the exact message and the signature.
   */
  datatype Library = Library(
    parseHeader: Bytes -> Option<Header>,
    parseClaims: Bytes -> Option<Value>,
    rs256: (Bytes, Bytes, string, Bytes) -> bool,
    es256: (Bytes, string, Bytes) -> bool)

  datatype SplitError = NotThreeSegments | HeaderNotBase64 | MalformedHeader | PayloadNotBase64 | SignatureNotBase64

  function SplitToken(lib: Library, token: string): Result<Parts, SplitError> {
    var segments := Split(token, '.');
    if |segments| != 3 then Err(NotThreeSegments)
    else
      match Decode(segments[0])
      case None => Err(HeaderNotBase64)
      case Some(headerBytes) =>
        match lib.parseHeader(headerBytes)
        case None => Err(MalformedHeader)
        case Some(header) =>
          match Decode(segments[1])
          case None => Err(PayloadNotBase64)
          case Some(payload) =>
            match Decode(segments[2])
            case None => Err(SignatureNotBase64)
            case Some(signature) =>
              TwoDots(token);
              Ok(Parts(header, payload, signature, token[..LastIndexOf(token, '.').value]))
  }

  /** What an issuer signs, and the token it sends. */
  function SigningInput(header: Bytes, payload: Bytes): string {
    Encode(header) + "." + Encode(payload)
  }

  function Compact(header: Bytes, payload: Bytes, signature: Bytes): string {
    SigningInput(header, payload) + "." + Encode(signature)
  }

  /** The last dot of a text in three segments is the one before the third segment. */
  lemma TwoDots(token: string)
    requires |Split(token, '.')| == 3
    ensures var s := Split(token, '.');
            && token == s[0] + "." + s[1] + "." + s[2]
            && LastIndexOf(token, '.') == Some(|s[0] + "." + s[1]|)
            && token[..LastIndexOf(token, '.').value] == s[0] + "." + s[1]
  {
    var s := Split(token, '.');
    JoinSplit(token, '.');
    SplitPieces(token, '.');
    assert s == [s[0], s[1], s[2]];
    assert Join(s, '.') == s[0] + "." + Join(s[1..], '.');
    assert s[1..] == [s[1], s[2]];
    assert Join(s[1..], '.') == s[1] + "." + Join(s[1..][1..], '.');
    assert s[1..][1..] == [s[2]];
    var input := s[0] + "." + s[1];
    assert token == input + ['.'] + s[2];
    assert s[2] in s;
    LastSeparator(input, s[2], '.');
  }

  lemma SplitCompact(header: Bytes, payload: Bytes, signature: Bytes)
    ensures Split(Compact(header, payload, signature), '.') == [Encode(header), Encode(payload), Encode(signature)]
  {
    EncodeHasNoDot(header);
    EncodeHasNoDot(payload);
    EncodeHasNoDot(signature);
    SplitPlain(Encode(header), '.');
    SplitPlain(Encode(payload), '.');
    SplitPlain(Encode(signature), '.');
    SplitAt(Encode(header), Encode(payload), '.');
    SplitAt(SigningInput(header, payload), Encode(signature), '.');
  }

  /** Splitting what an issuer sends returns its payload, its signature and exactly the bytes it signed. */
  lemma SplitReadsWhatSignWrites(lib: Library, header: Bytes, payload: Bytes, signature: Bytes)
    ensures var token := Compact(header, payload, signature);
            match lib.parseHeader(header)
            case Some(h) => SplitToken(lib, token) == Ok(Parts(h, payload, signature, SigningInput(header, payload)))
            case None => SplitToken(lib, token) == Err(MalformedHeader)
  {
    var token := Compact(header, payload, signature);
    SplitCompact(header, payload, signature);
    EncodeDecode(header);
    EncodeDecode(payload);
    EncodeDecode(signature);
    TwoDots(token);
  }

  /**
   Every token `split` accepts is what some issuer would send for the parts it returns: the token is the signing
   input, a dot and the signature, and the signing input is a header that parses to the one returned, a dot and
   the payload. So nothing of the token escapes the signature but the signature itself.
   */
  lemma SplitAcceptsOnlyCompactTokens(lib: Library, token: string) returns (header: Bytes)
    requires SplitToken(lib, token).Ok?
    ensures var p := SplitToken(lib, token).value;
            && token == p.signingInput + "." + Encode(p.signature)
            && p.signingInput == SigningInput(header, p.payload)
            && token == Compact(header, p.payload, p.signature)
            && lib.parseHeader(header) == Some(p.header)
  {
    var s := Split(token, '.');
    TwoDots(token);
    header := Decode(s[0]).value;
    DecodeEncode(s[0]);
    DecodeEncode(s[1]);
    DecodeEncode(s[2]);
  }

  /** Two accepted tokens with the same signing input and signature are the same token, and carry the same parts. */
  lemma PartsDetermineToken(lib: Library, a: string, b: string)
    requires SplitToken(lib, a).Ok? && SplitToken(lib, b).Ok?
    ensures a == b <==>
              && SplitToken(lib, a).value.signingInput == SplitToken(lib, b).value.signingInput
              && SplitToken(lib, a).value.signature == SplitToken(lib, b).value.signature
  {
    var ha := SplitAcceptsOnlyCompactTokens(lib, a);
    var hb := SplitAcceptsOnlyCompactTokens(lib, b);
  }

  /** Why a text is no token: its first part that is not as it should be. */
  lemma SplitErrorsAreExact(lib: Library, token: string)
    ensures var s, r := Split(token, '.'), SplitToken(lib, token);
            && (r == Err(NotThreeSegments) <==> |s| != 3)
            && (r == Err(HeaderNotBase64) <==> |s| == 3 && !Written(Some(s[0])))
            && (r == Err(MalformedHeader) <==>
                  |s| == 3 && exists h :: s[0] == Encode(h) && lib.parseHeader(h).None?)
            && (r == Err(PayloadNotBase64) <==>
                  && |s| == 3 && !Written(Some(s[1]))
                  && exists h :: s[0] == Encode(h) && lib.parseHeader(h).Some?)
            && (r == Err(SignatureNotBase64) <==>
                  && |s| == 3 && Written(Some(s[1])) && !Written(Some(s[2]))
                  && exists h :: s[0] == Encode(h) && lib.parseHeader(h).Some?)
  {
    var s := Split(token, '.');
    if |s| == 3 {
      Segment(s[0]);
      Segment(s[1]);
      Segment(s[2]);
    }
    hide Split, Decode, Encode, Written;
  }

  /** A segment is the text of the bytes it decodes to, and of no others. */
  lemma Segment(s: string)
    ensures Decode(s).Some? <==> Written(Some(s))
    ensures forall b :: s == Encode(b) <==> Decode(s) == Some(b)
  {
    if Decode(s).Some? {
      DecodeEncode(s);
    }
    forall b ensures s == Encode(b) <==> Decode(s) == Some(b) {
      EncodeDecode(b);
    }
    hide Decode, Encode;
  }

  // ----- signatures -----

  /** The decision of `verify_signature`, on a key whose material has been decoded. */
  function Decide(lib: Library, parts: Parts, key: Jwk, material: KeyMaterial): Result<(), Error> {
    if parts.header.crit.Some? && parts.header.crit.value != [] then Err(CriticalExtension)
    else if key.keyUse == Some("enc") then Err(EncryptionKey)
    else if parts.header.alg == ALG_RS256 then
      if key.kty != "RSA" then Err(KeyTypeMismatch)
      else (
        match material
        case Rsa(n, e) => if lib.rs256(n, e, parts.signingInput, parts.signature) then Ok(()) else Err(BadSignature)
        case Unusable(why) => Err(UnusableMaterial(why))
        case Ec(_) => Err(MaterialMismatch)
      )
    else if parts.header.alg == ALG_ES256 then
      if key.kty != "EC" then Err(KeyTypeMismatch)
      else if key.crv != Some("P-256") then Err(WrongCurve)
      else (
        match material
        case Ec(point) => if lib.es256(point, parts.signingInput, parts.signature) then Ok(()) else Err(BadSignature)
        case Unusable(why) => Err(UnusableMaterial(why))
        case Rsa(_, _) => Err(MaterialMismatch)
      )
    else Err(ForbiddenAlg)
  }

  function VerifySignature(lib: Library, parts: Parts, key: Jwk): Result<(), Error> {
    Decide(lib, parts, key, MaterialOf(key))
  }

  /**
   A genuine signature of the token under the key, by the algorithm the header names: the crypto predicate holds for
   the bytes that the key's fields are the base64url texts of.
   */
  ghost predicate Genuine(lib: Library, parts: Parts, key: Jwk) {
    || (&& parts.header.alg == "RS256" && key.kty == "RSA"
        && exists n, e :: key.n == Some(Encode(n)) && key.e == Some(Encode(e))
             && lib.rs256(n, e, parts.signingInput, parts.signature))
    || (&& parts.header.alg == "ES256" && key.kty == "EC" && key.crv == Some("P-256")
        && exists x, y :: key.x == Some(Encode(x)) && key.y == Some(Encode(y))
             && lib.es256([0x04] + x + y, parts.signingInput, parts.signature))
  }

  /** The header names an extension that must be understood. */
  predicate Critical(parts: Parts) {
    parts.header.crit.Some? && parts.header.crit.value != []
  }

  /**
   A signature is accepted exactly when the header names no critical extension, the key is not an encryption
   key, and the crypto predicate of the named algorithm, which is RS256 with an RSA key or ES256 with a P-256 EC
   key, holds for the key's own decoded fields on exactly the transmitted signing input. The branch for material
   that contradicts its key type is never taken.
   */
  lemma AcceptedExactlyWhenGenuine(lib: Library, parts: Parts, key: Jwk)
    ensures VerifySignature(lib, parts, key).Ok? <==>
              && (parts.header.crit == None || parts.header.crit == Some([]))
              && key.keyUse != Some("enc")
              && Genuine(lib, parts, key)
    ensures VerifySignature(lib, parts, key) != Err(MaterialMismatch)
  {
    MaterialMatches(key);
    if parts.header.alg == "RS256" && key.kty == "RSA" {
      RsaGenuine(lib, parts, key);
    }
    if parts.header.alg == "ES256" && key.kty == "EC" && key.crv == Some("P-256") {
      EcGenuine(lib, parts, key);
    }
    hide MaterialOf, Genuine;
    assert Genuine(lib, parts, key) ==>
        (parts.header.alg == "RS256" && key.kty == "RSA")
        || (parts.header.alg == "ES256" && key.kty == "EC" && key.crv == Some("P-256")) by {
      GenuineKinds(lib, parts, key);
    }
  }

  lemma GenuineKinds(lib: Library, parts: Parts, key: Jwk)
    ensures Genuine(lib, parts, key) ==>
              || (parts.header.alg == "RS256" && key.kty == "RSA")
              || (parts.header.alg == "ES256" && key.kty == "EC" && key.crv == Some("P-256"))
  {
  }

  lemma MaterialMatches(key: Jwk)
    ensures MaterialOf(key).Rsa? ==> key.kty == "RSA"
    ensures MaterialOf(key).Ec? ==> key.kty == "EC"
  {
  }

  lemma RsaGenuine(lib: Library, parts: Parts, key: Jwk)
    requires parts.header.alg == "RS256" && key.kty == "RSA"
    ensures Genuine(lib, parts, key) <==>
              var m := MaterialOf(key); m.Rsa? && lib.rs256(m.n, m.e, parts.signingInput, parts.signature)
  {
    hide MaterialOf, Encode;
    var m := MaterialOf(key);
    if Genuine(lib, parts, key) {
      var n, e :| key.n == Some(Encode(n)) && key.e == Some(Encode(e))
        && lib.rs256(n, e, parts.signingInput, parts.signature);
      RsaMaterial(key, n, e);
    }
    if m.Rsa? && lib.rs256(m.n, m.e, parts.signingInput, parts.signature) {
      RsaMaterial(key, m.n, m.e);
    }
  }

  lemma EcGenuine(lib: Library, parts: Parts, key: Jwk)
    requires parts.header.alg == "ES256" && key.kty == "EC" && key.crv == Some("P-256")
    ensures Genuine(lib, parts, key) <==>
              var m := MaterialOf(key); m.Ec? && lib.es256(m.point, parts.signingInput, parts.signature)
  {
    hide MaterialOf, Encode;
    var m := MaterialOf(key);
    if Genuine(lib, parts, key) {
      var x, y :| key.x == Some(Encode(x)) && key.y == Some(Encode(y))
        && lib.es256([0x04] + x + y, parts.signingInput, parts.signature);
      EcMaterial(key, x, y);
    }
    if m.Ec? && lib.es256(m.point, parts.signingInput, parts.signature) {
      EcMaterial(key, [], []);
      var x, y :| key.x == Some(Encode(x)) && key.y == Some(Encode(y));
      EcMaterial(key, x, y);
    }
  }

  /** Why a signature is refused, each reason exactly when it applies; they are judged in this order. */
  lemma SignatureDenialsAreExact(lib: Library, parts: Parts, key: Jwk)
    ensures var denied := VerifySignature(lib, parts, key);
            var judged := !Critical(parts) && key.keyUse != Some("enc");
            var rsa, ec := parts.header.alg == "RS256", parts.header.alg == "ES256";
            var typed := (rsa && key.kty == "RSA") || (ec && key.kty == "EC" && key.crv == Some("P-256"));
            && (denied == Err(CriticalExtension) <==> Critical(parts))
            && (denied == Err(EncryptionKey) <==> !Critical(parts) && key.keyUse == Some("enc"))
            && (denied == Err(ForbiddenAlg) <==> judged && !rsa && !ec)
            && (denied == Err(KeyTypeMismatch) <==> judged && ((rsa && key.kty != "RSA") || (ec && key.kty != "EC")))
            && (denied == Err(WrongCurve) <==> judged && ec && key.kty == "EC" && key.crv != Some("P-256"))
            && (denied.Err? && denied.error.UnusableMaterial? <==> judged && typed && MaterialOf(key).Unusable?)
            && (MaterialOf(key).Unusable? && denied.Err? && denied.error.UnusableMaterial? ==>
                  denied.error.why == MaterialOf(key).why)
            && (denied == Err(BadSignature) <==>
                  judged && typed && !MaterialOf(key).Unusable? && !Genuine(lib, parts, key))
  {
    MaterialMatches(key);
    AcceptedExactlyWhenGenuine(lib, parts, key);
    hide MaterialOf, Genuine;
  }

  /** `verify_signature` on a cached key: the material comes from the key's memo. */
  method VerifyWithMemo(lib: Library, parts: Parts, cell: JwkCell) returns (r: Result<(), Error>)
    requires cell.Valid()
    modifies cell
    ensures cell.Valid()
    ensures r == VerifySignature(lib, parts, cell.jwk)
    ensures old(cell.decoded).Some? ==> cell.decoded == old(cell.decoded)
  {
    if parts.header.crit.Some? && parts.header.crit.value != [] {
      return Err(CriticalExtension);
    }
    if cell.jwk.keyUse == Some("enc") {
      return Err(EncryptionKey);
    }
    if parts.header.alg == ALG_RS256 {
      if cell.jwk.kty != "RSA" {
        return Err(KeyTypeMismatch);
      }
      var m := cell.Material();
      return Decide(lib, parts, cell.jwk, m);
    } else if parts.header.alg == ALG_ES256 {
      if cell.jwk.kty != "EC" {
        return Err(KeyTypeMismatch);
      }
      if cell.jwk.crv != Some("P-256") {
        return Err(WrongCurve);
      }
      var m := cell.Material();
      return Decide(lib, parts, cell.jwk, m);
    } else {
      return Err(ForbiddenAlg);
    }
  }

  /** The keys of cached cells, in order. */
  function KeysOf(cells: seq<JwkCell>): seq<Jwk> {
    if cells == [] then [] else [cells[0].jwk] + KeysOf(cells[1..])
  }

  lemma {:induction false} KeysOfConcat(a: seq<JwkCell>, b: seq<JwkCell>)
    ensures KeysOf(a + b) == KeysOf(a) + KeysOf(b)
  {
    if a == [] {
      assert a + b == b;
    } else {
      assert (a + b)[1..] == a[1..] + b;
      KeysOfConcat(a[1..], b);
    }
  }

  /** The keys that match among the first `i` cells. */
  function MatchesUpTo(cells: seq<JwkCell>, kid: string, i: nat): seq<Jwk>
    requires i <= |cells|
  {
    Matching(KeysOf(cells[..i]), kid)
  }

  lemma OneMoreCell(cells: seq<JwkCell>, kid: string, i: nat)
    requires i < |cells|
    ensures MatchesUpTo(cells, kid, i + 1)
         == MatchesUpTo(cells, kid, i) + (if Matches(cells[i].jwk, kid) then [cells[i].jwk] else [])
  {
    assert cells[..i + 1] == cells[..i] + [cells[i]];
    KeysOfConcat(cells[..i], [cells[i]]);
    assert KeysOf([cells[i]]) == [cells[i].jwk];
    MatchingConcat(KeysOf(cells[..i]), [cells[i].jwk], kid);
    assert [cells[i].jwk][1..] == [];
  }

  /** A lookup over more keys, when none so far was accepted. */
  lemma {:induction false} TryKeysSnoc(matches: seq<Jwk>, k: Jwk, check: Jwk -> Result<(), Error>)
    ensures TryKeys(matches + [k], check)
         == (match TryKeys(matches, check)
             case Some(Ok(v)) => Some(Ok(v))
             case _ => Some(check(k)))
  {
    if matches == [] {
      assert matches + [k] == [k];
      assert [k][1..] == [];
    } else {
      assert (matches + [k])[1..] == matches[1..] + [k];
      TryKeysSnoc(matches[1..], k, check);
    }
  }

  /**
   A lookup over cached keys with their memos, some decoded by earlier calls and some not, answers exactly what
   decoding every key afresh would.
   */
  method LookupWithMemo(lib: Library, parts: Parts, cells: seq<JwkCell>, kid: string)
      returns (r: Option<Result<(), Error>>)
    requires forall i :: 0 <= i < |cells| ==> cells[i].Valid()
    modifies cells
    ensures forall i :: 0 <= i < |cells| ==> cells[i].Valid()
    ensures r == TryAll(JwkSet(KeysOf(cells)), kid, key => VerifySignature(lib, parts, key))
  {
    var check := (key: Jwk) => VerifySignature(lib, parts, key);
    r := None;
    var i := 0;
    while i < |cells|
      invariant 0 <= i <= |cells|
      invariant forall j :: 0 <= j < |cells| ==> cells[j].Valid()
      invariant r == TryKeys(MatchesUpTo(cells, kid, i), check)
      invariant r.Some? ==> r.value.Err?
    {
      OneMoreCell(cells, kid, i);
      if Matches(cells[i].jwk, kid) {
        TryKeysSnoc(MatchesUpTo(cells, kid, i), cells[i].jwk, check);
        var one := VerifyWithMemo(lib, parts, cells[i]);
        assert one == check(cells[i].jwk);
        r := Some(one);
        if one.Ok? {
          AcceptedStays(cells, i, kid, check);
          return;
        }
      } else {
        assert MatchesUpTo(cells, kid, i + 1) == MatchesUpTo(cells, kid, i);
      }
      i := i + 1;
    }
    assert cells[..i] == cells;
  }

  /** Once a key is accepted, the keys behind it do not matter. */
  lemma {:induction false} TryKeysConcat(a: seq<Jwk>, b: seq<Jwk>, check: Jwk -> Result<(), Error>)
    requires TryKeys(a, check).Some? && TryKeys(a, check).value.Ok?
    ensures TryKeys(a + b, check) == TryKeys(a, check)
  {
    assert (a + b)[1..] == a[1..] + b;
    if check(a[0]).Err? {
      TryKeysConcat(a[1..], b, check);
    }
  }

  lemma AcceptedStays(cells: seq<JwkCell>, i: nat, kid: string, check: Jwk -> Result<(), Error>)
    requires i < |cells|
    requires TryKeys(MatchesUpTo(cells, kid, i + 1), check).Some?
    requires TryKeys(MatchesUpTo(cells, kid, i + 1), check).value.Ok?
    ensures TryAll(JwkSet(KeysOf(cells)), kid, check) == TryKeys(MatchesUpTo(cells, kid, i + 1), check)
  {
    hide Matching, KeysOf, TryKeys;
    var head, tail := cells[..i + 1], cells[i + 1..];
    assert cells == head + tail;
    KeysOfConcat(head, tail);
    MatchingConcat(KeysOf(head), KeysOf(tail), kid);
    TryKeysConcat(Matching(KeysOf(head), kid), Matching(KeysOf(tail), kid), check);
  }
}
