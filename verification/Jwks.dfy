/** The JWKS model of `auth-oidc/src/jwks.rs`: keys, their decoded material, and selection by `kid`. */
module Jwks {
  import opened Prelude
  import opened Base64Url

  /** One JSON Web Key, as far as the verifier reads it. */
  datatype Jwk = Jwk(
    kty: string,
    kid: Option<string>,
    n: Option<string>,
    e: Option<string>,
    crv: Option<string>,
    x: Option<string>,
    y: Option<string>,
    keyUse: Option<string>)

  datatype Field = RsaModulus | RsaExponent | EcX | EcY

  datatype MaterialError =
    | Missing(field: Field)
    | NotBase64Url(field: Field)
    | UnsupportedKty(kty: string)

  datatype KeyMaterial =
    | Rsa(n: Bytes, e: Bytes)
    | Ec(point: Bytes)
    | Unusable(why: MaterialError)

  /** A non-empty list of keys, in document order. */
  datatype JwkSet = JwkSet(keys: seq<Jwk>)

  /** Why an operation on keys or tokens failed; stands for the source's error texts. */
  datatype Error =
    // JWKS fetch and parse
    | FetchFailed
    | InvalidDocument
    | EmptyDocument
    // key cache
    | NothingFetched
    | StaleKeys
    | UnknownKid
    // signature verification
    | CriticalExtension
    | EncryptionKey
    | KeyTypeMismatch
    | WrongCurve
    | UnusableMaterial(why: MaterialError)
    | MaterialMismatch
    | BadSignature
    | ForbiddenAlg

  /**
   The body of a JWKS response after JSON parsing: either not a JWKS document at all, or its `keys` array,
   each entry either a usable key or not.
   */
  datatype Document = NotJwks | Keys(entries: seq<Option<Jwk>>)

  /** Keep the usable entries, in order. */
  function SkipUnusable(entries: seq<Option<Jwk>>): seq<Jwk> {
    if entries == [] then []
    else match entries[0]
      case Some(k) => [k] + SkipUnusable(entries[1..])
      case None => SkipUnusable(entries[1..])
  }

  function Parse(doc: Document): (r: Result<JwkSet, Error>)
    ensures r.Ok? ==> r.value.keys != []
  {
    match doc
    case NotJwks => Err(InvalidDocument)
    case Keys(entries) =>
      var keys := SkipUnusable(entries);
      if keys == [] then Err(EmptyDocument) else Ok(JwkSet(keys))
  }

  predicate Matches(k: Jwk, kid: string) {
    k.kid == Some(kid) || (kid == "" && k.kid.None?)
  }

  function Matching(keys: seq<Jwk>, kid: string): seq<Jwk> {
    if keys == [] then []
    else if Matches(keys[0], kid) then [keys[0]] + Matching(keys[1..], kid)
    else Matching(keys[1..], kid)
  }

  /** Every key of the set that a token header naming `kid` selects, in document order. */
  function FindAll(jwks: JwkSet, kid: string): seq<Jwk> {
    Matching(jwks.keys, kid)
  }

  /** `keys` are the usable entries, all of them, in document order, each as often as it stands there. */
  ghost predicate UsableEntries(entries: seq<Option<Jwk>>, keys: seq<Jwk>, at: seq<nat>) {
    && Ascending(at) && |at| == |keys|
    && (forall i :: 0 <= i < |at| ==> at[i] < |entries| && entries[at[i]] == Some(keys[i]))
    && (forall e :: 0 <= e < |entries| && entries[e].Some? ==> e in at)
  }

  lemma {:induction false} SkipUnusableConcat(a: seq<Option<Jwk>>, b: seq<Option<Jwk>>)
    ensures SkipUnusable(a + b) == SkipUnusable(a) + SkipUnusable(b)
  {
    if a == [] {
      assert a + b == b;
    } else {
      assert (a + b)[0] == a[0] && (a + b)[1..] == a[1..] + b;
      SkipUnusableConcat(a[1..], b);
    }
  }

  /** Where the keys kept stand in the document. */
  lemma {:induction false} SkipUnusableKeeps(entries: seq<Option<Jwk>>) returns (at: seq<nat>)
    ensures UsableEntries(entries, SkipUnusable(entries), at)
  {
    at := [];
    if entries != [] {
      var init, last := entries[..|entries| - 1], entries[|entries| - 1];
      assert entries == init + [last];
      SkipUnusableConcat(init, [last]);
      assert SkipUnusable([last]) == if last.Some? then [last.value] else [];
      at := SkipUnusableKeeps(init);
      if last.Some? {
        at := at + [|init|];
      }
      hide SkipUnusable;
    }
  }

  /**
   A document installs something exactly when one of its entries is usable, and then it installs exactly its
   usable entries, in document order, each as often as it stands there: `at` gives their places. One odd entry
   takes no other key down, and no empty set comes out.
   */
  lemma ParseKeepsUsableKeys(doc: Document) returns (at: seq<nat>)
    ensures Parse(doc).Ok? <==> doc.Keys? && exists k :: Some(k) in doc.entries
    ensures Parse(doc).Ok? ==> UsableEntries(doc.entries, Parse(doc).value.keys, at)
    ensures Parse(doc) == Err(InvalidDocument) <==> doc == NotJwks
    ensures Parse(doc) == Err(EmptyDocument) <==> doc.Keys? && forall k :: Some(k) !in doc.entries
  {
    at := [];
    if doc.Keys? {
      at := SkipUnusableKeeps(doc.entries);
      if SkipUnusable(doc.entries) != [] {
        assert Some(SkipUnusable(doc.entries)[0]) == doc.entries[at[0]];
      }
    }
  }

  lemma {:induction false} MatchingMembers(keys: seq<Jwk>, kid: string)
    ensures forall k :: k in Matching(keys, kid) <==> k in keys && Matches(k, kid)
  {
    if keys != [] {
      MatchingMembers(keys[1..], kid);
      assert keys == [keys[0]] + keys[1..];
    }
  }

  lemma {:induction false} MatchingConcat(a: seq<Jwk>, b: seq<Jwk>, kid: string)
    ensures Matching(a + b, kid) == Matching(a, kid) + Matching(b, kid)
  {
    hide Matches;
    if a == [] {
      assert a + b == b;
    } else {
      MatchingConcat(a[1..], b, kid);
      assert (a + b)[0] == a[0] && (a + b)[1..] == a[1..] + b;
    }
  }

  // ----- key material -----

  function DecodeField(field: Option<string>, which: Field): Result<Bytes, MaterialError> {
    match field
    case None => Err(Missing(which))
    case Some(s) =>
      match Decode(s)
      case None => Err(NotBase64Url(which))
      case Some(b) => Ok(b)
  }

  /** What a key's material is, decided from its fields alone. */
  function MaterialOf(k: Jwk): KeyMaterial {
    if k.kty == "RSA" then
      match DecodeField(k.n, RsaModulus)
      case Err(why) => Unusable(why)
      case Ok(n) =>
        match DecodeField(k.e, RsaExponent)
        case Err(why) => Unusable(why)
        case Ok(e) => Rsa(n, e)
    else if k.kty == "EC" then
      match DecodeField(k.x, EcX)
      case Err(why) => Unusable(why)
      case Ok(x) =>
        match DecodeField(k.y, EcY)
        case Err(why) => Unusable(why)
        case Ok(y) => Ec([4] + x + y)
    else Unusable(UnsupportedKty(k.kty))
  }

  /** The field is the base64url text of some bytes. */
  ghost predicate Written(field: Option<string>) {
    exists b :: field == Some(Encode(b))
  }

  lemma DecodedField(field: Option<string>, which: Field, b: Bytes)
    ensures DecodeField(field, which) == Ok(b) <==> field == Some(Encode(b))
    ensures DecodeField(field, which).Ok? <==> Written(field)
    ensures DecodeField(field, which) == Err(Missing(which)) <==> field == None
    ensures DecodeField(field, which) == Err(NotBase64Url(which)) <==> field.Some? && !Written(field)
  {
    EncodeDecode(b);
    if field.Some? {
      if Decode(field.value).Some? {
        DecodeEncode(field.value);
        assert field == Some(Encode(Decode(field.value).value));
      }
      forall c | field == Some(Encode(c)) ensures Decode(field.value) == Some(c) {
        EncodeDecode(c);
      }
    }
    hide Decode, Encode;
  }

  /** RSA material is exactly the bytes whose base64url texts are the modulus and the exponent of an RSA key. */
  lemma RsaMaterial(k: Jwk, n: Bytes, e: Bytes)
    ensures MaterialOf(k) == Rsa(n, e) <==> k.kty == "RSA" && k.n == Some(Encode(n)) && k.e == Some(Encode(e))
  {
    DecodedField(k.n, RsaModulus, n);
    DecodedField(k.e, RsaExponent, e);
    hide DecodeField, Encode;
  }

  /** EC material is exactly `0x04`, X and Y, for the bytes whose base64url texts are the coordinates of an EC key. */
  lemma EcMaterial(k: Jwk, x: Bytes, y: Bytes)
    ensures k.kty == "EC" && k.x == Some(Encode(x)) && k.y == Some(Encode(y)) ==> MaterialOf(k) == Ec([0x04] + x + y)
    ensures MaterialOf(k).Ec? <==> k.kty == "EC" && Written(k.x) && Written(k.y)
  {
    DecodedField(k.x, EcX, x);
    DecodedField(k.y, EcY, y);
    hide DecodeField, Encode, Written;
  }

  /** Why a key is unusable: its type, or its first required field that is absent or no base64url text. */
  lemma UnusableMaterialExactly(k: Jwk)
    ensures MaterialOf(k) == Unusable(UnsupportedKty(k.kty)) <==> k.kty != "RSA" && k.kty != "EC"
    ensures MaterialOf(k) == Unusable(Missing(RsaModulus)) <==> k.kty == "RSA" && k.n == None
    ensures MaterialOf(k) == Unusable(NotBase64Url(RsaModulus)) <==> k.kty == "RSA" && k.n.Some? && !Written(k.n)
    ensures MaterialOf(k) == Unusable(Missing(RsaExponent)) <==> k.kty == "RSA" && Written(k.n) && k.e == None
    ensures MaterialOf(k) == Unusable(NotBase64Url(RsaExponent)) <==>
              k.kty == "RSA" && Written(k.n) && k.e.Some? && !Written(k.e)
    ensures MaterialOf(k) == Unusable(Missing(EcX)) <==> k.kty == "EC" && k.x == None
    ensures MaterialOf(k) == Unusable(NotBase64Url(EcX)) <==> k.kty == "EC" && k.x.Some? && !Written(k.x)
    ensures MaterialOf(k) == Unusable(Missing(EcY)) <==> k.kty == "EC" && Written(k.x) && k.y == None
    ensures MaterialOf(k) == Unusable(NotBase64Url(EcY)) <==>
              k.kty == "EC" && Written(k.x) && k.y.Some? && !Written(k.y)
  {
    FieldFaults(k.n, RsaModulus);
    FieldFaults(k.e, RsaExponent);
    FieldFaults(k.x, EcX);
    FieldFaults(k.y, EcY);
    hide DecodeField, Written;
  }

  lemma FieldFaults(field: Option<string>, which: Field)
    ensures field == None ==> DecodeField(field, which) == Err(Missing(which)) && !Written(field)
    ensures field.Some? && !Written(field) ==> DecodeField(field, which) == Err(NotBase64Url(which))
    ensures Written(field) ==> DecodeField(field, which).Ok?
  {
    DecodedField(field, which, []);
    hide DecodeField;
  }

  method FromJwk(k: Jwk) returns (m: KeyMaterial)
    ensures m == MaterialOf(k)
  {
    hide DecodeField;
    if k.kty == "RSA" {
      var n := DecodeField(k.n, RsaModulus);
      if n.Err? {
        return Unusable(n.error);
      }
      var e := DecodeField(k.e, RsaExponent);
      if e.Err? {
        return Unusable(e.error);
      }
      return Rsa(n.value, e.value);
    } else if k.kty == "EC" {
      var x := DecodeField(k.x, EcX);
      if x.Err? {
        return Unusable(x.error);
      }
      var y := DecodeField(k.y, EcY);
      if y.Err? {
        return Unusable(y.error);
      }
      var point: Bytes := [];
      point := point + [4];
      point := point + x.value;
      point := point + y.value;
      assert point == [4] + x.value + y.value;
      return Ec(point);
    } else {
      return Unusable(UnsupportedKty(k.kty));
    }
  }

  /** A published key with its write-once memo of decoded material. */
  class JwkCell {
    const jwk: Jwk
    var decoded: Option<KeyMaterial>

    ghost predicate Valid()
      reads this
    {
      decoded.Some? ==> decoded.value == MaterialOf(jwk)
    }

    constructor (jwk: Jwk)
      ensures Valid() && this.jwk == jwk && decoded == None
    {
      this.jwk := jwk;
      this.decoded := None;
    }

    /** Decode on first use; afterwards the memo is read and never written again. */
    method Material() returns (m: KeyMaterial)
      requires Valid()
      modifies this
      ensures Valid() && m == MaterialOf(jwk)
      ensures decoded == Some(m)
      ensures old(decoded).Some? ==> decoded == old(decoded)
    {
      if decoded.None? {
        var m0 := FromJwk(jwk);
        decoded := Some(m0);
      }
      m := decoded.value;
    }
  }
}
