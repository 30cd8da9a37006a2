/** The OIDC module: from a presented token to a verdict, and the two halves of browser login. */
module Oidc {
  import opened Prelude
  import opened Base64Url
  import opened Json
  import opened Jwks
  import opened KeyLookup
  import opened CachePolicy
  import opened KeyCache
  import opened Jwt
  import opened Claims
  import opened Strings
  import opened Scopes
  import opened Authorize

  /** `Unwinds` is a call that did not return because the fetcher panicked. */
  datatype AuthVerdict = Identify(principal: Principal) | Reject | Pass | Unwinds

  datatype LoginOutcome = Identified(principal: Principal) | Rejected | AuthorizeAt(url: string) | Unwound

  datatype LoginResponse = LoginResponse(status: int, body: Option<Value>)

  /** The start of a login, as the core hands it over. */
  datatype BeginLogin = BeginLogin(request: Request, scopes: seq<string>)

  // ----- specification -----

  function KidOf(parts: Parts): string {
    match parts.header.kid case Some(kid) => kid case None => ""
  }

  function SignatureCheck(lib: Library, parts: Parts): Jwk -> Result<(), Error> {
    key => VerifySignature(lib, parts, key)
  }

  /** The verdict once the signature is accepted. */
  function ClaimsVerdict(lib: Library, v: Verifier, parts: Parts, now: I64): AuthVerdict {
    match lib.parseClaims(parts.payload)
    case None => Reject
    case Some(claims) =>
      match ValidateClaims(v, claims, now)
      case Ok(p) => Identify(p)
      case Err(_) => Reject
  }

  /** The key cache, its gate and its provider, as one call finds them. */
  datatype Source = Source(cfg: Config, gate: Gate, inner: Inner<JwkSet>, script: nat -> Fetch, from: nat)

  function SignatureAnswer(lib: Library, keys: Source, parts: Parts, now: Instant): Answer<()> {
    WithKeyAt(keys.cfg, keys.gate, keys.inner, KidOf(parts), now, SignatureCheck(lib, parts), keys.script, keys.from)
  }

  function Verdict(lib: Library, keys: Source, v: Verifier, token: string, nowUnix: I64, nowMono: Instant): AuthVerdict {
    match SplitToken(lib, token)
    case Err(_) => Pass
    case Ok(parts) =>
      match SignatureAnswer(lib, keys, parts, nowMono).outcome
      case Panicked => Unwinds
      case Returned(Err(_)) => Reject
      case Returned(Ok(_)) => ClaimsVerdict(lib, v, parts, nowUnix)
  }

  function BearerVerifier(cfg: OidcConfig): Verifier {
    Verifier(cfg.issuer, cfg.audience, cfg.roleClaim)
  }

  /** The login verifier expects the OAuth client id as audience. */
  function LoginVerifier(cfg: OidcConfig): Verifier {
    Verifier(cfg.issuer, ResolvedClientId(cfg), cfg.roleClaim)
  }

  function IdToken(resp: LoginResponse): Option<string> {
    if 200 <= resp.status < 300 && resp.body.Some? then AsStr(Get(resp.body.value, "id_token")) else None
  }

  // ----- the object -----

  class OidcModule {
    const lib: Library
    const verifier: Verifier
    const loginVerifier: Verifier
    const cfg: OidcConfig
    const jwks: JwksCache

    ghost predicate Valid()
      reads this
    {
      verifier == BearerVerifier(cfg) && loginVerifier == LoginVerifier(cfg)
    }

    /** What a call finds; `later` is the data once a held gate has come free. */
    function CachedKeys(later: Inner<JwkSet>): Source
      reads this, jwks, jwks.fetcher
    {
      Source(jwks.cfg, jwks.GateFor(later), jwks.Data(), jwks.fetcher.script, jwks.fetcher.calls)
    }

    constructor (lib: Library, cfg: OidcConfig, fetcher: Fetcher, minRefetch: Duration, ttl: Duration)
      ensures Valid() && this.lib == lib && this.cfg == cfg && fresh(jwks) && jwks.fetcher == fetcher
      ensures jwks.cfg == Config(minRefetch, ttl) && jwks.Data() == Inner(None, None, None) && !jwks.gateHeld
    {
      this.lib := lib;
      this.cfg := cfg;
      verifier := BearerVerifier(cfg);
      loginVerifier := LoginVerifier(cfg);
      jwks := new JwksCache(fetcher, minRefetch, ttl);
    }

    /** With the gate free or held by another request; `later` is what a call finds that has to wait for it. */
    method VerifyWith(v: Verifier, token: string, nowUnix: I64, nowMono: Instant, later: Inner<JwkSet>)
        returns (verdict: AuthVerdict)
      requires Valid()
      modifies jwks, jwks.fetcher
      ensures Valid()
      ensures verdict == Verdict(lib, old(CachedKeys(later)), v, token, nowUnix, nowMono)
      ensures verdict.Pass? ==> CachedKeys(later) == old(CachedKeys(later))
    {
      var split := SplitToken(lib, token);
      if split.Err? {
        return Pass;
      }
      var parts := split.value;
      var kid := match parts.header.kid case Some(kid) => kid case None => "";
      var checked := jwks.WithKey(kid, nowMono, SignatureCheck(lib, parts), later);
      if checked.Panicked? {
        return Unwinds;
      }
      if checked.result.Err? {
        return Reject;
      }
      var claims := lib.parseClaims(parts.payload);
      if claims.None? {
        return Reject;
      }
      var validated := ValidateClaims(v, claims.value, nowUnix);
      if validated.Err? {
        return Reject;
      }
      return Identify(validated.value);
    }

    /** `authenticate`, with the clocks passed in. */
    method Authenticate(candidate: Option<string>, nowUnix: I64, nowMono: Instant, later: Inner<JwkSet>)
        returns (verdict: AuthVerdict)
      requires Valid()
      modifies jwks, jwks.fetcher
      ensures Valid()
      ensures verdict == (match candidate
                          case None => Pass
                          case Some(token) =>
                            Verdict(lib, old(CachedKeys(later)), BearerVerifier(cfg), token, nowUnix, nowMono))
    {
      if candidate.None? {
        return Pass;
      }
      verdict := VerifyWith(verifier, candidate.value, nowUnix, nowMono, later);
    }

    /**
     A login never defers: what the bearer path passes on, it rejects. Only a response with a 2xx status whose body has
     a string `id_token` can identify anybody, and then by the verdict on that very token for the client id.
     */
    method IdentityFromTokenResponse(resp: LoginResponse, nowUnix: I64, nowMono: Instant, later: Inner<JwkSet>)
        returns (r: LoginOutcome)
      requires Valid()
      modifies jwks, jwks.fetcher
      ensures Valid()
      ensures r == (match IdToken(resp)
                    case None => Rejected
                    case Some(token) =>
                      match Verdict(lib, old(CachedKeys(later)), LoginVerifier(cfg), token, nowUnix, nowMono)
                      case Identify(p) => Identified(p)
                      case Unwinds => Unwound
                      case _ => Rejected)
      ensures forall p :: r == Identified(p) <==>
                && 200 <= resp.status <= 299
                && resp.body.Some? && resp.body.value.Obj? && "id_token" in resp.body.value.o
                && var token := resp.body.value.o["id_token"];
                   && token.Str?
                   && Verdict(lib, old(CachedKeys(later)), LoginVerifier(cfg), token.s, nowUnix, nowMono) == Identify(p)
    {
      if !(200 <= resp.status < 300) {
        return Rejected;
      }
      if resp.body.None? {
        return Rejected;
      }
      var idToken := AsStr(Get(resp.body.value, "id_token"));
      if idToken.None? {
        return Rejected;
      }
      var verdict := VerifyWith(loginVerifier, idToken.value, nowUnix, nowMono, later);
      match verdict {
        case Identify(p) => return Identified(p);
        case Unwinds => return Unwound;
        case Reject => return Rejected;
        case Pass => return Rejected;
      }
    }

    /**
     Without an authorization endpoint a login is rejected. With one, the URL is the endpoint with a query that reads
     back as the fields of the request, the client id, and the configured scopes with the request's behind them.
     */
    method StartLogin(req: BeginLogin) returns (r: LoginOutcome)
      ensures cfg.authorizationEndpoint.None? <==> r == Rejected
      ensures cfg.authorizationEndpoint.Some? ==>
                && r == AuthorizeAt(AuthorizeUrl(cfg.(scopes := cfg.scopes + req.scopes), req.request))
                && RequestsLogin(r.url, cfg.authorizationEndpoint.value, cfg, req)
    {
      if cfg.authorizationEndpoint.None? {
        return Rejected;
      }
      var extended := cfg.(scopes := cfg.scopes + req.scopes);
      var url := BuildAuthorizeUrl(extended, req.request);
      UrlRequestsLogin(cfg, req);
      return AuthorizeAt(url);
    }
  }

  // ----- what a login asks for -----

  /** The value of a parameter, if the list has it. */
  function ValueOf(params: seq<Param>, key: string): Option<string> {
    if params == [] then None
    else if params[0].key == key then Some(params[0].value)
    else ValueOf(params[1..], key)
  }

  /** The parameters a login must carry, by name. */
  ghost predicate CarriesLogin(params: seq<Param>, cfg: OidcConfig, req: BeginLogin) {
    && ValueOf(params, "response_type") == Some("code")
    && ValueOf(params, "client_id") == Some(if cfg.clientId.Some? then cfg.clientId.value else cfg.audience)
    && ValueOf(params, "redirect_uri") == Some(req.request.redirectUri)
    && ValueOf(params, "scope") == Some(Join(Fold(cfg.scopes + req.scopes), ' '))
    && ValueOf(params, "state") == Some(req.request.state)
    && ValueOf(params, "code_challenge") == Some(req.request.codeChallenge)
    && ValueOf(params, "code_challenge_method") == Some("S256")
    && ValueOf(params, "nonce") == req.request.nonce
    && |params| == if req.request.nonce.Some? then 8 else 7
  }

  ghost predicate RequestsLogin(url: string, endpoint: string, cfg: OidcConfig, req: BeginLogin) {
    exists query ::
      && url == endpoint + [Separator(endpoint)] + query
      && ReadQuery(query).Some?
      && CarriesLogin(ReadQuery(query).value, cfg, req)
  }

  lemma UrlRequestsLogin(cfg: OidcConfig, req: BeginLogin)
    requires cfg.authorizationEndpoint.Some?
    ensures RequestsLogin(AuthorizeUrl(cfg.(scopes := cfg.scopes + req.scopes), req.request),
                          cfg.authorizationEndpoint.value, cfg, req)
  {
    var extended := cfg.(scopes := cfg.scopes + req.scopes);
    var query := AuthorizeUrlRoundTrip(extended, req.request);
    IntendedCarriesLogin(cfg, req);
    hide AuthorizeUrl, ReadQuery, Intended, CarriesLogin;
  }

  lemma {:induction false} ValueAt(params: seq<Param>, i: nat)
    requires i < |params| && forall j :: 0 <= j < i ==> params[j].key != params[i].key
    ensures ValueOf(params, params[i].key) == Some(params[i].value)
  {
    if i > 0 {
      assert forall j :: 0 <= j < i ==> params[1..][j] == params[j + 1];
      ValueAt(params[1..], i - 1);
    }
  }

  lemma {:induction false} NoValue(params: seq<Param>, key: string)
    requires forall j :: 0 <= j < |params| ==> params[j].key != key
    ensures ValueOf(params, key) == None
  {
    if params != [] {
      NoValue(params[1..], key);
    }
  }

  /** No two parameters share a name. */
  lemma DistinctKeys(cfg: OidcConfig, r: Request)
    ensures forall i, j :: 0 <= j < i < |Intended(cfg, r)| ==> Intended(cfg, r)[j].key != Intended(cfg, r)[i].key
    ensures forall j :: 0 <= j < |Base(cfg, r)| ==> Base(cfg, r)[j].key != "nonce"
  {
    hide Join, Fold, ResolvedClientId;
    assert "scope"[1] != "state"[1] && "scope"[0] != "nonce"[0] && "state"[0] != "nonce"[0];
  }

  lemma IntendedCarriesLogin(cfg: OidcConfig, req: BeginLogin)
    ensures CarriesLogin(Intended(cfg.(scopes := cfg.scopes + req.scopes), req.request), cfg, req)
  {
    hide Join, Fold, ValueOf;
    var extended := cfg.(scopes := cfg.scopes + req.scopes);
    var params := Intended(extended, req.request);
    assert ResolvedClientId(extended) == ResolvedClientId(cfg);
    DistinctKeys(extended, req.request);
    ValueAt(params, 0);
    ValueAt(params, 1);
    ValueAt(params, 2);
    ValueAt(params, 3);
    ValueAt(params, 4);
    ValueAt(params, 5);
    ValueAt(params, 6);
    if req.request.nonce.None? {
      assert params == Base(extended, req.request);
      NoValue(params, "nonce");
    } else {
      ValueAt(params, 7);
    }
  }

  // ----- what a verdict means -----

  /** The header names this key: by its `kid`, or, with none or an empty one, by its having none or an empty one. */
  predicate NamesKey(header: Header, key: Jwk) {
    match header.kid
    case None => key.kid == None || key.kid == Some("")
    case Some(kid) => key.kid == Some(kid) || (kid == "" && key.kid == None)
  }

  lemma NamedKeysMatch(parts: Parts, key: Jwk)
    ensures NamesKey(parts.header, key) <==> Matches(key, KidOf(parts))
  {
  }

  /** Everything that must hold of a token for it to identify `p`. */
  ghost predicate Justified(lib: Library, v: Verifier, token: string, now: I64, p: Principal,
                            header: Bytes, parts: Parts, key: Jwk)
  {
    // the token is exactly what was signed, plus the signature
    && token == parts.signingInput + "." + Encode(parts.signature)
    && parts.signingInput == SigningInput(header, parts.payload)
    && lib.parseHeader(header) == Some(parts.header)
    // the signature is genuine under a signing key of the token's `kid`
    && NamesKey(parts.header, key)
    && key.keyUse != Some("enc")
    && (parts.header.crit == None || parts.header.crit == Some([]))
    && Genuine(lib, parts, key)
    // and the principal comes from the signed payload
    && lib.parseClaims(parts.payload).Some?
    && ValidateClaims(v, lib.parseClaims(parts.payload).value, now) == Ok(p)
  }

  /**
   An identity is never given without all of this: a key of the token's `kid`, taken from the cached set within
   its ceiling, or from a set fetched during the call, by the call itself or by another one it had to wait for; a
   genuine signature over exactly the transmitted bytes; and claims from those same bytes that pass the policy.
   */
  lemma IdentityIsJustified(lib: Library, keys: Source, v: Verifier, token: string, nowUnix: I64, nowMono: Instant)
      returns (header: Bytes, parts: Parts, jwks: JwkSet, key: Jwk)
    requires Stamped(keys.inner) && GateStamped(keys.gate)
    requires Verdict(lib, keys, v, token, nowUnix, nowMono).Identify?
    ensures Justified(lib, v, token, nowUnix, Verdict(lib, keys, v, token, nowUnix, nowMono).principal,
                      header, parts, key)
    ensures key in jwks.keys
    ensures || (keys.inner.keys == Some(jwks) && !PastCeiling(keys.cfg, keys.inner, nowMono))
            || TakenOver(keys.cfg, keys.gate, keys.inner, nowMono, jwks)
            || FetchedNow(jwks, SignatureAnswer(lib, keys, parts, nowMono).fetches, keys.script, keys.from)
  {
    hide SplitToken, Genuine, WithKeyAt, ValidateClaims, VerifySignature, Received, PastCeiling, Stamped, Compact;
    parts := SplitToken(lib, token).value;
    header := SplitAcceptsOnlyCompactTokens(lib, token);
    jwks, key := SuccessComesFrom(keys.cfg, keys.gate, keys.inner, KidOf(parts), nowMono, SignatureCheck(lib, parts),
                                  keys.script, keys.from);
    AcceptedExactlyWhenGenuine(lib, parts, key);
    NamedKeysMatch(parts, key);
  }

  /**
   An identity fits the configuration: the signed claims name its issuer and, as audience, the configured one on the
   bearer path and the client id on the login path; the roles are those of the configured claim.
   */
  lemma IdentitiesFitTheConfiguration(lib: Library, keys: Source, cfg: OidcConfig, login: bool, token: string,
                                      nowUnix: I64, nowMono: Instant) returns (parts: Parts, claims: Value)
    requires var v := if login then LoginVerifier(cfg) else BearerVerifier(cfg);
             Verdict(lib, keys, v, token, nowUnix, nowMono).Identify?
    ensures SplitToken(lib, token) == Ok(parts) && lib.parseClaims(parts.payload) == Some(claims)
    ensures Get(claims, "iss") == Some(Str(cfg.issuer))
    ensures var audience := if login && cfg.clientId.Some? then cfg.clientId.value else cfg.audience;
            || Get(claims, "aud") == Some(Str(audience))
            || exists a :: Get(claims, "aud") == Some(Arr(a)) && Str(audience) in a
    ensures var v := if login then LoginVerifier(cfg) else BearerVerifier(cfg);
            Verdict(lib, keys, v, token, nowUnix, nowMono).principal.roles
            == ExtractStringList(Get(claims, cfg.roleClaim))
  {
    var v := if login then LoginVerifier(cfg) else BearerVerifier(cfg);
    parts := SplitToken(lib, token).value;
    claims := lib.parseClaims(parts.payload).value;
    AcceptedTokens(v, claims, nowUnix);
    hide SplitToken, WithKeyAt, AudienceOk, IsGroupsOverage, Subject, HasText, DisplayName;
  }

  /** A verification is unwound exactly by a panic of the fetcher in a fetch of its own. */
  lemma UnwindsExactlyWhen(lib: Library, keys: Source, v: Verifier, token: string, nowUnix: I64, nowMono: Instant)
    ensures Verdict(lib, keys, v, token, nowUnix, nowMono) == Unwinds <==>
              && SplitToken(lib, token).Ok?
              && var n := SignatureAnswer(lib, keys, SplitToken(lib, token).value, nowMono).fetches;
                 n > 0 && keys.script(keys.from + n - 1) == FetchPanics
  {
    hide SplitToken, WithKeyAt, ValidateClaims, VerifySignature;
    if SplitToken(lib, token).Ok? {
      var parts := SplitToken(lib, token).value;
      PanicsExactlyWhen(keys.cfg, keys.gate, keys.inner, KidOf(parts), nowMono, SignatureCheck(lib, parts),
                        keys.script, keys.from);
    }
  }

  /** A token is passed on to other modules exactly when it is not a token of this shape at all. */
  lemma PassesExactlyForeignTokens(lib: Library, keys: Source, v: Verifier, token: string, nowUnix: I64, nowMono: Instant)
    ensures Verdict(lib, keys, v, token, nowUnix, nowMono) == Pass <==>
              forall header, payload, signature ::
                lib.parseHeader(header).Some? ==> token != Compact(header, payload, signature)
  {
    hide WithKeyAt, ValidateClaims;
    if SplitToken(lib, token).Ok? {
      var header := SplitAcceptsOnlyCompactTokens(lib, token);
      hide SplitToken;
      var p := SplitToken(lib, token).value;
      assert token == Compact(header, p.payload, p.signature);
    } else {
      hide SplitToken;
      forall header, payload, signature | lib.parseHeader(header).Some?
        ensures token != Compact(header, payload, signature)
      {
        SplitReadsWhatSignWrites(lib, header, payload, signature);
      }
    }
  }

  /**
   Tokens the provider really signed get through: if a matching key within the ceiling is cached, and the cache is
   fresh, or the provider is down, or another request is fetching, the verdict is that of the claims alone.
   */
  lemma SignedTokensReachTheClaims(lib: Library, keys: Source, v: Verifier, header: Bytes, payload: Bytes,
                                   signature: Bytes, key: Jwk, nowUnix: I64, nowMono: Instant)
    requires lib.parseHeader(header).Some?
    requires var parts := Parts(lib.parseHeader(header).value, payload, signature, SigningInput(header, payload));
             && (parts.header.crit == None || parts.header.crit == Some([]))
             && NamesKey(parts.header, key) && key.keyUse != Some("enc") && Genuine(lib, parts, key)
    requires Stamped(keys.inner) && !NothingToServe(keys.cfg, keys.inner, nowMono) && key in keys.inner.keys.value.keys
    requires !Snapshot(keys.cfg, keys.inner, nowMono).refresh || Down(keys.script, keys.from) || keys.gate.Busy?
    ensures Verdict(lib, keys, v, Compact(header, payload, signature), nowUnix, nowMono)
         == ClaimsVerdict(lib, v, Parts(lib.parseHeader(header).value, payload, signature, SigningInput(header, payload)),
                          nowUnix)
  {
    var parts := Parts(lib.parseHeader(header).value, payload, signature, SigningInput(header, payload));
    SplitReadsWhatSignWrites(lib, header, payload, signature);
    AcceptedExactlyWhenGenuine(lib, parts, key);
    var check := SignatureCheck(lib, parts);
    assert check(key).Ok?;
    NamedKeysMatch(parts, key);
    TryAllSucceeds(keys.inner.keys.value, KidOf(parts), check);
    if Down(keys.script, keys.from) {
      OutageServesUntilTheCeiling(keys.cfg, keys.inner, KidOf(parts), nowMono, check, keys.script, keys.from);
    }
    hide SplitToken, Genuine, ValidateClaims, VerifySignature, TryAll;
  }

  /**
   The login path and the bearer path give every token the same verdict exactly when `client_id` is unset or names
   the audience. Otherwise there are tokens that only one of them takes.
   */
  lemma LoginAgreesWithBearer(cfg: OidcConfig)
    ensures (cfg.clientId == None || cfg.clientId == Some(cfg.audience)) <==>
              forall lib, keys, token, nowUnix, nowMono ::
                Verdict(lib, keys, LoginVerifier(cfg), token, nowUnix, nowMono)
                == Verdict(lib, keys, BearerVerifier(cfg), token, nowUnix, nowMono)
  {
    if cfg.clientId.Some? && cfg.clientId.value != cfg.audience {
      var lib, keys, token := BearerOnly(cfg);
      assert Verdict(lib, keys, LoginVerifier(cfg), token, 0, 0) != Verdict(lib, keys, BearerVerifier(cfg), token, 0, 0);
    }
    hide Verdict;
  }

  /** Claims for the audience that name no other client. */
  lemma BearerOnlyClaims(cfg: OidcConfig)
    requires ResolvedClientId(cfg) != cfg.audience
    ensures ValidateClaims(BearerVerifier(cfg), Sample(BearerVerifier(cfg), Int(0), Null), 0).Ok?
    ensures ValidateClaims(LoginVerifier(cfg), Sample(BearerVerifier(cfg), Int(0), Null), 0).Err?
  {
    var claims := Sample(BearerVerifier(cfg), Int(0), Null);
    SampleIsAcceptable(BearerVerifier(cfg), Int(0), Null);
    AcceptanceIsExact(BearerVerifier(cfg), claims, 0);
    AcceptanceIsExact(LoginVerifier(cfg), claims, 0);
    assert Get(claims, "aud") == Some(Str(cfg.audience));
    hide ValidateClaims;
  }

  lemma EmptyKeySigns(lib: Library, input: string)
    requires lib.rs256([], [], input, [])
    ensures Genuine(lib, Parts(Header("RS256", None, None), [], [], input),
                    Jwk("RSA", None, Some(""), Some(""), None, None, None, None))
  {
    assert Encode([]) == "";
  }

  /** A token for the audience that names no other client: the bearer path identifies it, the login path does not. */
  lemma BearerOnly(cfg: OidcConfig) returns (lib: Library, keys: Source, token: string)
    requires ResolvedClientId(cfg) != cfg.audience
    ensures Verdict(lib, keys, BearerVerifier(cfg), token, 0, 0).Identify?
    ensures Verdict(lib, keys, LoginVerifier(cfg), token, 0, 0).Reject?
  {
    var claims := Sample(BearerVerifier(cfg), Int(0), Null);
    lib := Library(b => Some(Header("RS256", None, None)), b => Some(claims), (n, e, m, s) => true, (p, m, s) => true);
    var key := Jwk("RSA", None, Some(""), Some(""), None, None, None, None);
    keys := Source(Config(0, 0), Free, Inner(Some(JwkSet([key])), Some(0), Some(0)), n => TransportError, 0);
    token := Compact([], [], []);
    BearerOnlyClaims(cfg);
    hide Sample, ValidateClaims, Compact, Get, Verdict, SigningInput, BearerVerifier, LoginVerifier;
    EmptyKeySigns(lib, SigningInput([], []));
    hide Genuine;
    SignedTokensReachTheClaims(lib, keys, BearerVerifier(cfg), [], [], [], key, 0, 0);
    SignedTokensReachTheClaims(lib, keys, LoginVerifier(cfg), [], [], [], key, 0, 0);
  }
}
