/** The authorize URL that starts a browser login (section 3.1 of RFC 6749). */
module Authorize {
  import opened Prelude
  import opened Strings
  import opened Percent
  import opened Scopes

  /** The settings the login path reads. */
  datatype OidcConfig = OidcConfig(
    issuer: string,
    audience: string,
    roleClaim: string,
    clientId: Option<string>,
    scopes: seq<string>,
    authorizationEndpoint: Option<string>)

  function ResolvedClientId(cfg: OidcConfig): string {
    if cfg.clientId.Some? then cfg.clientId.value else cfg.audience
  }

  datatype Request = Request(redirectUri: string, state: string, codeChallenge: string, nonce: Option<string>)

  datatype Param = Param(key: string, value: string)

  /** The parameters without the nonce. */
  function Base(cfg: OidcConfig, r: Request): seq<Param> {
    [Param("response_type", "code"),
     Param("client_id", ResolvedClientId(cfg)),
     Param("redirect_uri", r.redirectUri),
     Param("scope", Join(Fold(cfg.scopes), ' ')),
     Param("state", r.state),
     Param("code_challenge", r.codeChallenge),
     Param("code_challenge_method", "S256")]
  }

  /** The parameters the request is meant to carry, in order. */
  function Intended(cfg: OidcConfig, r: Request): seq<Param> {
    Base(cfg, r) + (if r.nonce.Some? then [Param("nonce", r.nonce.value)] else [])
  }

  function Endpoint(cfg: OidcConfig): string {
    if cfg.authorizationEndpoint.Some? then cfg.authorizationEndpoint.value else ""
  }

  function Separator(endpoint: string): char {
    if '?' in endpoint then '&' else '?'
  }

  /** The query the source writes, as one template with the encoded values put in. */
  function Template(cfg: OidcConfig, r: Request): string {
    "response_type=code&client_id=" + (Pct(ResolvedClientId(cfg))
    + ("&redirect_uri=" + (Pct(r.redirectUri)
    + ("&scope=" + (Pct(Join(Fold(cfg.scopes), ' '))
    + ("&state=" + (Pct(r.state)
    + ("&code_challenge=" + (Pct(r.codeChallenge)
    + "&code_challenge_method=S256")))))))))
  }

  function AuthorizeUrl(cfg: OidcConfig, r: Request): string {
    Endpoint(cfg) + [Separator(Endpoint(cfg))]
    + (Template(cfg, r) + (if r.nonce.Some? then "&nonce=" + Pct(r.nonce.value) else ""))
  }

  method BuildAuthorizeUrl(cfg: OidcConfig, r: Request) returns (url: string)
    ensures url == AuthorizeUrl(cfg, r)
  {
    hide Pct, Join, Fold;
    var endpoint := Endpoint(cfg);
    var scope := ScopeValue(cfg.scopes);
    var sep := if '?' in endpoint then '&' else '?';
    var clientId := RunPct(ResolvedClientId(cfg));
    var redirectUri := RunPct(r.redirectUri);
    scope := RunPct(scope);
    var state := RunPct(r.state);
    var codeChallenge := RunPct(r.codeChallenge);
    var query :=
      "response_type=code&client_id=" + (clientId
      + ("&redirect_uri=" + (redirectUri
      + ("&scope=" + (scope
      + ("&state=" + (state
      + ("&code_challenge=" + (codeChallenge
      + "&code_challenge_method=S256")))))))));
    url := endpoint + [sep] + query;
    if r.nonce.Some? {
      var nonce := RunPct(r.nonce.value);
      url := url + ("&nonce=" + nonce);
      assert url == endpoint + [sep] + (query + ("&nonce=" + nonce));
    } else {
      assert query + "" == query;
    }
  }

  // ----- reading the URL back -----

  /** The text after the first `c`, if there is one. */
  function After(s: string, c: char): Option<string> {
    if s == [] then None
    else if s[0] == c then Some(s[1..])
    else After(s[1..], c)
  }

  function Before(s: string, c: char): string {
    if s == [] || s[0] == c then "" else [s[0]] + Before(s[1..], c)
  }

  /** One `key=value` piece of a query, decoded. */
  function ReadParam(piece: string): Option<Param> {
    match (PctDecode(Before(piece, '=')), After(piece, '='))
    case (Some(key), Some(encoded)) =>
      (match PctDecode(encoded)
       case Some(value) => Some(Param(key, value))
       case None => None)
    case _ => None
  }

  function ReadParams(pieces: seq<string>): Option<seq<Param>> {
    if pieces == [] then Some([])
    else
      match (ReadParam(pieces[0]), ReadParams(pieces[1..]))
      case (Some(p), Some(rest)) => Some([p] + rest)
      case _ => None
  }

  /** A query, split on `&` and `=` and percent-decoded. */
  function ReadQuery(query: string): Option<seq<Param>> {
    ReadParams(Split(query, '&'))
  }

  // ----- rendering a parameter list -----

  function Piece(p: Param): string {
    Pct(p.key) + "=" + Pct(p.value)
  }

  function Pieces(params: seq<Param>): seq<string> {
    if params == [] then [] else [Piece(params[0])] + Pieces(params[1..])
  }

  lemma {:induction false} BeforeAndAfter(a: string, b: string, c: char)
    requires c !in a
    ensures Before(a + [c] + b, c) == a && After(a + [c] + b, c) == Some(b)
  {
    var s := a + [c] + b;
    if a == [] {
      assert s[0] == c && s[1..] == b;
    } else {
      BeforeAndAfter(a[1..], b, c);
      assert s[0] == a[0] && s[1..] == a[1..] + [c] + b;
      assert a == [a[0]] + a[1..];
    }
  }

  lemma PieceReads(p: Param)
    ensures ReadParam(Piece(p)) == Some(p) && '&' !in Piece(p) && '#' !in Piece(p)
  {
    PctHasNoDelimiters(p.key);
    PctHasNoDelimiters(p.value);
    PctRoundTrip(p.key);
    PctRoundTrip(p.value);
    BeforeAndAfter(Pct(p.key), Pct(p.value), '=');
  }

  lemma {:induction false} PiecesRead(params: seq<Param>)
    ensures ReadParams(Pieces(params)) == Some(params)
    ensures forall s :: s in Pieces(params) ==> '&' !in s && '#' !in s
    ensures |Pieces(params)| == |params|
  {
    if params != [] {
      PieceReads(params[0]);
      PiecesRead(params[1..]);
      assert params == [params[0]] + params[1..];
      assert Pieces(params)[1..] == Pieces(params[1..]);
    }
  }

  /** Any list of parameters, rendered and joined, reads back as it was. */
  lemma QueryReads(params: seq<Param>)
    requires params != []
    ensures ReadQuery(Join(Pieces(params), '&')) == Some(params)
    ensures Split(Join(Pieces(params), '&'), '&') == Pieces(params)
  {
    PiecesRead(params);
    SplitJoin(Pieces(params), '&');
  }

  // ----- the template is the rendered list -----

  /** The rendered parameters from one on, with the `&` that precedes them in the template. */
  function Suffix(params: seq<Param>): string {
    "&" + Join(Pieces(params), '&')
  }

  /** One more slot of the template, in front of a rendered suffix. */
  lemma Slot(key: string, value: string, literal: string, rest: seq<Param>)
    requires PlainText(key) && literal == "&" + key + "=" && rest != []
    ensures literal + (Pct(value) + Suffix(rest)) == Suffix([Param(key, value)] + rest)
  {
    hide Pct;
    var p := Param(key, value);
    PctPlain(key);
    assert ([p] + rest)[1..] == rest;
    PiecesRead(rest);
    assert ([Piece(p)] + Pieces(rest))[1..] == Pieces(rest);
    assert Join(Pieces([p] + rest), '&') == Piece(p) + "&" + Join(Pieces(rest), '&');
    hide Join, Pieces, PlainText;
    assert Piece(p) == key + "=" + Pct(value);
  }

  lemma LastSlot(key: string, value: string, literal: string)
    requires PlainText(key) && PlainText(value) && literal == "&" + key + "=" + value
    ensures literal == Suffix([Param(key, value)])
  {
    hide Pct;
    var p := Param(key, value);
    PctPlain(key);
    PctPlain(value);
    assert [p][1..] == [];
    assert Pieces([p]) == [Piece(p)];
  }

  /** The literal parts of the template, cut at the parameter boundaries. */
  lemma Literals()
    ensures "response_type=code&client_id=" == "response_type=code" + "&client_id="
    ensures "&code_challenge_method=S256" == "&" + "code_challenge_method" + "=" + "S256"
    ensures "&client_id=" == "&" + "client_id" + "=" && "&redirect_uri=" == "&" + "redirect_uri" + "="
  {
  }

  lemma MoreLiterals()
    ensures "&scope=" == "&" + "scope" + "=" && "&state=" == "&" + "state" + "="
    ensures "&code_challenge=" == "&" + "code_challenge" + "="
  {
  }

  lemma PlainKeys()
    ensures PlainText("code_challenge_method") && PlainText("S256") && PlainText("client_id")
    ensures PlainText("redirect_uri") && PlainText("scope") && PlainText("state") && PlainText("code_challenge")
  {
  }

  /** The first slot of the template, with no `&` in front. */
  lemma FirstSlot(key: string, value: string, literal: string, rest: seq<Param>)
    requires PlainText(key) && PlainText(value) && literal == key + "=" + value && rest != []
    ensures literal + Suffix(rest) == Join(Pieces([Param(key, value)] + rest), '&')
  {
    hide Pct, PlainText;
    PctPlain(key);
    PctPlain(value);
    var p := Param(key, value);
    assert ([p] + rest)[1..] == rest;
    PiecesRead(rest);
    assert ([Piece(p)] + Pieces(rest))[1..] == Pieces(rest);
    assert Join(Pieces([p] + rest), '&') == Piece(p) + "&" + Join(Pieces(rest), '&');
    hide Join, Pieces;
  }

  lemma ResponseType()
    ensures "response_type=code" == "response_type" + "=" + "code"
    ensures PlainText("response_type") && PlainText("code")
  {
  }

  lemma Associate(a: string, b: string, c: string)
    ensures (a + b) + c == a + (b + c)
  {
  }

  lemma BaseIsRendered(cfg: OidcConfig, r: Request)
    ensures Template(cfg, r) == Join(Pieces(Base(cfg, r)), '&')
  {
    var p := Base(cfg, r);
    hide Pct, Join, Pieces, Fold, Suffix, PlainText;
    Literals();
    MoreLiterals();
    PlainKeys();
    LastSlot("code_challenge_method", "S256", "&code_challenge_method=S256");
    Slot("code_challenge", r.codeChallenge, "&code_challenge=", [p[6]]);
    Slot("state", r.state, "&state=", [p[5]] + [p[6]]);
    Slot("scope", p[3].value, "&scope=", [p[4]] + ([p[5]] + [p[6]]));
    Slot("redirect_uri", r.redirectUri, "&redirect_uri=", [p[3]] + ([p[4]] + ([p[5]] + [p[6]])));
    var rest := [p[2]] + ([p[3]] + ([p[4]] + ([p[5]] + [p[6]])));
    Slot("client_id", p[1].value, "&client_id=", rest);
    ResponseType();
    FirstSlot("response_type", "code", "response_type=code", [p[1]] + rest);
    assert p == [p[0]] + ([p[1]] + rest);
    Associate("response_type=code", "&client_id=", Pct(p[1].value) + Suffix(rest));
  }

  lemma {:induction false} JoinSnoc(parts: seq<string>, last: string)
    requires parts != []
    ensures Join(parts + [last], '&') == Join(parts, '&') + ("&" + last)
  {
    if |parts| == 1 {
      assert (parts + [last])[1..] == [last];
    } else {
      assert (parts + [last])[1..] == parts[1..] + [last];
      JoinSnoc(parts[1..], last);
    }
  }

  lemma {:induction false} PiecesConcat(a: seq<Param>, b: seq<Param>)
    ensures Pieces(a + b) == Pieces(a) + Pieces(b)
  {
    if a == [] {
      assert a + b == b;
    } else {
      assert (a + b)[1..] == a[1..] + b;
      PiecesConcat(a[1..], b);
    }
  }

  /** The text the source writes after the separator is the rendering of the intended parameters. */
  lemma TemplateIsRendered(cfg: OidcConfig, r: Request)
    ensures Template(cfg, r) + (if r.nonce.Some? then "&nonce=" + Pct(r.nonce.value) else "")
         == Join(Pieces(Intended(cfg, r)), '&')
  {
    hide Pct, Template, Fold;
    BaseIsRendered(cfg, r);
    var base := Base(cfg, r);
    if r.nonce.Some? {
      var n := Param("nonce", r.nonce.value);
      assert Intended(cfg, r) == base + [n];
      PiecesConcat(base, [n]);
      PctPlain("nonce");
      assert [n][1..] == [] && Pieces([n]) == [Piece(n)];
      PiecesRead(base);
      JoinSnoc(Pieces(base), Piece(n));
      assert "&" + Piece(n) == "&nonce=" + Pct(r.nonce.value);
    } else {
      assert Intended(cfg, r) == base;
      assert Template(cfg, r) + "" == Template(cfg, r);
    }
  }

  // ----- the whole URL -----

  lemma {:induction false} AfterConcat(a: string, b: string, c: char)
    ensures c in a <==> After(a, c).Some?
    ensures After(a + b, c) == if c in a then Some(After(a, c).value + b) else After(b, c)
  {
    if a == [] {
      assert a + b == b;
    } else {
      AfterConcat(a[1..], b, c);
      assert (a + b)[1..] == a[1..] + b;
    }
  }

  lemma {:induction false} JoinedChars(parts: seq<string>, c: char)
    requires c != '&' && forall p :: p in parts ==> c !in p
    ensures c !in Join(parts, '&')
  {
    if |parts| > 1 {
      JoinedChars(parts[1..], c);
    }
  }

  lemma FragmentChars(endpoint: string, sep: char, query: string)
    requires sep != '#' && '#' !in query
    ensures '#' in endpoint + [sep] + query <==> '#' in endpoint
  {
    var url := endpoint + [sep] + query;
    assert forall i :: 0 <= i < |endpoint| ==> url[i] == endpoint[i];
    assert forall i :: |endpoint| < i < |url| ==> url[i] == query[i - |endpoint| - 1];
  }

  /** What a query added behind an endpoint does to the text after the first `?`. */
  lemma AddedQuery(endpoint: string, query: string)
    ensures var whole, given := After(endpoint + [Separator(endpoint)] + query, '?'), After(endpoint, '?');
            && whole.Some?
            && (given.Some? <==> '?' in endpoint)
            && Split(whole.value, '&') == (if given.Some? then Split(given.value, '&') else []) + Split(query, '&')
  {
    hide Split;
    var sep := Separator(endpoint);
    assert endpoint + [sep] + query == endpoint + ([sep] + query);
    AfterConcat(endpoint, [sep] + query, '?');
    if '?' in endpoint {
      var given := After(endpoint, '?').value;
      SplitAt(given, query, '&');
      assert given + ([sep] + query) == given + ['&'] + query;
    } else {
      assert ([sep] + query)[1..] == query;
      assert [] + Split(query, '&') == Split(query, '&');
    }
  }

  /**
   The authorize URL is the endpoint, one separator, and a query that reads back as exactly the intended
   parameters in order, whatever their values contain. The separator is `&` exactly when the endpoint already has
   a query; that query is retained, with its pieces in front of the new ones. The URL has a fragment mark only if
   the endpoint has one.
   */
  lemma AuthorizeUrlRoundTrip(cfg: OidcConfig, r: Request) returns (query: string)
    ensures AuthorizeUrl(cfg, r) == Endpoint(cfg) + [Separator(Endpoint(cfg))] + query
    ensures ReadQuery(query) == Some(Intended(cfg, r))
    ensures var whole, given := After(AuthorizeUrl(cfg, r), '?'), After(Endpoint(cfg), '?');
            && whole.Some?
            && (given.Some? <==> '?' in Endpoint(cfg))
            && Split(whole.value, '&')
            == (if given.Some? then Split(given.value, '&') else []) + Pieces(Intended(cfg, r))
    ensures '#' in AuthorizeUrl(cfg, r) <==> '#' in Endpoint(cfg)
  {
    hide Template, Pct, Fold, Intended, Endpoint, Pieces, ReadQuery, Join, Split, After;
    query := Join(Pieces(Intended(cfg, r)), '&');
    TemplateIsRendered(cfg, r);
    IntendedIsNotEmpty(cfg, r);
    QueryReads(Intended(cfg, r));
    PiecesRead(Intended(cfg, r));
    JoinedChars(Pieces(Intended(cfg, r)), '#');
    FragmentChars(Endpoint(cfg), Separator(Endpoint(cfg)), query);
    AddedQuery(Endpoint(cfg), query);
  }

  // ----- fragments -----

  /** The query component of a URI (section 3 of RFC 3986): from the first `?` to the fragment, if there is one. */
  function QueryComponent(url: string): Option<string> {
    After(Before(url, '#'), '?')
  }

  lemma {:induction false} BeforeConcat(a: string, b: string, c: char)
    ensures Before(a + b, c) == if c in a then Before(a, c) else a + Before(b, c)
  {
    if a == [] {
      assert a + b == b;
    } else {
      assert (a + b)[0] == a[0] && (a + b)[1..] == a[1..] + b;
      if a[0] != c {
        BeforeConcat(a[1..], b, c);
        assert c in a <==> c in a[1..];
        assert a + Before(b, c) == [a[0]] + (a[1..] + Before(b, c));
      }
    }
  }

  lemma BeforeAbsent(a: string, c: char)
    requires c !in a
    ensures Before(a, c) == a
  {
    BeforeConcat(a, "", c);
    assert a + "" == a;
  }

  /** The pieces of the query component of a URI. */
  function QueryPieces(url: string): seq<string> {
    var query := QueryComponent(url);
    if query.Some? then Split(query.value, '&') else []
  }

  /**
   Where a reader that splits off the fragment finds the parameters: the query component carries them, behind those
   of the endpoint, exactly when the endpoint has no fragment. If it has one, they all end up in the fragment, and
   the query component is that of the endpoint.
   */
  lemma QueryComponentCarries(cfg: OidcConfig, r: Request)
    ensures '#' !in Endpoint(cfg) <==>
              QueryPieces(AuthorizeUrl(cfg, r)) == QueryPieces(Endpoint(cfg)) + Pieces(Intended(cfg, r))
    ensures '#' in Endpoint(cfg) ==> QueryComponent(AuthorizeUrl(cfg, r)) == QueryComponent(Endpoint(cfg))
  {
    hide AuthorizeUrl, Pct, Fold, Intended, Endpoint, Pieces, ReadQuery, Split, After, Before;
    var query := AuthorizeUrlRoundTrip(cfg, r);
    IntendedIsNotEmpty(cfg, r);
    PiecesRead(Intended(cfg, r));
    var endpoint := Endpoint(cfg);
    if '#' in endpoint {
      BeforeConcat(endpoint, [Separator(endpoint)] + query, '#');
      assert endpoint + [Separator(endpoint)] + query == endpoint + ([Separator(endpoint)] + query);
    } else {
      BeforeAbsent(endpoint, '#');
      BeforeAbsent(AuthorizeUrl(cfg, r), '#');
    }
  }

  lemma IntendedIsNotEmpty(cfg: OidcConfig, r: Request)
    ensures Intended(cfg, r) != []
  {
  }
}
