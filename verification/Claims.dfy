/** The claims policy of `OidcVerifier::validate_claims` and the clock it is given, in `auth-oidc/src/lib.rs`. */
module Claims {
  import opened Prelude
  import opened Json

  const I64_MAX: int := 0x7FFF_FFFF_FFFF_FFFF
  const I64_MIN: int := -0x8000_0000_0000_0000
  type I64 = n: int | I64_MIN <= n <= I64_MAX

  const CLOCK_SKEW_SECS: int := 60
  const MAX_CACHE_TTL_SECS: int := 300
  const CLOCK_SANITY_FLOOR_UNIX: int := 1_767_225_600
  const DEFAULT_ROLE_CLAIM := "groups"

  /** Clamp to 64 bits: what the saturating operations and the `as i64` cast do to an exact result. */
  function Saturate(n: int): I64 {
    if n > I64_MAX then I64_MAX else if n < I64_MIN then I64_MIN else n
  }

  // ----- NumericDates -----

  datatype Rounding = Floor | Ceil

  function Round(r: real, how: Rounding): int {
    if how == Floor then r.Floor else -((-r).Floor)
  }

  /**
   Integers in the range of i64 are read exactly; every other number goes through its float value, is rounded
   and then clamped. An unsigned integer above i64::MAX is at least 2^63 as a float too, so it clamps either way.
   */
  function AsNumericDate(v: Option<Value>, how: Rounding): Option<I64> {
    if v.None? || !v.value.Num? then None
    else
      match v.value.n
      case Int(i) => Some(if I64_MIN <= i <= I64_MAX then i else Saturate(Round(i as real, how)))
      case Float(f) => Some(Saturate(Round(f, how)))
  }

  // ----- the policy -----

  datatype Verifier = Verifier(issuer: string, audience: string, roleClaim: string)

  datatype Principal = Principal(id: string, name: Option<string>, roles: seq<string>, ttlSecs: nat)

  datatype Denial =
    | WrongIssuer
    | NoIssuer
    | WrongAudience
    | Expired
    | NoExpiry
    | NotYetValid
    | MalformedNbf
    | GroupsOverage
    | NoSubject

  predicate AudienceOk(v: Verifier, claims: Value) {
    match Get(claims, "aud")
    case Some(Str(s)) => s == v.audience
    case Some(Arr(a)) =>
      var trustedPresent := exists i :: 0 <= i < |a| && a[i] == Str(v.audience);
      var untrustedExtra := exists i :: 0 <= i < |a| && a[i] != Str(v.audience);
      if !trustedPresent then false
      else if untrustedExtra then AsStr(Get(claims, "azp")) == Some(v.audience)
      else true
    case _ => false
  }

  predicate IsGroupsOverage(claims: Value) {
    var names := Get(claims, "_claim_names");
    var namesHasGroups := names.Some? && names.value.Obj? && "groups" in names.value.o;
    || namesHasGroups
    || (Get(claims, "_claim_sources").Some? && Get(claims, "groups").None? && names.Some?)
  }

  /** The characters with the Unicode property White_Space. */
  predicate IsWhitespace(c: char) {
    var n := c as int;
    || 0x09 <= n <= 0x0D || n == 0x20 || n == 0x85 || n == 0xA0 || n == 0x1680
    || 0x2000 <= n <= 0x200A || n == 0x2028 || n == 0x2029 || n == 0x202F || n == 0x205F || n == 0x3000
  }

  predicate Blank(s: string) {
    forall i :: 0 <= i < |s| ==> IsWhitespace(s[i])
  }

  function NonEmptyClaim(v: Option<Value>): Option<string> {
    var s := AsStr(v);
    if s.Some? && !Blank(s.value) then s else None
  }

  function OrElse<T>(a: Option<T>, b: Option<T>): Option<T> {
    if a.Some? then a else b
  }

  function Strings(a: seq<Value>): seq<string> {
    if a == [] then []
    else (if a[0].Str? then [a[0].s] else []) + Strings(a[1..])
  }

  function ExtractStringList(v: Option<Value>): seq<string> {
    match v
    case Some(Arr(a)) => Strings(a)
    case Some(Str(s)) => [s]
    case _ => []
  }

  function Subject(claims: Value): Option<string> {
    OrElse(NonEmptyClaim(Get(claims, "oid")), NonEmptyClaim(Get(claims, "sub")))
  }

  function DisplayName(claims: Value): Option<string> {
    OrElse(AsStr(Get(claims, "name")),
    OrElse(AsStr(Get(claims, "preferred_username")),
    OrElse(AsStr(Get(claims, "upn")),
           AsStr(Get(claims, "email")))))
  }

  /** The token's expiry check: the expiry as read, or why the token is refused. */
  function CheckExp(claims: Value, now: I64): Result<I64, Denial> {
    match AsNumericDate(Get(claims, "exp"), Floor)
    case None => Err(NoExpiry)
    case Some(exp) => if Saturate(exp + CLOCK_SKEW_SECS) >= now then Ok(exp) else Err(Expired)
  }

  /** The token's not-before check: why the token is refused, if it is. */
  function CheckNbf(claims: Value, now: I64): Option<Denial> {
    var nbf := Get(claims, "nbf");
    if nbf.None? || nbf.value.Null? then None
    else
      match AsNumericDate(nbf, Ceil)
      case None => Some(MalformedNbf)
      case Some(t) => if Saturate(t - CLOCK_SKEW_SECS) > now then Some(NotYetValid) else None
  }

  function Clamp(n: int, lo: int, hi: int): int {
    if n < lo then lo else if n > hi then hi else n
  }

  function ValidateClaims(v: Verifier, claims: Value, now: I64): Result<Principal, Denial> {
    match AsStr(Get(claims, "iss"))
    case None => Err(NoIssuer)
    case Some(iss) =>
      if iss != v.issuer then Err(WrongIssuer)
      else if !AudienceOk(v, claims) then Err(WrongAudience)
      else
        match CheckExp(claims, now)
        case Err(e) => Err(e)
        case Ok(exp) =>
          match CheckNbf(claims, now)
          case Some(e) => Err(e)
          case None =>
            if v.roleClaim == DEFAULT_ROLE_CLAIM && IsGroupsOverage(claims) then Err(GroupsOverage)
            else
              match Subject(claims)
              case None => Err(NoSubject)
              case Some(subject) =>
                Ok(Principal(
                  "oidc:" + subject,
                  DisplayName(claims),
                  ExtractStringList(Get(claims, v.roleClaim)),
                  Clamp(Saturate(exp - now), 0, MAX_CACHE_TTL_SECS)))
  }

  /** The clock reading, failing closed: unreadable or before the sanity floor becomes the end of time. */
  function ClockOrFailClosed(t: I64): I64 {
    if t >= CLOCK_SANITY_FLOOR_UNIX then t else I64_MAX
  }

  /** `now_unix`: seconds since the epoch, cast to i64 with wrap-around; `None` is a clock before the epoch. */
  function NowUnix(secs: Option<nat>): I64
    requires secs.Some? ==> secs.value < 0x1_0000_0000_0000_0000
  {
    match secs
    case None => ClockOrFailClosed(I64_MAX)
    case Some(n) => ClockOrFailClosed(if n > I64_MAX then n - 0x1_0000_0000_0000_0000 else n)
  }

  // ----- cached verdicts -----

  predicate SameIdentity(p: Principal, q: Principal) {
    p.id == q.id && p.name == q.name && p.roles == q.roles
  }

  /** The expiry an accepted token was accepted with. */
  function ExpOf(claims: Value): I64
    requires AsNumericDate(Get(claims, "exp"), Floor).Some?
  {
    AsNumericDate(Get(claims, "exp"), Floor).value
  }

  /**
   A verdict cached for the lifetime it asks for never disagrees with validating the token again: at every
   second of that lifetime the token is accepted with the same identity. The lifetime is at most 300 seconds,
   and when it is shorter it ends exactly at the token's own expiry, or at once if that is already past.
   */
  lemma CachedVerdictHolds(v: Verifier, claims: Value, now: I64, later: I64)
    requires ValidateClaims(v, claims, now).Ok?
    requires now <= later <= now + ValidateClaims(v, claims, now).value.ttlSecs
    ensures var p := ValidateClaims(v, claims, now).value;
            && p.ttlSecs <= 300
            && AsNumericDate(Get(claims, "exp"), Floor).Some?
            && now + p.ttlSecs <= (if now < ExpOf(claims) then ExpOf(claims) else now)
            && (p.ttlSecs < 300 ==>
                  now + p.ttlSecs == (if now < ExpOf(claims) then ExpOf(claims) else now))
            && ValidateClaims(v, claims, later).Ok?
            && SameIdentity(ValidateClaims(v, claims, later).value, p)
  {
  }

  /** A re-validation made no later than the cached verdict allows. */
  predicate Revalidated(v: Verifier, claims: Value, cached: I64, again: I64) {
    && ValidateClaims(v, claims, cached).Ok?
    && cached <= again <= cached + ValidateClaims(v, claims, cached).value.ttlSecs
  }

  /** An accepted token and the seconds at which it is validated again, each in time. */
  ghost predicate Chain(v: Verifier, claims: Value, times: seq<I64>) {
    && times != []
    && ValidateClaims(v, claims, times[0]).Ok?
    && forall i, j :: 0 <= i < |times| && j == i + 1 && j < |times| ==> Revalidated(v, claims, times[i], times[j])
  }

  /**
   However often a verdict is cached and re-validated within its lifetime, every verdict in the chain is the
   first one, and no cached lifetime reaches past the token's expiry, or past the first validation if that was
   already later. Clock skew is never used to stretch a cached verdict.
   */
  lemma {:induction false} RecachingNeverOutlivesTheToken(v: Verifier, claims: Value, times: seq<I64>, k: nat)
    requires Chain(v, claims, times) && k < |times|
    ensures ValidateClaims(v, claims, times[k]).Ok?
    ensures SameIdentity(ValidateClaims(v, claims, times[k]).value, ValidateClaims(v, claims, times[0]).value)
    ensures AsNumericDate(Get(claims, "exp"), Floor).Some?
    ensures times[k] + ValidateClaims(v, claims, times[k]).value.ttlSecs
         <= (if times[0] < ExpOf(claims) then ExpOf(claims) else times[0])
    decreases k
  {
    if k == 0 {
      CachedVerdictHolds(v, claims, times[0], times[0]);
    } else {
      RecachingNeverOutlivesTheToken(v, claims, times, k - 1);
      assert Revalidated(v, claims, times[k - 1], times[k]);
      CachedVerdictHolds(v, claims, times[k - 1], times[k]);
      CachedVerdictHolds(v, claims, times[k], times[k]);
    }
  }

  /** The seconds at which a token is accepted form an interval, with one identity throughout. */
  lemma AcceptanceIsAnInterval(v: Verifier, claims: Value, early: I64, now: I64, late: I64)
    requires early <= now <= late
    requires ValidateClaims(v, claims, early).Ok? && ValidateClaims(v, claims, late).Ok?
    ensures ValidateClaims(v, claims, now).Ok?
    ensures SameIdentity(ValidateClaims(v, claims, now).value, ValidateClaims(v, claims, early).value)
    ensures SameIdentity(ValidateClaims(v, claims, now).value, ValidateClaims(v, claims, late).value)
  {
  }

  // ----- rounding -----

  /** The number a claim denotes, before any rounding or clamping. */
  function Exact(v: Option<Value>): Option<real> {
    if v.None? || !v.value.Num? then None
    else
      match v.value.n
      case Int(i) => Some(i as real)
      case Float(f) => Some(f)
  }

  /** Clock readings for which the clamping at the ends of i64 cannot matter. */
  predicate InBand(now: I64) {
    I64_MIN + CLOCK_SKEW_SECS < now < I64_MAX - CLOCK_SKEW_SECS
  }

  lemma FloorBounds(r: real, n: int)
    ensures n <= r.Floor <==> n as real <= r
  {
  }

  lemma CeilBounds(r: real, n: int)
    ensures Round(r, Ceil) <= n <==> r <= n as real
  {
    FloorBounds(-r, -n);
    assert (-n) as real == -(n as real);
  }

  lemma ExpIsExact(claims: Value, now: I64)
    requires InBand(now) && Exact(Get(claims, "exp")).Some?
    ensures CheckExp(claims, now).Ok? <==> now as real <= Exact(Get(claims, "exp")).value + 60.0
  {
    var r := Exact(Get(claims, "exp")).value;
    FloorBounds(r, now - CLOCK_SKEW_SECS);
    assert (now - CLOCK_SKEW_SECS) as real == now as real - 60.0;
  }

  lemma NbfIsExact(claims: Value, now: I64)
    requires InBand(now) && Exact(Get(claims, "nbf")).Some?
    ensures CheckNbf(claims, now).None? <==> Exact(Get(claims, "nbf")).value - 60.0 <= now as real
  {
    var r := Exact(Get(claims, "nbf")).value;
    CeilBounds(r, now + CLOCK_SKEW_SECS);
    assert (now + CLOCK_SKEW_SECS) as real == now as real + 60.0;
  }

  ghost predicate WithinDates(claims: Value, now: I64) {
    && (Exact(Get(claims, "exp")).Some? ==> now as real <= Exact(Get(claims, "exp")).value + 60.0)
    && (Exact(Get(claims, "nbf")).Some? ==> Exact(Get(claims, "nbf")).value - 60.0 <= now as real)
  }

  /** Everything `validate_claims` asks of a token apart from its dates. */
  predicate OtherwiseAcceptable(v: Verifier, claims: Value) {
    && Get(claims, "iss") == Some(Str(v.issuer))
    && AudienceOk(v, claims)
    && !(v.roleClaim == DEFAULT_ROLE_CLAIM && IsGroupsOverage(claims))
    && Subject(claims).Some?
  }

  /** The dates are readable: `exp` is a number, `nbf` is a number, null or absent. */
  predicate DatesReadable(claims: Value) {
    && Exact(Get(claims, "exp")).Some?
    && (Get(claims, "nbf").None? || Get(claims, "nbf").value.Null? || Exact(Get(claims, "nbf")).Some?)
  }

  /**
   Between the ends of i64, the integer arithmetic decides exactly the real inequalities
   `nbf - 60 <= now <= exp + 60` over the unrounded claims: no fraction is lost in either direction.
   */
  lemma AcceptanceIsExact(v: Verifier, claims: Value, now: I64)
    requires InBand(now)
    ensures ValidateClaims(v, claims, now).Ok? <==>
              OtherwiseAcceptable(v, claims) && DatesReadable(claims) && WithinDates(claims, now)
  {
    if Exact(Get(claims, "exp")).Some? {
      ExpIsExact(claims, now);
    }
    if Exact(Get(claims, "nbf")).Some? {
      NbfIsExact(claims, now);
    }
  }

  predicate IssuerAndAudienceOk(v: Verifier, claims: Value) {
    Get(claims, "iss") == Some(Str(v.issuer)) && AudienceOk(v, claims)
  }

  /**
   The reasons that concern the dates, exactly: `Expired` past `exp + 60`, `NoExpiry` without a readable `exp`,
   `NotYetValid` before `nbf - 60`, and `MalformedNbf` for an `nbf` that is present, not null and not a number,
   which is refused rather than ignored. A wrong issuer or audience is reported before any of them.
   */
  lemma DateDenialsAreExact(v: Verifier, claims: Value, now: I64)
    requires InBand(now)
    ensures var denied := ValidateClaims(v, claims, now);
            var exp, nbf := Exact(Get(claims, "exp")), Exact(Get(claims, "nbf"));
            var live := exp.Some? && now as real <= exp.value + 60.0;
            && (denied == Err(NoExpiry) <==> IssuerAndAudienceOk(v, claims) && exp.None?)
            && (denied == Err(Expired) <==> IssuerAndAudienceOk(v, claims) && exp.Some? && now as real > exp.value + 60.0)
            && (denied == Err(NotYetValid) <==>
                  IssuerAndAudienceOk(v, claims) && live && nbf.Some? && now as real < nbf.value - 60.0)
            && (denied == Err(MalformedNbf) <==>
                  && IssuerAndAudienceOk(v, claims) && live && nbf.None?
                  && Get(claims, "nbf").Some? && !Get(claims, "nbf").value.Null?)
  {
    if Exact(Get(claims, "exp")).Some? {
      ExpIsExact(claims, now);
    }
    if Exact(Get(claims, "nbf")).Some? {
      NbfIsExact(claims, now);
    }
    hide Saturate, Round, AudienceOk, IsGroupsOverage, Subject;
  }

  /** A token that is acceptable at any time but for its dates. */
  function Sample(v: Verifier, exp: Number, nbf: Value): Value {
    Obj(map["iss" := Str(v.issuer), "aud" := Str(v.audience), "sub" := Str("a"), "exp" := Num(exp), "nbf" := nbf])
  }

  /**
   The clamping matters exactly outside that band: a clock reading is in the band if and only if no token is
   accepted at it outside its own unrounded dates.
   */
  lemma ClampingMattersOutsideTheBand(v: Verifier, now: I64)
    ensures InBand(now) <==>
              forall claims :: ValidateClaims(v, claims, now).Ok? ==> WithinDates(claims, now)
  {
    if InBand(now) {
      forall claims | ValidateClaims(v, claims, now).Ok?
        ensures WithinDates(claims, now)
      {
        AcceptanceIsExact(v, claims, now);
      }
    } else {
      var claims := OutOfBand(v, now);
    }
  }

  lemma SampleIsAcceptable(v: Verifier, exp: Number, nbf: Value)
    ensures var claims := Sample(v, exp, nbf);
            && OtherwiseAcceptable(v, claims)
            && Get(claims, "exp") == Some(Num(exp)) && Get(claims, "nbf") == Some(nbf)
  {
    assert Get(Sample(v, exp, nbf), "sub") == Some(Str("a"));
    assert !IsWhitespace("a"[0]);
  }

  /** A token accepted outside its dates, for each clock reading outside the band. */
  lemma OutOfBand(v: Verifier, now: I64) returns (claims: Value)
    requires !InBand(now)
    ensures ValidateClaims(v, claims, now).Ok? && !WithinDates(claims, now)
  {
    var huge: real := 100_000_000_000_000_000_000.0;
    if now <= I64_MIN + CLOCK_SKEW_SECS {
      claims := Sample(v, Float(-huge), Null);
      SampleIsAcceptable(v, Float(-huge), Null);
      assert (-huge).Floor < I64_MIN;
    } else {
      claims := Sample(v, Float(huge), Num(Float(huge)));
      SampleIsAcceptable(v, Float(huge), Num(Float(huge)));
      assert huge.Floor > I64_MAX;
      assert Round(huge, Ceil) > I64_MAX;
    }
    hide Sample, AudienceOk, IsGroupsOverage, Subject, Get;
  }

  // ----- the clock -----

  /** A reading of the clock that the module trusts. */
  predicate SaneReading(secs: Option<nat>) {
    secs.Some? && 1_767_225_600 <= secs.value <= 9_223_372_036_854_775_807
  }

  /**
   A sane reading is used as it is. With a clock that cannot be read, or reads before the sanity floor, a token is
   accepted exactly when its unrounded `exp` is no earlier than a minute before the end of i64, its dates are
   readable, and everything but its dates is in order; `nbf` no longer matters at all.
   */
  lemma BrokenClockRefuses(v: Verifier, claims: Value, secs: Option<nat>)
    requires secs.Some? ==> secs.value < 0x1_0000_0000_0000_0000
    ensures SaneReading(secs) ==> NowUnix(secs) == secs.value
    ensures !SaneReading(secs) ==>
              (ValidateClaims(v, claims, NowUnix(secs)).Ok? <==>
                 && OtherwiseAcceptable(v, claims) && DatesReadable(claims)
                 && Exact(Get(claims, "exp")).value >= 9_223_372_036_854_775_747.0)
  {
    if Exact(Get(claims, "exp")).Some? {
      FloorBounds(Exact(Get(claims, "exp")).value, I64_MAX - CLOCK_SKEW_SECS);
    }
    hide AudienceOk, IsGroupsOverage, Subject;
  }

  /**
   The first `exp` that a broken clock lets through, with an `nbf` at the very end of i64; and the same token with
   an `exp` one second earlier, which is refused.
   */
  lemma BrokenClockAccepts(v: Verifier, secs: Option<nat>)
    requires secs.Some? ==> secs.value < 0x1_0000_0000_0000_0000
    requires !SaneReading(secs)
    ensures var exp := I64_MAX - CLOCK_SKEW_SECS;
            && ValidateClaims(v, Sample(v, Int(exp), Num(Int(I64_MAX))), NowUnix(secs)).Ok?
            && ValidateClaims(v, Sample(v, Int(exp - 1), Num(Int(I64_MAX))), NowUnix(secs)).Err?
  {
    var exp := I64_MAX - CLOCK_SKEW_SECS;
    forall e | e == exp || e == exp - 1
      ensures ValidateClaims(v, Sample(v, Int(e), Num(Int(I64_MAX))), NowUnix(secs)).Ok? <==> e == exp
    {
      var claims := Sample(v, Int(e), Num(Int(I64_MAX)));
      SampleIsAcceptable(v, Int(e), Num(Int(I64_MAX)));
      BrokenClockRefuses(v, claims, secs);
      hide Sample, ValidateClaims, OtherwiseAcceptable;
    }
  }

  // ----- who the principal is -----

  /** The two tokens agree on every member that may decide whether they are accepted, and as whom. */
  predicate AgreeOnDecisive(v: Verifier, a: Value, b: Value) {
    && Get(a, "iss") == Get(b, "iss") && Get(a, "aud") == Get(b, "aud") && Get(a, "azp") == Get(b, "azp")
    && Get(a, "exp") == Get(b, "exp") && Get(a, "nbf") == Get(b, "nbf")
    && Get(a, "oid") == Get(b, "oid") && Get(a, "sub") == Get(b, "sub")
    && Get(a, "groups") == Get(b, "groups")
    && Get(a, "_claim_names") == Get(b, "_claim_names") && Get(a, "_claim_sources") == Get(b, "_claim_sources")
    && Get(a, v.roleClaim) == Get(b, v.roleClaim)
  }

  /**
   Nothing else in a token has a say: two tokens that agree on those members get the same verdict, with the same
   identity, roles and lifetime. In particular the changeable claims `preferred_username`, `upn`, `email` and
   `name` decide the display name at most.
   */
  lemma MutableClaimsHaveNoSay(v: Verifier, a: Value, b: Value, now: I64)
    requires AgreeOnDecisive(v, a, b)
    ensures match ValidateClaims(v, a, now)
            case Err(e) => ValidateClaims(v, b, now) == Err(e)
            case Ok(p) =>
              && ValidateClaims(v, b, now).Ok?
              && var q := ValidateClaims(v, b, now).value;
                 p.id == q.id && p.roles == q.roles && p.ttlSecs == q.ttlSecs
  {
  }

  /**
   What acceptance says about a token: its issuer, an audience list in which every entry is the trusted client
   unless `azp` names that client, and an id made from `oid` if that is a string with text in it, and otherwise from
   `sub`, which then is. The display name is the first string among four members, and decides nothing.
   */
  lemma AcceptedTokens(v: Verifier, claims: Value, now: I64)
    requires ValidateClaims(v, claims, now).Ok?
    ensures Get(claims, "iss") == Some(Str(v.issuer))
    ensures match Get(claims, "aud")
            case Some(Str(s)) => s == v.audience
            case Some(Arr(a)) =>
              && Str(v.audience) in a
              && (Get(claims, "azp") != Some(Str(v.audience)) ==> forall x :: x in a ==> x == Str(v.audience))
            case _ => false
    ensures var id := ValidateClaims(v, claims, now).value.id;
            && |id| > 5 && id[..5] == "oidc:"
            && if HasText(claims, "oid") then Get(claims, "oid") == Some(Str(id[5..]))
               else HasText(claims, "sub") && Get(claims, "sub") == Some(Str(id[5..]))
    ensures ValidateClaims(v, claims, now).value.name ==
              (if HasString(claims, "name") then Some(claims.o["name"].s)
               else if HasString(claims, "preferred_username") then Some(claims.o["preferred_username"].s)
               else if HasString(claims, "upn") then Some(claims.o["upn"].s)
               else if HasString(claims, "email") then Some(claims.o["email"].s)
               else None)
  {
    NonEmptyHasText(claims, "oid");
    NonEmptyHasText(claims, "sub");
    hide HasText;
  }

  /** The member is there and is a string, blank or not. */
  predicate HasString(claims: Value, key: string) {
    claims.Obj? && key in claims.o && claims.o[key].Str?
  }

  /** The characters with the Unicode property White_Space, by their numbers. */
  lemma WhiteSpace(c: char)
    ensures IsWhitespace(c) <==>
              c as int in {9, 10, 11, 12, 13, 32, 133, 160, 5760, 8192, 8193, 8194, 8195, 8196, 8197, 8198, 8199, 8200,
                           8201, 8202, 8232, 8233, 8239, 8287, 12288}
  {
  }

  /**
   The audience: the one string, or a list that has it, in which every other entry is covered by an `azp` that names
   it too. Any other shape is refused.
   */
  lemma AudienceExactly(v: Verifier, claims: Value)
    ensures AudienceOk(v, claims) <==>
              || Get(claims, "aud") == Some(Str(v.audience))
              || exists a :: Get(claims, "aud") == Some(Arr(a)) && OwnAudience(a, v.audience, Get(claims, "azp"))
  {
    match Get(claims, "aud")
    case Some(Arr(a)) =>
      var own := Str(v.audience);
      assert own in a <==> exists i :: 0 <= i < |a| && a[i] == own;
      NothingElse(a, own);
      assert AudienceOk(v, claims) <==> OwnAudience(a, v.audience, Get(claims, "azp"));
    case _ =>
  }

  lemma NothingElse(a: seq<Value>, own: Value)
    ensures (forall x :: x in a ==> x == own) <==> !exists i :: 0 <= i < |a| && a[i] != own
  {
    if exists i :: 0 <= i < |a| && a[i] != own {
      var i :| 0 <= i < |a| && a[i] != own;
      assert a[i] in a;
    }
  }

  /** The list has the audience, and nothing else unless the authorized party is that audience. */
  ghost predicate OwnAudience(a: seq<Value>, audience: string, azp: Option<Value>) {
    Str(audience) in a && (azp != Some(Str(audience)) ==> forall x :: x in a ==> x == Str(audience))
  }

  /** The overage marker: `_claim_names` with a `groups` in it, or both markers in a token without `groups`. */
  lemma OverageExactly(claims: Value)
    ensures IsGroupsOverage(claims) <==>
              || (exists o :: Get(claims, "_claim_names") == Some(Obj(o)) && "groups" in o)
              || (Get(claims, "_claim_names") != None && Get(claims, "_claim_sources") != None
                  && Get(claims, "groups") == None)
  {
  }

  /** `found` are the strings of an array, all of them, in order, each as often as it stands there. */
  ghost predicate StringEntries(a: seq<Value>, found: seq<string>, at: seq<nat>) {
    && Ascending(at) && |at| == |found|
    && (forall i :: 0 <= i < |at| ==> at[i] < |a| && a[at[i]] == Str(found[i]))
    && (forall e :: 0 <= e < |a| && a[e].Str? ==> e in at)
  }

  lemma {:induction false} StringsConcat(a: seq<Value>, b: seq<Value>)
    ensures Strings(a + b) == Strings(a) + Strings(b)
  {
    if a == [] {
      assert a + b == b;
    } else {
      assert (a + b)[0] == a[0] && (a + b)[1..] == a[1..] + b;
      StringsConcat(a[1..], b);
    }
  }

  lemma {:induction false} StringsKept(a: seq<Value>) returns (at: seq<nat>)
    ensures StringEntries(a, Strings(a), at)
  {
    at := [];
    if a != [] {
      var init, last := a[..|a| - 1], a[|a| - 1];
      assert a == init + [last];
      StringsConcat(init, [last]);
      assert Strings([last]) == if last.Str? then [last.s] else [];
      at := StringsKept(init);
      if last.Str? {
        at := at + [|init|];
      }
      hide Strings;
    }
  }

  /**
   The roles are the strings of the configured claim and nothing else: every string in the array, in its order
   and as often as it stands there, or the one string; any other shape gives none, and never an error.
   */
  lemma RolesComeFromTheClaim(v: Verifier, claims: Value, now: I64) returns (at: seq<nat>)
    requires ValidateClaims(v, claims, now).Ok?
    ensures var roles := ValidateClaims(v, claims, now).value.roles;
            match Get(claims, v.roleClaim)
            case Some(Arr(a)) => StringEntries(a, roles, at)
            case Some(Str(s)) => roles == [s]
            case _ => roles == []
  {
    at := [];
    var claim := Get(claims, v.roleClaim);
    if claim.Some? && claim.value.Arr? {
      at := StringsKept(claim.value.a);
    }
    hide Strings;
  }

  /** The token passes both date checks. */
  predicate DatesPass(claims: Value, now: I64) {
    CheckExp(claims, now).Ok? && CheckNbf(claims, now).None?
  }

  /** The member is a string with a character in it that is not white space. */
  ghost predicate HasText(claims: Value, key: string) {
    exists s, i :: Get(claims, key) == Some(Str(s)) && 0 <= i < |s| && !IsWhitespace(s[i])
  }

  lemma SubjectHasText(claims: Value)
    ensures Subject(claims).Some? <==> HasText(claims, "oid") || HasText(claims, "sub")
  {
    NonEmptyHasText(claims, "oid");
    NonEmptyHasText(claims, "sub");
    hide HasText, NonEmptyClaim;
  }

  lemma NonEmptyHasText(claims: Value, key: string)
    ensures NonEmptyClaim(Get(claims, key)).Some? <==> HasText(claims, key)
  {
  }

  /**
   The reasons that do not concern the dates, exactly, at every second of i64. The issuer and the audience are
   judged before the dates; a groups overage and a missing subject only once the dates have passed. An overage is
   refused exactly when the roles would be read from `groups`, and then whatever the subject is.
   */
  lemma PolicyDenialsAreExact(v: Verifier, claims: Value, now: I64)
    ensures var denied := ValidateClaims(v, claims, now);
            var iss := Get(claims, "iss");
            var passed := IssuerAndAudienceOk(v, claims) && DatesPass(claims, now);
            var overage := v.roleClaim == "groups" && IsGroupsOverage(claims);
            && (denied == Err(NoIssuer) <==> iss.None? || !iss.value.Str?)
            && (denied == Err(WrongIssuer) <==> iss.Some? && iss.value.Str? && iss.value.s != v.issuer)
            && (denied == Err(WrongAudience) <==> iss == Some(Str(v.issuer)) && !AudienceOk(v, claims))
            && (denied == Err(GroupsOverage) <==> passed && overage)
            && (denied == Err(NoSubject) <==>
                  passed && !overage && !HasText(claims, "oid") && !HasText(claims, "sub"))
    ensures InBand(now) ==> (DatesPass(claims, now) <==> DatesReadable(claims) && WithinDates(claims, now))
    ensures v.roleClaim == "groups" && IsGroupsOverage(claims) ==> ValidateClaims(v, claims, now).Err?
  {
    SubjectHasText(claims);
    if InBand(now) && Exact(Get(claims, "exp")).Some? {
      ExpIsExact(claims, now);
    }
    if InBand(now) && Exact(Get(claims, "nbf")).Some? {
      NbfIsExact(claims, now);
    }
    hide HasText, Subject, AudienceOk, IsGroupsOverage, Round, Saturate;
  }
}
