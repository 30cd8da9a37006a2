/** Token verification when any number of requests share the key cache. */
module ConcurrentOidc {
  import opened Prelude
  import opened Base64Url
  import opened Jwks
  import opened CachePolicy
  import opened CacheProtocol
  import opened ProtocolSafety
  import opened ProtocolAvailability
  import opened Jwt
  import opened Claims
  import opened Oidc

  /**
   Under any number of concurrent requests and any schedule: if the key lookup made for a token succeeds, and the
   claims verdict on that token is an identity, then the identity is justified by a key that was in a set the
   provider served, installed within the ceiling of this request's clock reading.
   */
  lemma ConcurrentIdentityIsJustified(cfg: Config, states: seq<State>, labels: seq<Label>, k: nat, id: nat,
                                      lib: Library, v: Verifier, token: string, nowUnix: I64)
      returns (header: Bytes, used: Arc, key: Jwk)
    requires Run(cfg, states, labels) && k < |states| && id < |states[k].calls|
    requires SplitToken(lib, token).Ok?
    requires var parts := SplitToken(lib, token).value;
             && states[k].calls[id].job.kid == KidOf(parts)
             && states[k].calls[id].job.check == SignatureCheck(lib, parts)
             && ClaimsVerdict(lib, v, parts, nowUnix).Identify?
    requires states[k].calls[id].pc == Done(Returned(Ok(())))
    ensures var parts := SplitToken(lib, token).value;
            Justified(lib, v, token, nowUnix, ClaimsVerdict(lib, v, parts, nowUnix).principal, header, parts, key)
    ensures key in used.jwks.keys
    ensures used.id < |states[k].world.installs| && states[k].world.installs[used.id].jwks == used.jwks
    ensures Elapsed(states[k].calls[id].job.now, states[k].world.installs[used.id].at) < cfg.MaxStale()
  {
    hide SplitToken, Genuine, ValidateClaims, VerifySignature, Compact, Run;
    var parts := SplitToken(lib, token).value;
    header := SplitAcceptsOnlyCompactTokens(lib, token);
    used, key := SuccessIsJustified(cfg, states, labels, k, id);
    AcceptedExactlyWhenGenuine(lib, parts, key);
    NamedKeysMatch(parts, key);
  }

  /** The set has a signing key of the token's `kid` under which its signature is genuine. */
  ghost predicate Signs(lib: Library, parts: Parts, jwks: JwkSet) {
    exists key :: key in jwks.keys && NamesKey(parts.header, key) && key.keyUse != Some("enc") && Genuine(lib, parts, key)
  }

  /**
   The other direction: under any schedule, the lookup for a genuinely signed token whose key is in the usable set
   its request found and in every set installed since succeeds, whatever the provider does, short of a panic.
   */
  lemma ConcurrentTokensAreAccepted(cfg: Config, states: seq<State>, labels: seq<Label>, k: nat, id: nat,
                                    lib: Library, parts: Parts)
    requires Run(cfg, states, labels) && k < |states| && id < |states[k].calls| && KeepsKeys(cfg)
    requires states[k].calls[id].job.kid == KidOf(parts)
    requires states[k].calls[id].job.check == SignatureCheck(lib, parts)
    requires parts.header.crit == None || parts.header.crit == Some([])
    requires FoundKeys(cfg, states[k].calls[id]) && states[k].calls[id].pc.Done?
    requires var installs, found := states[k].world.installs, states[k].calls[id].past.began.value.installed;
             forall i :: 0 <= i < |installs| && found <= i + 1 ==> Signs(lib, parts, installs[i].jwks)
    ensures states[k].calls[id].pc == Done(Returned(Ok(()))) || states[k].calls[id].pc == Done(Panicked)
  {
    hide Genuine, VerifySignature, Run;
    var w, c := states[k].world, states[k].calls[id];
    forall i | 0 <= i < |w.installs| && c.past.began.value.installed <= i + 1
      ensures Accepts(w.installs[i].jwks, c.job)
    {
      assert Signs(lib, parts, w.installs[i].jwks);
      var key :| key in w.installs[i].jwks.keys && NamesKey(parts.header, key) && key.keyUse != Some("enc")
        && Genuine(lib, parts, key);
      NamedKeysMatch(parts, key);
      AcceptedExactlyWhenGenuine(lib, parts, key);
      assert c.job.check(key).Ok?;
    }
    PublishedKeysSucceed(cfg, states, labels, k, id);
  }
}
