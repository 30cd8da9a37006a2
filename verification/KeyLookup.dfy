/** Running a check against the keys a token's `kid` selects (`JwksCache::try_all`). */
module KeyLookup {
  import opened Prelude
  import opened Jwks

  /** The lookup over the selected keys, tried in order. */
  function TryKeys<T>(matches: seq<Jwk>, check: Jwk -> Result<T, Error>): Option<Result<T, Error>> {
    if matches == [] then None
    else
      match check(matches[0])
      case Ok(v) => Some(Ok(v))
      case Err(e) =>
        match TryKeys(matches[1..], check)
        case None => Some(Err(e))
        case Some(r) => Some(r)
  }

  function TryAll<T>(jwks: JwkSet, kid: string, check: Jwk -> Result<T, Error>): Option<Result<T, Error>> {
    TryKeys(FindAll(jwks, kid), check)
  }

  /** The loop of the source: the first accepted key wins, otherwise the last error is kept. */
  method RunTryAll<T>(jwks: JwkSet, kid: string, check: Jwk -> Result<T, Error>)
    returns (r: Option<Result<T, Error>>)
    ensures r == TryAll(jwks, kid, check)
  {
    var matches := FindAll(jwks, kid);
    var lastErr: Option<Result<T, Error>> := None;
    var i := 0;
    while i < |matches|
      invariant 0 <= i <= |matches|
      invariant lastErr == None || lastErr.value.Err?
      invariant lastErr == None <==> i == 0
      invariant i > 0 ==> check(matches[i - 1]).Err? && lastErr == Some(Err(check(matches[i - 1]).error))
      invariant TryKeys(matches, check)
             == (match TryKeys(matches[i..], check) case None => lastErr case Some(rest) => Some(rest))
    {
      assert matches[i..][1..] == matches[i + 1..];
      match check(matches[i]) {
        case Ok(v) => return Some(Ok(v));
        case Err(e) => lastErr := Some(Err(e));
      }
      i := i + 1;
    }
    r := lastErr;
  }

  /** The lookup answers nothing exactly when no key matches, and a value exactly when some matching key is accepted. */
  lemma {:induction false} TryKeysAnswer<T>(matches: seq<Jwk>, check: Jwk -> Result<T, Error>)
    ensures TryKeys(matches, check).None? <==> matches == []
    ensures (exists k :: k in matches && check(k).Ok?)
              <==> TryKeys(matches, check).Some? && TryKeys(matches, check).value.Ok?
  {
    if matches != [] {
      TryKeysAnswer(matches[1..], check);
      assert matches == [matches[0]] + matches[1..];
    }
  }

  /** The keys of a list that could answer before position `i`. */
  ghost predicate AllFailBefore<T>(keys: seq<Jwk>, kid: string, check: Jwk -> Result<T, Error>, i: nat)
    requires i <= |keys|
  {
    forall j :: 0 <= j < i && Matches(keys[j], kid) ==> check(keys[j]).Err?
  }

  lemma {:induction false} NoneMatch(keys: seq<Jwk>, kid: string)
    requires forall j :: 0 <= j < |keys| ==> !Matches(keys[j], kid)
    ensures Matching(keys, kid) == []
  {
    if keys != [] {
      NoneMatch(keys[1..], kid);
    }
  }

  lemma {:induction false} InListOrder<T>(keys: seq<Jwk>, kid: string, check: Jwk -> Result<T, Error>, i: nat)
    requires i < |keys| && Matches(keys[i], kid) && AllFailBefore(keys, kid, check, i)
    requires check(keys[i]).Ok? || forall j :: i < j < |keys| ==> !Matches(keys[j], kid)
    ensures TryKeys(Matching(keys, kid), check) == Some(check(keys[i]))
  {
    hide Matches;
    if i == 0 {
      if check(keys[0]).Err? {
        NoneMatch(keys[1..], kid);
      }
      assert Matching(keys, kid)[1..] == Matching(keys[1..], kid);
    } else {
      var rest := keys[1..];
      assert forall j :: 0 <= j < |rest| ==> rest[j] == keys[j + 1];
      InListOrder(rest, kid, check, i - 1);
      if Matches(keys[0], kid) {
        assert Matching(keys, kid)[1..] == Matching(rest, kid);
      }
    }
  }

  /**
   The answer in terms of the key set itself, in document order: nothing exactly when no key of the set has the
   `kid`; otherwise that of the first key of the `kid` that the check accepts; and if the check rejects them all,
   the error of the last key of the `kid`.
   */
  lemma TryAllInOrder<T>(jwks: JwkSet, kid: string, check: Jwk -> Result<T, Error>)
    ensures TryAll(jwks, kid, check).None? <==> forall j :: 0 <= j < |jwks.keys| ==> !Matches(jwks.keys[j], kid)
    ensures forall i :: 0 <= i < |jwks.keys| && Matches(jwks.keys[i], kid) && check(jwks.keys[i]).Ok?
              && AllFailBefore(jwks.keys, kid, check, i)
              ==> TryAll(jwks, kid, check) == Some(check(jwks.keys[i]))
    ensures forall i :: 0 <= i < |jwks.keys| && Matches(jwks.keys[i], kid)
              && AllFailBefore(jwks.keys, kid, check, |jwks.keys|)
              && (forall j :: i < j < |jwks.keys| ==> !Matches(jwks.keys[j], kid))
              ==> TryAll(jwks, kid, check) == Some(check(jwks.keys[i]))
  {
    TryAllSucceeds(jwks, kid, check);
    hide Matches, TryKeys, Matching;
    var keys := jwks.keys;
    forall i | 0 <= i < |keys| && Matches(keys[i], kid) && AllFailBefore(keys, kid, check, i)
        && (check(keys[i]).Ok? || forall j :: i < j < |keys| ==> !Matches(keys[j], kid))
      ensures TryAll(jwks, kid, check) == Some(check(keys[i]))
    {
      InListOrder(keys, kid, check, i);
    }
  }

  /** The lookup succeeds exactly when some key of the set has the token's `kid` and passes the check. */
  lemma TryAllSucceeds<T>(jwks: JwkSet, kid: string, check: Jwk -> Result<T, Error>)
    ensures TryAll(jwks, kid, check).None? <==> forall k :: k in jwks.keys ==> !Matches(k, kid)
    ensures (TryAll(jwks, kid, check).Some? && TryAll(jwks, kid, check).value.Ok?)
              <==> exists k :: k in jwks.keys && Matches(k, kid) && check(k).Ok?
  {
    MatchingMembers(jwks.keys, kid);
    TryKeysAnswer(FindAll(jwks, kid), check);
    if FindAll(jwks, kid) != [] {
      assert FindAll(jwks, kid)[0] in FindAll(jwks, kid);
    }
    if k :| k in jwks.keys && Matches(k, kid) && check(k).Ok? {
      assert k in FindAll(jwks, kid);
    }
  }

  /** Document order decides which key answers, never whether one does. */
  lemma SuccessIgnoresOrder<T>(a: JwkSet, b: JwkSet, kid: string, check: Jwk -> Result<T, Error>)
    requires multiset(a.keys) == multiset(b.keys)
    ensures TryAll(a, kid, check).None? <==> TryAll(b, kid, check).None?
    ensures TryAll(a, kid, check).Some? ==>
              (TryAll(a, kid, check).value.Ok? <==> TryAll(b, kid, check).value.Ok?)
  {
    TryAllSucceeds(a, kid, check);
    TryAllSucceeds(b, kid, check);
    forall k ensures k in a.keys <==> k in b.keys {
      assert k in multiset(a.keys) <==> k in multiset(b.keys);
    }
  }

  /** An error of the lookup is the check's error for one of the keys. */
  lemma {:induction false} ErrorOfKey<T>(matches: seq<Jwk>, check: Jwk -> Result<T, Error>, e: Error) returns (key: Jwk)
    requires TryKeys(matches, check) == Some(Err(e))
    ensures key in matches && check(key) == Err(e)
  {
    if check(matches[0]) == Err(e) {
      key := matches[0];
    } else {
      key := ErrorOfKey(matches[1..], check, e);
    }
  }

  lemma ErrorIsSome<T>(jwks: JwkSet, kid: string, check: Jwk -> Result<T, Error>, e: Error) returns (key: Jwk)
    requires TryAll(jwks, kid, check) == Some(Err(e))
    ensures key in jwks.keys && check(key) == Err(e)
  {
    key := ErrorOfKey(FindAll(jwks, kid), check, e);
    MatchingMembers(jwks.keys, kid);
  }

  /** A `kid` selects exactly the keys that carry it, and the empty one also those that carry none. */
  lemma SelectedKeys(jwks: JwkSet, kid: string, k: Jwk)
    ensures k in FindAll(jwks, kid) <==> k in jwks.keys && (k.kid == Some(kid) || (k.kid == None && kid == ""))
  {
    MatchingMembers(jwks.keys, kid);
  }
}
