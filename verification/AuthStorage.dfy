/** Credentials in one file shared by any number of instances, with a token refresh that checks again under the lock. */
module AuthStorage {
  import opened Messages
  import opened Sequences

  datatype Credential = ApiKey(key: string) | OAuth(access: string, refresh: string, expires: int)

  type Data = map<string, Credential>

  /** What the token endpoint makes of a refresh: new credentials, nothing, or an exception. */
  datatype Outcome = Refreshed(credential: Credential) | NoKey | Threw

  /** What happens to the file under its lock. `now` is the time at which a refresh holds the lock. */
  datatype Locked =
    | Set(provider: string, credential: Credential)
    | Remove(provider: string)
    | Refresh(provider: string, now: int, outcome: Outcome)

  function Get<K, V>(m: map<K, V>, k: K): Option<V>
  {
    if k in m then Some(m[k]) else None
  }

  function Put<K, V>(m: map<K, V>, k: K, v: Option<V>): map<K, V>
  {
    if v.Some? then m[k := v.value] else m - {k}
  }

  /** A token that has to be refreshed. */
  predicate Due(c: Option<Credential>, now: int)
  {
    c.Some? && c.value.OAuth? && now >= c.value.expires
  }

  /** The operation replaces what the file holds for its provider. */
  predicate Writes(o: Locked, current: Option<Credential>)
  {
    o.Refresh? ==> Due(current, o.now) && o.outcome.Refreshed?
  }

  function Effect(o: Locked, current: Option<Credential>): Option<Credential>
  {
    match o
    case Set(_, c) => Some(c)
    case Remove(_) => None
    case Refresh(_, _, outcome) => if Writes(o, current) then Some(outcome.credential) else current
  }

  function Apply(content: Data, o: Locked): Data
  {
    Put(content, o.provider, Effect(o, Get(content, o.provider)))
  }

  function ApplyAll(content: Data, log: seq<Locked>): Data
  {
    if log == [] then content else Apply(ApplyAll(content, Front(log)), Last(log))
  }

  // ---------------------------------------------------------------------------------------------
  // The file after any interleaving
  // ---------------------------------------------------------------------------------------------

  /** The operations on one provider, in order. */
  function On(log: seq<Locked>, provider: string): seq<Locked>
  {
    if log == [] then []
    else On(Front(log), provider) + if Last(log).provider == provider then [Last(log)] else []
  }

  function EffectAll(current: Option<Credential>, log: seq<Locked>): Option<Credential>
  {
    if log == [] then current else Effect(Last(log), EffectAll(current, Front(log)))
  }

  /** Each provider's credential depends on its own operations only, however those of others are mixed in. */
  lemma {:induction false} ProvidersAreIndependent(content: Data, log: seq<Locked>, provider: string)
    ensures Get(ApplyAll(content, log), provider) == EffectAll(Get(content, provider), On(log, provider))
  {
    if log != [] {
      ProvidersAreIndependent(content, Front(log), provider);
      var before := On(Front(log), provider);
      if Last(log).provider == provider {
        FrontOfAppend(before, Last(log));
      } else {
        assert before + [] == before;
      }
    }
  }

  predicate WritesAt(content: Data, log: seq<Locked>, i: nat)
    requires i < |log|
  {
    Writes(log[i], Get(ApplyAll(content, log[..i]), log[i].provider))
  }

  /** Between two points, no operation replaces what the file holds for the provider. */
  predicate Quiet(content: Data, log: seq<Locked>, provider: string, from: nat, to: nat)
    requires from <= to <= |log|
  {
    forall k | from <= k < to && log[k].provider == provider :: !WritesAt(content, log, k)
  }

  lemma {:induction false} QuietKeeps(content: Data, log: seq<Locked>, provider: string, from: nat, to: nat)
    requires from <= to <= |log| && Quiet(content, log, provider, from, to)
    ensures Get(ApplyAll(content, log[..to]), provider) == Get(ApplyAll(content, log[..from]), provider)
  {
    if from < to {
      QuietKeeps(content, log, provider, from, to - 1);
      FrontOfPrefix(log, to - 1);
      if log[to - 1].provider == provider {
        assert !WritesAt(content, log, to - 1);
      }
    }
  }

  /** A refresh writes exactly if it finds an expired token in the file and the endpoint gives it new credentials. */
  lemma RefreshWrites(content: Data, log: seq<Locked>, i: nat)
    requires i < |log|
    ensures WritesAt(content, log, i) <==>
            || log[i].Set? || log[i].Remove?
            || (var stored := ApplyAll(content, log[..i]);
                && log[i].provider in stored && stored[log[i].provider].OAuth?
                && log[i].now >= stored[log[i].provider].expires && log[i].outcome.Refreshed?)
  {
  }

  /** The stored credential is that of the last operation on the provider that wrote one. */
  lemma LastWriteWins(content: Data, log: seq<Locked>, i: nat)
    requires i < |log| && WritesAt(content, log, i) && Quiet(content, log, log[i].provider, i + 1, |log|)
    ensures Get(ApplyAll(content, log), log[i].provider)
         == match log[i]
            case Set(_, c) => Some(c)
            case Remove(_) => None
            case Refresh(_, _, outcome) => Some(outcome.credential)
  {
    QuietKeeps(content, log, log[i].provider, i + 1, |log|);
    assert log[..|log|] == log;
    FrontOfPrefix(log, i);
  }

  /**
   A token is refreshed twice in a row only if the first refresh's token had expired when the second one took
   the lock; until then every other instance is given that token.
   */
  lemma RefreshedOnlyWhenExpired(content: Data, log: seq<Locked>, i: nat, j: nat)
    requires i < j < |log| && log[i].Refresh? && log[j].Refresh? && log[i].provider == log[j].provider
    requires WritesAt(content, log, i) && Quiet(content, log, log[i].provider, i + 1, j)
    ensures var c := log[i].outcome.credential;
            && (WritesAt(content, log, j) <==> c.OAuth? && log[j].now >= c.expires && log[j].outcome.Refreshed?)
            && (!(c.OAuth? && log[j].now >= c.expires) ==>
                  Get(ApplyAll(content, log[..j + 1]), log[i].provider) == Some(c))
  {
    QuietKeeps(content, log, log[i].provider, i + 1, j);
    FrontOfPrefix(log, i);
    FrontOfPrefix(log, j);
  }

  /** However many instances find the token expired: while the first refreshed token lasts, none refreshes again. */
  lemma {:induction false} OneRefreshForAll(content: Data, log: seq<Locked>, i: nat, j: nat)
    requires i < j < |log| && log[i].Refresh? && WritesAt(content, log, i) && log[j].provider == log[i].provider
    requires forall k | i < k <= j && log[k].provider == log[i].provider ::
               log[k].Refresh? && !(log[i].outcome.credential.OAuth? && log[k].now >= log[i].outcome.credential.expires)
    ensures !WritesAt(content, log, j)
    ensures Get(ApplyAll(content, log[..j + 1]), log[i].provider) == Some(log[i].outcome.credential)
    decreases j
  {
    forall k | i + 1 <= k < j && log[k].provider == log[i].provider ensures !WritesAt(content, log, k) {
      OneRefreshForAll(content, log, i, k);
    }
    RefreshedOnlyWhenExpired(content, log, i, j);
  }

  // ---------------------------------------------------------------------------------------------
  // Instances
  // ---------------------------------------------------------------------------------------------

  /** The credentials file. `log` is what has happened to it under its lock since it held `initial`. */
  class Backend {
    var content: Data
    ghost const initial: Data
    ghost var log: seq<Locked>

    ghost predicate Valid()
      reads this
    {
      content == ApplyAll(initial, log)
    }

    constructor (content: Data)
      ensures Valid() && this.content == initial == content && log == []
    {
      this.content, initial, log := content, content, [];
    }

    /** One critical section, which leaves `next` in the file. */
    method WithLock(next: Data, ghost o: Locked)
      requires Valid() && next == Apply(content, o)
      modifies this
      ensures Valid() && content == next && log == old(log) + [o]
    {
      content := next;
      log := log + [o];
      FrontOfAppend(old(log), o);
    }
  }

  /** Where a key came from. A token is given with the time it was checked at. */
  datatype Source =
    | Runtime(key: string)
    | StoredKey(key: string)
    | Token(credential: Credential, checked: int)
    | Fresh(credential: Credential)
    | Environment(key: string)
    | Fallback(key: string)
    | Nothing

  function KeyOf(s: Source): Option<string>
  {
    match s
    case Runtime(key) => Some(key)
    case StoredKey(key) => Some(key)
    case Token(c, _) => if c.OAuth? then Some(c.access) else None
    case Fresh(c) => if c.OAuth? then Some(c.access) else None
    case Environment(key) => Some(key)
    case Fallback(key) => Some(key)
    case Nothing => None
  }

  /** What the environment contributes to one call: three readings of the clock, the endpoint, and other keys. */
  datatype World = World(
    now: int, lockedAt: int, rereadAt: int, outcome: Outcome, env: Option<string>, fallback: Option<string>)

  predicate Truthy(s: Option<string>)
  {
    s.Some? && s.value != ""
  }

  function OtherKeys(w: World, includeFallback: bool): Source
  {
    if Truthy(w.env) then Environment(w.env.value)
    else if includeFallback && w.fallback.Some? then Fallback(w.fallback.value)
    else Nothing
  }

  /** What the locked refresh yields, seeing `stored` in the file. */
  function RefreshResult(stored: Option<Credential>, w: World): Source
  {
    if stored.None? || !stored.value.OAuth? then Nothing
    else if w.lockedAt < stored.value.expires then Token(stored.value, w.lockedAt)
    else if w.outcome.Refreshed? then Fresh(w.outcome.credential)
    else Nothing
  }

  predicate RefreshThrows(stored: Option<Credential>, w: World)
  {
    Due(stored, w.lockedAt) && w.outcome.Threw?
  }

  /** The key without a runtime override: from the credential in memory, or a token checked in the file. */
  function StoredSource(
    cached: Option<Credential>, stored: Option<Credential>, known: bool, includeFallback: bool, w: World)
    : Source
  {
    if cached.None? then OtherKeys(w, includeFallback)
    else if cached.value.ApiKey? then StoredKey(cached.value.key)
    else if !known then Nothing
    else if w.now < cached.value.expires then Token(cached.value, w.now)
    else if RefreshThrows(stored, w) then
      if w.rereadAt < stored.value.expires then Token(stored.value, w.rereadAt) else Nothing
    else if RefreshResult(stored, w).Nothing? then OtherKeys(w, includeFallback)
    else RefreshResult(stored, w)
  }

  /** The key of a provider without an override: which one is used, and that no token is used after its time. */
  lemma KeyPriority(cached: Option<Credential>, stored: Option<Credential>, known: bool, includeFallback: bool,
                    w: World)
    requires w.outcome.Refreshed? ==> w.outcome.credential.OAuth?
    ensures var key := KeyOf(StoredSource(cached, stored, known, includeFallback, w));
            var other :=
              if w.env.Some? && w.env.value != "" then w.env else if includeFallback then w.fallback else None;
            match cached
            case None => key == other
            case Some(ApiKey(text)) => key == Some(text)
            case Some(OAuth(access, _, expires)) =>
              && (!known ==> key == None)
              && (known && w.now < expires ==> key == Some(access))
              && (known && w.now >= expires ==>
                    match stored
                    case Some(OAuth(newer, _, until)) =>
                      && (w.lockedAt < until ==> key == Some(newer))
                      && (w.lockedAt >= until ==>
                            key == match w.outcome
                                   case Refreshed(c) => Some(c.access)
                                   case NoKey => other
                                   case Threw => if w.rereadAt < until then Some(newer) else None)
                    case _ => key == other)
  {
  }

  class AuthStorage {
    const storage: Backend
    const oauthProviders: set<string>
    var data: Data
    var runtimeOverrides: map<string, string>
    var loadError: bool

    constructor (storage: Backend, oauthProviders: set<string>)
      ensures this.storage == storage && this.oauthProviders == oauthProviders
      ensures data == storage.content && runtimeOverrides == map[] && !loadError
    {
      this.storage, this.oauthProviders := storage, oauthProviders;
      data, runtimeOverrides, loadError := storage.content, map[], false;
    }

    method Reload()
      modifies this`data, this`loadError
      ensures data == storage.content && !loadError
    {
      data, loadError := storage.content, false;
    }

    /** Changes one provider in what the file holds now; an instance that could not read the file leaves it alone. */
    method PersistProviderChange(provider: string, credential: Option<Credential>)
      requires storage.Valid()
      modifies storage
      ensures storage.Valid()
      ensures var o := if credential.Some? then Locked.Set(provider, credential.value) else Locked.Remove(provider);
              storage.log == old(storage.log) + if loadError then [] else [o]
      ensures loadError ==> storage.content == old(storage.content)
    {
      if loadError {
        return;
      }
      var currentData := storage.content;
      ghost var o := if credential.Some? then Locked.Set(provider, credential.value) else Locked.Remove(provider);
      storage.WithLock(Put(currentData, provider, credential), o);
    }

    method Set(provider: string, credential: Credential)
      requires storage.Valid()
      modifies this`data, storage
      ensures storage.Valid() && data == old(data)[provider := credential]
      ensures storage.log == old(storage.log) + if loadError then [] else [Locked.Set(provider, credential)]
    {
      data := data[provider := credential];
      PersistProviderChange(provider, Some(credential));
    }

    method Remove(provider: string)
      requires storage.Valid()
      modifies this`data, storage
      ensures storage.Valid() && data == old(data) - {provider}
      ensures storage.log == old(storage.log) + if loadError then [] else [Locked.Remove(provider)]
    {
      data := data - {provider};
      PersistProviderChange(provider, None);
    }

    /** Checks under the lock whether the token in the file is expired, and only then refreshes it. */
    method RefreshOAuthTokenWithLock(provider: string, w: World) returns (threw: bool, result: Source)
      requires storage.Valid() && (w.outcome.Refreshed? ==> w.outcome.credential.OAuth?)
      modifies this`data, this`loadError, storage
      ensures storage.Valid()
      ensures provider !in oauthProviders ==>
                !threw && result == Nothing && data == old(data) && loadError == old(loadError)
                && storage.content == old(storage.content) && storage.log == old(storage.log)
      ensures provider in oauthProviders ==>
                && storage.log == old(storage.log) + [Refresh(provider, w.lockedAt, w.outcome)]
                && data == storage.content && !loadError
                && threw == RefreshThrows(Get(old(storage.content), provider), w)
                && (!threw ==> result == RefreshResult(Get(old(storage.content), provider), w))
    {
      if provider !in oauthProviders {
        return false, Nothing;
      }
      var currentData := storage.content;
      ghost var o := Refresh(provider, w.lockedAt, w.outcome);
      data, loadError := currentData, false;
      threw, result := false, Nothing;
      var next := currentData;
      if provider in currentData && currentData[provider].OAuth? {
        var cred := currentData[provider];
        if w.lockedAt < cred.expires {
          result := Token(cred, w.lockedAt);
        } else if w.outcome.Threw? {
          threw := true;
        } else if w.outcome.Refreshed? {
          next := currentData[provider := w.outcome.credential];
          data := next;
          result := Fresh(w.outcome.credential);
        }
      }
      assert next == Apply(currentData, o);
      storage.WithLock(next, o);
    }

    /** The key to use, by priority; a refresh that throws looks whether another instance has succeeded. */
    method GetApiKey(provider: string, includeFallback: bool, w: World)
      returns (key: Option<string>, ghost source: Source)
      requires storage.Valid() && (w.outcome.Refreshed? ==> w.outcome.credential.OAuth?)
      modifies this`data, this`loadError, storage
      ensures storage.Valid() && key == KeyOf(source)
      ensures storage.log == old(storage.log)
              || (Due(Get(old(data), provider), w.now)
                  && storage.log == old(storage.log) + [Refresh(provider, w.lockedAt, w.outcome)])
      ensures source.Runtime? <==> provider in runtimeOverrides && runtimeOverrides[provider] != ""
      ensures source.Runtime? ==> key == Some(runtimeOverrides[provider])
      ensures source.Token? ==> source.credential.OAuth? && source.checked < source.credential.expires
                                && source.checked in {w.now, w.lockedAt, w.rereadAt}
      ensures source.Fresh? ==> Get(storage.content, provider) == Some(source.credential)
                                && Due(Get(old(storage.content), provider), w.lockedAt)
      ensures !source.Runtime? ==>
                source == StoredSource(Get(old(data), provider), Get(old(storage.content), provider),
                                       provider in oauthProviders, includeFallback, w)
    {
      if provider in runtimeOverrides && runtimeOverrides[provider] != "" {
        source := Runtime(runtimeOverrides[provider]);
        return Some(runtimeOverrides[provider]), source;
      }
      if provider in data && data[provider].ApiKey? {
        source := StoredKey(data[provider].key);
        return Some(data[provider].key), source;
      }
      if provider in data {
        var cred := data[provider];
        if provider !in oauthProviders {
          return None, Nothing;
        }
        if w.now < cred.expires {
          return Some(cred.access), Token(cred, w.now);
        }
        var threw, result := RefreshOAuthTokenWithLock(provider, w);
        if threw {
          Reload();
          if provider in data && data[provider].OAuth? && w.rereadAt < data[provider].expires {
            return Some(data[provider].access), Token(data[provider], w.rereadAt);
          }
          return None, Nothing;
        }
        if !result.Nothing? {
          return KeyOf(result), result;
        }
      }
      source := OtherKeys(w, includeFallback);
      if w.env.Some? && w.env.value != "" {
        return w.env, source;
      }
      if includeFallback {
        return w.fallback, source;
      }
      return None, source;
    }
  }
}
