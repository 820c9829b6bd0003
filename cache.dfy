/** The Redis cache of internal/redis/redis.go as an abstract store: a map
    from keys to cached values, the expiries given to keys, one global
    presence set and the rate-limit counters. Every round trip to Redis takes
    a `fail` flag from the environment: a failed command changes nothing. */
module Cache {
  import opened Wrappers
  import opened Models
  import Strconv

  // ------------------------------------------------------------------ keys

  const UserProfilePrefix: string := "user:profile:"
  const UserMatchesPrefix: string := "user:matches:"
  const MatchMessagesPrefix: string := "match:messages:"
  const OnlineUsersKey: string := "online:users"
  const RateLimitPrefix: string := "rate_limit:"
  const ProfileCachePrefix: string := "profiles:swipe:"

  /** The expiry passed with cached swipe profiles: the bare number 300 where
      go-redis expects a time.Duration. */
  const ProfileCacheExpiry: int := 300

  function UserProfileKey(userId: Id): string {
    UserProfilePrefix + Strconv.FormatInt(userId)
  }

  function UserMatchesKey(userId: Id): string {
    UserMatchesPrefix + Strconv.FormatInt(userId)
  }

  function MatchMessagesKey(matchId: Id): string {
    MatchMessagesPrefix + Strconv.FormatInt(matchId)
  }

  function ProfileCacheKey(userId: Id): string {
    ProfileCachePrefix + Strconv.FormatInt(userId)
  }

  function RateLimitKey(identifier: string): string {
    RateLimitPrefix + identifier
  }

  /** Within one namespace, distinct ids give distinct keys. */
  lemma PrefixedIdInjective(prefix: string, a: Id, b: Id)
    requires prefix + Strconv.FormatInt(a) == prefix + Strconv.FormatInt(b)
    ensures a == b
  {
    var sa, sb := Strconv.FormatInt(a), Strconv.FormatInt(b);
    assert sa == (prefix + sa)[|prefix|..];
    assert sb == (prefix + sb)[|prefix|..];
    Strconv.FormatIntInjective(a, b);
  }

  lemma KeysInjective(a: Id, b: Id)
    ensures UserProfileKey(a) == UserProfileKey(b) ==> a == b
    ensures UserMatchesKey(a) == UserMatchesKey(b) ==> a == b
    ensures MatchMessagesKey(a) == MatchMessagesKey(b) ==> a == b
    ensures ProfileCacheKey(a) == ProfileCacheKey(b) ==> a == b
  {
    if UserProfileKey(a) == UserProfileKey(b) { PrefixedIdInjective(UserProfilePrefix, a, b); }
    if UserMatchesKey(a) == UserMatchesKey(b) { PrefixedIdInjective(UserMatchesPrefix, a, b); }
    if MatchMessagesKey(a) == MatchMessagesKey(b) { PrefixedIdInjective(MatchMessagesPrefix, a, b); }
    if ProfileCacheKey(a) == ProfileCacheKey(b) { PrefixedIdInjective(ProfileCachePrefix, a, b); }
  }

  /** Two keys whose prefixes differ at a position inside both prefixes are
      different, whatever follows the prefixes. */
  lemma DifferentPrefixes(p: string, q: string, x: string, y: string, k: nat)
    requires k < |p| && k < |q| && p[k] != q[k]
    ensures p + x != q + y
  {
    assert (p + x)[k] == p[k];
    assert (q + y)[k] == q[k];
  }

  /** The namespaces never share a key, so writing or deleting one kind of
      entry never touches another kind. */
  lemma NamespacesDisjoint(a: Id, b: Id, s: string)
    ensures UserProfileKey(a) != UserMatchesKey(b)
    ensures UserProfileKey(a) != MatchMessagesKey(b)
    ensures UserProfileKey(a) != ProfileCacheKey(b)
    ensures UserMatchesKey(a) != MatchMessagesKey(b)
    ensures UserMatchesKey(a) != ProfileCacheKey(b)
    ensures MatchMessagesKey(a) != ProfileCacheKey(b)
    ensures RateLimitKey(s) != UserProfileKey(a) && RateLimitKey(s) != UserMatchesKey(a)
    ensures RateLimitKey(s) != MatchMessagesKey(a) && RateLimitKey(s) != ProfileCacheKey(a)
    ensures OnlineUsersKey != UserProfileKey(a) && OnlineUsersKey != UserMatchesKey(a)
    ensures OnlineUsersKey != MatchMessagesKey(a) && OnlineUsersKey != ProfileCacheKey(a)
  {
    var fa, fb := Strconv.FormatInt(a), Strconv.FormatInt(b);
    DifferentPrefixes(UserProfilePrefix, UserMatchesPrefix, fa, fb, 5);
    DifferentPrefixes(UserProfilePrefix, MatchMessagesPrefix, fa, fb, 0);
    DifferentPrefixes(UserProfilePrefix, ProfileCachePrefix, fa, fb, 0);
    DifferentPrefixes(UserMatchesPrefix, MatchMessagesPrefix, fa, fb, 0);
    DifferentPrefixes(UserMatchesPrefix, ProfileCachePrefix, fa, fb, 0);
    DifferentPrefixes(MatchMessagesPrefix, ProfileCachePrefix, fa, fb, 0);
    DifferentPrefixes(RateLimitPrefix, UserProfilePrefix, s, fa, 0);
    DifferentPrefixes(RateLimitPrefix, UserMatchesPrefix, s, fa, 0);
    DifferentPrefixes(RateLimitPrefix, MatchMessagesPrefix, s, fa, 0);
    DifferentPrefixes(RateLimitPrefix, ProfileCachePrefix, s, fa, 0);
    DifferentPrefixes(OnlineUsersKey, UserProfilePrefix, [], fa, 0);
    DifferentPrefixes(OnlineUsersKey, UserMatchesPrefix, [], fa, 0);
    DifferentPrefixes(OnlineUsersKey, MatchMessagesPrefix, [], fa, 1);
    DifferentPrefixes(OnlineUsersKey, ProfileCachePrefix, [], fa, 0);
    assert OnlineUsersKey + [] == OnlineUsersKey;
  }

  // ---------------------------------------------------------------- values

  /** A cached value. JSON encoding is not modelled: a blob holds the value it
      encodes, and `Unreadable` stands for bytes that do not decode as the
      type the reader expects. */
  datatype Blob =
    | MatchListBlob(matches: seq<MatchResponse>)
    | MessageListBlob(messages: seq<MessageWithSender>)
    | UserBlob(user: User)
    | ProfileListBlob(profiles: seq<UserProfile>)
    | Unreadable

  // ----------------------------------------------------------- rate limits

  /** The outcomes of n successive successful CheckRateLimit calls on a key
      whose counter stood at `count` (0 for a missing key). */
  function RateLimitRun(count: int, n: nat, limit: int): (r: seq<bool>)
    ensures |r| == n
    decreases n
  {
    if n == 0 then [] else [count + 1 <= limit] + RateLimitRun(count + 1, n - 1, limit)
  }

  /** Starting from a fresh key, call i (counting from 0) is allowed exactly
      when i < limit: the first `limit` calls of a window pass, every later one
      is refused until the key expires. */
  lemma {:induction false} RateLimitRunAllows(count: int, n: nat, limit: int, i: nat)
    requires i < n
    ensures RateLimitRun(count, n, limit)[i] <==> count + i + 1 <= limit
    decreases i
  {
    if i > 0 {
      RateLimitRunAllows(count + 1, n - 1, limit, i - 1);
    }
  }

  /** Once a call is refused, every later call in the same window is refused. */
  lemma RateLimitRunMonotone(count: int, n: nat, limit: int, i: nat, j: nat)
    requires i <= j < n
    requires !RateLimitRun(count, n, limit)[i]
    ensures !RateLimitRun(count, n, limit)[j]
  {
    RateLimitRunAllows(count, n, limit, i);
    RateLimitRunAllows(count, n, limit, j);
  }

  // ----------------------------------------------------------------- store

  class Store {
    /** Cached values by key. */
    var kv: map<string, Blob>
    /** Keys carrying an expiry, with the expiry argument last given. */
    var ttl: map<string, int>
    /** The members of the "online:users" set. */
    var online: set<Id>
    /** INCR counters under "rate_limit:" keys. */
    var counters: map<string, int>

    constructor ()
      ensures kv == map[] && ttl == map[] && online == {} && counters == map[]
    {
      kv := map[];
      ttl := map[];
      online := {};
      counters := map[];
    }

    /** GET: a missing key and a failed command both read as a miss. */
    method Get(key: string, fail: bool) returns (r: Option<Blob>)
      ensures r.Some? <==> !fail && key in kv
      ensures r.Some? ==> r.value == kv[key]
    {
      if fail || key !in kv {
        r := None;
      } else {
        r := Some(kv[key]);
      }
    }

    /** SET key value 0: the value is stored with no expiry, dropping any
        expiry the key had. */
    method Set(key: string, b: Blob, fail: bool) returns (ok: bool)
      modifies this`kv, this`ttl
      ensures ok == !fail
      ensures ok ==> kv == old(kv)[key := b] && ttl == old(ttl) - {key}
      ensures !ok ==> kv == old(kv) && ttl == old(ttl)
    {
      ok := !fail;
      if ok {
        kv := kv[key := b];
        ttl := ttl - {key};
      }
    }

    /** SET key value expiry, with a non-zero expiry. */
    method SetWithExpiry(key: string, b: Blob, expiry: int, fail: bool) returns (ok: bool)
      requires expiry > 0
      modifies this`kv, this`ttl
      ensures ok == !fail
      ensures ok ==> kv == old(kv)[key := b] && ttl == old(ttl)[key := expiry]
      ensures !ok ==> kv == old(kv) && ttl == old(ttl)
    {
      ok := !fail;
      if ok {
        kv := kv[key := b];
        ttl := ttl[key := expiry];
      }
    }

    /** DEL: afterwards a GET of the key misses. */
    method Delete(key: string, fail: bool) returns (ok: bool)
      modifies this`kv, this`ttl
      ensures ok == !fail
      ensures ok ==> kv == old(kv) - {key} && ttl == old(ttl) - {key}
      ensures !ok ==> kv == old(kv) && ttl == old(ttl)
    {
      ok := !fail;
      if ok {
        kv := kv - {key};
        ttl := ttl - {key};
      }
    }

    // The per-namespace helpers: each builds its key with the namespace's
    // format and writes with expiry 0.

    method SetUserProfile(userId: Id, b: Blob, fail: bool) returns (ok: bool)
      modifies this`kv, this`ttl
      ensures ok == !fail
      ensures ok ==> kv == old(kv)[UserProfileKey(userId) := b] && ttl == old(ttl) - {UserProfileKey(userId)}
      ensures !ok ==> kv == old(kv) && ttl == old(ttl)
    {
      ok := Set(UserProfileKey(userId), b, fail);
    }

    method GetUserProfile(userId: Id, fail: bool) returns (r: Option<Blob>)
      ensures r.Some? <==> !fail && UserProfileKey(userId) in kv
      ensures r.Some? ==> r.value == kv[UserProfileKey(userId)]
    {
      r := Get(UserProfileKey(userId), fail);
    }

    method DeleteUserProfile(userId: Id, fail: bool) returns (ok: bool)
      modifies this`kv, this`ttl
      ensures ok == !fail
      ensures ok ==> kv == old(kv) - {UserProfileKey(userId)} && ttl == old(ttl) - {UserProfileKey(userId)}
      ensures !ok ==> kv == old(kv) && ttl == old(ttl)
    {
      ok := Delete(UserProfileKey(userId), fail);
    }

    method SetUserMatches(userId: Id, b: Blob, fail: bool) returns (ok: bool)
      modifies this`kv, this`ttl
      ensures ok == !fail
      ensures ok ==> kv == old(kv)[UserMatchesKey(userId) := b] && ttl == old(ttl) - {UserMatchesKey(userId)}
      ensures !ok ==> kv == old(kv) && ttl == old(ttl)
    {
      ok := Set(UserMatchesKey(userId), b, fail);
    }

    method GetUserMatches(userId: Id, fail: bool) returns (r: Option<Blob>)
      ensures r.Some? <==> !fail && UserMatchesKey(userId) in kv
      ensures r.Some? ==> r.value == kv[UserMatchesKey(userId)]
    {
      r := Get(UserMatchesKey(userId), fail);
    }

    method DeleteUserMatches(userId: Id, fail: bool) returns (ok: bool)
      modifies this`kv, this`ttl
      ensures ok == !fail
      ensures ok ==> kv == old(kv) - {UserMatchesKey(userId)} && ttl == old(ttl) - {UserMatchesKey(userId)}
      ensures !ok ==> kv == old(kv) && ttl == old(ttl)
    {
      ok := Delete(UserMatchesKey(userId), fail);
    }

    method SetMatchMessages(matchId: Id, b: Blob, fail: bool) returns (ok: bool)
      modifies this`kv, this`ttl
      ensures ok == !fail
      ensures ok ==> kv == old(kv)[MatchMessagesKey(matchId) := b] && ttl == old(ttl) - {MatchMessagesKey(matchId)}
      ensures !ok ==> kv == old(kv) && ttl == old(ttl)
    {
      ok := Set(MatchMessagesKey(matchId), b, fail);
    }

    method GetMatchMessages(matchId: Id, fail: bool) returns (r: Option<Blob>)
      ensures r.Some? <==> !fail && MatchMessagesKey(matchId) in kv
      ensures r.Some? ==> r.value == kv[MatchMessagesKey(matchId)]
    {
      r := Get(MatchMessagesKey(matchId), fail);
    }

    method DeleteMatchMessages(matchId: Id, fail: bool) returns (ok: bool)
      modifies this`kv, this`ttl
      ensures ok == !fail
      ensures ok ==> kv == old(kv) - {MatchMessagesKey(matchId)} && ttl == old(ttl) - {MatchMessagesKey(matchId)}
      ensures !ok ==> kv == old(kv) && ttl == old(ttl)
    {
      ok := Delete(MatchMessagesKey(matchId), fail);
    }

    // Presence: SADD, SREM, SMEMBERS and SISMEMBER on "online:users".

    method AddOnlineUser(userId: Id, fail: bool) returns (ok: bool)
      modifies this`online
      ensures ok == !fail
      ensures online == if ok then old(online) + {userId} else old(online)
    {
      ok := !fail;
      if ok {
        online := online + {userId};
      }
    }

    method RemoveOnlineUser(userId: Id, fail: bool) returns (ok: bool)
      modifies this`online
      ensures ok == !fail
      ensures online == if ok then old(online) - {userId} else old(online)
    {
      ok := !fail;
      if ok {
        online := online - {userId};
      }
    }

    method GetOnlineUsers(fail: bool) returns (r: Result<set<Id>>)
      ensures r.Ok? <==> !fail
      ensures r.Ok? ==> r.value == online
    {
      if fail {
        r := Err("redis: command failed");
      } else {
        r := Ok(online);
      }
    }

    method IsUserOnline(userId: Id, fail: bool) returns (r: Result<bool>)
      ensures r.Ok? <==> !fail
      ensures r.Ok? ==> (r.value <==> userId in online)
    {
      if fail {
        r := Err("redis: command failed");
      } else {
        r := Ok(userId in online);
      }
    }

    /** The counter a rate-limit key holds; a missing key counts as 0. */
    function Counter(key: string): int
      reads this
    {
      if key in counters then counters[key] else 0
    }

    /** CheckRateLimit: INCR the identifier's counter; a failed INCR refuses
        with an error; the first increment of a window (count 1) also sets
        the window as the key's expiry, whose own failure is ignored; the call
        is allowed iff the new count is at most the limit. */
    method CheckRateLimit(identifier: string, limit: int, window: int, incrFail: bool, expireFail: bool)
      returns (allowed: bool, err: bool)
      modifies this`counters, this`ttl
      ensures err == incrFail
      ensures err ==> !allowed && counters == old(counters) && ttl == old(ttl)
      ensures !err ==> counters == old(counters)[RateLimitKey(identifier) := old(Counter(RateLimitKey(identifier))) + 1]
      ensures !err ==> (allowed <==> old(Counter(RateLimitKey(identifier))) + 1 <= limit)
      ensures !err ==> allowed == RateLimitRun(old(Counter(RateLimitKey(identifier))), 1, limit)[0]
      ensures !err && old(Counter(RateLimitKey(identifier))) == 0 && !expireFail
        ==> ttl == old(ttl)[RateLimitKey(identifier) := window]
      ensures !(!err && old(Counter(RateLimitKey(identifier))) == 0 && !expireFail) ==> ttl == old(ttl)
    {
      var key := RateLimitKey(identifier);
      if incrFail {
        return false, true;
      }
      var count := Counter(key) + 1;
      counters := counters[key := count];
      if count == 1 && !expireFail {
        ttl := ttl[key := window];
      }
      allowed := count <= limit;
      err := false;
    }
  }
}
