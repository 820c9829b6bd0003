/** SwipeHandler (internal/handler/swipe_handler.go): the query parameters
    of GET /profiles turned into a profile filter, the checks of POST /swipe
    before the swipe service runs, and the replies of the match routes.
    strconv.ParseFloat is a foreign parser and comes in as `parseFloat`. */
module SwipeHandler {
  import opened Wrappers
  import opened Models
  import opened Database
  import opened Http
  import Cache
  import Strconv
  import UserRepository
  import SwipeRepository
  import SwipeService

  // ------------------------------------------------------------ profiles

  /** The gender filter: kept only when it names a gender ENUM value. */
  function GenderParam(s: string): (r: Option<string>)
    ensures r.Some? <==> IsGender(s)
    ensures r.Some? ==> r.value == s
  {
    if s != "" && (s == Male || s == Female || s == OtherGender) then Some(s) else None
  }

  /** min_rank and max_rank: kept only when they parse as integers. */
  function IntParam(s: string): (r: Option<int>)
    ensures r.Some? <==> Strconv.ParseInt(s).Some?
    ensures r.Some? ==> r == Strconv.ParseInt(s)
  {
    if s == "" then None else Strconv.ParseInt(s)
  }

  /** latitude, longitude and radius: kept only when they parse as floats. */
  function RealParam(s: string, parseFloat: string -> Option<real>): (r: Option<real>)
    ensures s == "" ==> r.None?
    ensures s != "" ==> r == parseFloat(s)
  {
    if s == "" then None else parseFloat(s)
  }

  /** limit: 20 when absent, the value when it is a positive integer, and 0
      (left for the repository to default) when present but invalid. */
  function ProfileLimitParam(s: string): (r: int)
    ensures r >= 0
    ensures s == "" ==> r == UserRepository.DefaultProfileLimit
    ensures s != "" && Strconv.ParseInt(s).Some? && Strconv.ParseInt(s).value > 0 ==> r == Strconv.ParseInt(s).value
    ensures s != "" && !(Strconv.ParseInt(s).Some? && Strconv.ParseInt(s).value > 0) ==> r == 0
  {
    if s == "" then UserRepository.DefaultProfileLimit
    else if Strconv.ParseInt(s).Some? && Strconv.ParseInt(s).value > 0 then Strconv.ParseInt(s).value
    else 0
  }

  /** offset: set only from a non-negative integer, 0 otherwise. */
  function OffsetParam(s: string): (r: int)
    ensures r >= 0
    ensures r > 0 ==> Strconv.ParseInt(s) == Some(r)
    ensures Strconv.ParseInt(s).Some? && Strconv.ParseInt(s).value >= 0 ==> r == Strconv.ParseInt(s).value
  {
    if s != "" && Strconv.ParseInt(s).Some? && Strconv.ParseInt(s).value >= 0 then Strconv.ParseInt(s).value else 0
  }

  /** The filter GetProfiles builds from the query string. */
  function FilterOf(q: map<string, string>, parseFloat: string -> Option<real>): (f: ProfileFilter)
    ensures f.limit >= 0 && f.offset >= 0
    ensures f.gender.Some? ==> IsGender(f.gender.value)
  {
    ProfileFilter(
      GenderParam(Param(q, "gender")),
      if Param(q, "location") != "" then Some(Param(q, "location")) else None,
      IntParam(Param(q, "min_rank")),
      IntParam(Param(q, "max_rank")),
      RealParam(Param(q, "latitude"), parseFloat),
      RealParam(Param(q, "longitude"), parseFloat),
      RealParam(Param(q, "radius"), parseFloat),
      ProfileLimitParam(Param(q, "limit")),
      OffsetParam(Param(q, "offset")))
  }

  /** The page size the query runs with, once the repository has replaced a
      limit of 0 by its default: 20 unless a positive integer was given. */
  lemma EffectiveLimit(q: map<string, string>, parseFloat: string -> Option<real>)
    ensures var f := FilterOf(q, parseFloat);
      var used := if f.limit <= 0 then UserRepository.DefaultProfileLimit else f.limit;
      used > 0 &&
      (used == UserRepository.DefaultProfileLimit <==>
        !(Strconv.ParseInt(Param(q, "limit")).Some? && Strconv.ParseInt(Param(q, "limit")).value > 0) ||
        Strconv.ParseInt(Param(q, "limit")).value == UserRepository.DefaultProfileLimit)
  {
    var s := Param(q, "limit");
    if s == "" {
      assert Strconv.ParseInt(s).None?;
    }
  }

  datatype ProfilesPage = ProfilesPage(profiles: seq<UserProfile>, count: int, hasMore: bool)

  /** has_more compares the number of profiles with the handler's limit. */
  function ProfilesPageOf(profiles: seq<UserProfile>, limit: int): (p: ProfilesPage)
    ensures p.profiles == profiles && p.count == |profiles|
    ensures p.hasMore <==> |profiles| == limit
  {
    ProfilesPage(profiles, |profiles|, |profiles| == limit)
  }

  /** The handler keeps its own copy of the filter, so an invalid limit stays
      0 there while the query runs with 20: has_more is then true exactly when
      no profile came back. */
  lemma InvalidLimitHasMore(q: map<string, string>, parseFloat: string -> Option<real>, profiles: seq<UserProfile>)
    requires Param(q, "limit") != "" && Strconv.ParseInt(Param(q, "limit")).None?
    ensures ProfilesPageOf(profiles, FilterOf(q, parseFloat).limit).hasMore <==> profiles == []
  {
  }

  /** GET /profiles. */
  method GetProfiles(store: Cache.Store, caller: Option<Id>, q: map<string, string>,
                     parseFloat: string -> Option<real>, io: SwipeService.ProfilesIo)
    returns (reply: Reply<ProfilesPage>)
    modifies store`kv, store`ttl
    ensures caller.None? ==> reply == Failure(StatusUnauthorized, NotAuthenticated) && store.kv == old(store.kv)
    ensures reply.Failure? && caller.Some? ==> reply == Failure(StatusInternalServerError, "failed to get profiles")
    ensures reply.Success? ==> (reply.status == StatusOK &&
      reply.body.hasMore == (|reply.body.profiles| == FilterOf(q, parseFloat).limit))
    ensures reply.Success? && !io.cacheGetFail && SwipeService.CachedProfiles(old(store.kv), caller.value) ==>
      reply.body.profiles == old(store.kv)[Cache.ProfileCacheKey(caller.value)].profiles
    ensures caller.Some? ==>
      (reply.Success? <==> (!io.cacheGetFail && SwipeService.CachedProfiles(old(store.kv), caller.value)) ||
                           (!io.queryFail && !(io.badRow.Some? && io.badRow.value < |io.rows|)))
    ensures reply.Success? && !(!io.cacheGetFail && SwipeService.CachedProfiles(old(store.kv), caller.value)) ==>
      reply.body.profiles == io.rows &&
      store.kv == if io.cacheSetFail then old(store.kv)
                  else old(store.kv)[Cache.ProfileCacheKey(caller.value) := Cache.ProfileListBlob(io.rows)]
    ensures reply.Failure? ==> store.kv == old(store.kv)
  {
    if caller.None? {
      return Failure(StatusUnauthorized, NotAuthenticated);
    }
    var filter := FilterOf(q, parseFloat);
    var profiles := SwipeService.GetProfilesForSwipe(store, caller.value, filter, io);
    if profiles.Err? {
      return Failure(StatusInternalServerError, profiles.msg);
    }
    reply := Success(StatusOK, ProfilesPageOf(profiles.value, filter.limit));
  }

  // --------------------------------------------------------------- swipe

  /** The body of POST /swipe as bound: the direction is any string. */
  datatype SwipeBody = SwipeBody(swipeeId: Id, direction: string)

  function DirectionOf(s: string): (r: Option<Direction>)
    ensures r == Some(Left) <==> s == "left"
    ensures r == Some(Right) <==> s == "right"
    ensures r.None? <==> s != "left" && s != "right"
  {
    if s == "left" then Some(Left) else if s == "right" then Some(Right) else None
  }

  /** The checks before the swipe service runs: a known direction, then a
      swipee other than the caller. */
  function ValidateSwipe(userId: Id, body: SwipeBody): (r: Result<SwipeRequest>)
    ensures DirectionOf(body.direction).None? ==> r == Err("Invalid swipe direction")
    ensures DirectionOf(body.direction).Some? && body.swipeeId == userId ==> r == Err("Cannot swipe on your own profile")
    ensures r.Ok? <==> DirectionOf(body.direction).Some? && body.swipeeId != userId
    ensures r.Ok? ==> r.value == SwipeRequest(body.swipeeId, DirectionOf(body.direction).value)
  {
    match DirectionOf(body.direction)
    case None => Err("Invalid swipe direction")
    case Some(d) => if userId == body.swipeeId then Err("Cannot swipe on your own profile") else Ok(SwipeRequest(body.swipeeId, d))
  }

  /** POST /swipe: a request refused by the checks never reaches the
      ledger. `body` is the JSON binding's outcome. */
  method Swipe(db: Db, store: Cache.Store, caller: Option<Id>, body: Result<SwipeBody>, io: SwipeService.SwipeIo)
    returns (reply: Reply<SwipeResponse>)
    requires db.Valid() && SwipeService.Ledger(db.swipes, db.matches)
    modifies db`swipes, db`nextSwipeId, db`matches, db`nextMatchId, store`kv, store`ttl
    ensures db.Valid() && SwipeService.Ledger(db.swipes, db.matches)
    ensures caller.None? ==> reply == Failure(StatusUnauthorized, NotAuthenticated)
    ensures caller.Some? && body.Err? ==> reply == Failure(StatusBadRequest, body.msg)
    ensures caller.Some? && body.Ok? && ValidateSwipe(caller.value, body.value).Err? ==>
      reply == Failure(StatusBadRequest, ValidateSwipe(caller.value, body.value).msg)
    ensures caller.None? || body.Err? || ValidateSwipe(caller.value, body.value).Err? ==>
      db.swipes == old(db.swipes) && db.matches == old(db.matches) && store.kv == old(store.kv)
    ensures reply.Success? <==> (caller.Some? && body.Ok? && ValidateSwipe(caller.value, body.value).Ok? &&
      SwipeService.SwipeSucceeds(db.users, old(db.swipes), caller.value, ValidateSwipe(caller.value, body.value).value, io))
    ensures reply.Success? ==> (reply.status == StatusOK && caller.Some? && body.Ok? &&
      ValidateSwipe(caller.value, body.value).Ok? &&
      db.swipes == old(db.swipes) + [SwipeService.RequestedSwipe(caller.value, ValidateSwipe(caller.value, body.value).value)
                                      .(id := old(db.nextSwipeId))])
    ensures reply.Failure? ==> reply.status in {StatusUnauthorized, StatusBadRequest}
  {
    if caller.None? {
      return Failure(StatusUnauthorized, NotAuthenticated);
    }
    if body.Err? {
      return Failure(StatusBadRequest, body.msg);
    }
    var req := ValidateSwipe(caller.value, body.value);
    if req.Err? {
      return Failure(StatusBadRequest, req.msg);
    }
    var response := SwipeService.Swipe(db, store, caller.value, req.value, io);
    if response.Err? {
      return Failure(StatusBadRequest, response.msg);
    }
    reply := Success(StatusOK, response.value);
  }

  // ------------------------------------------------------------- matches

  datatype MatchList = MatchList(matches: seq<MatchResponse>, count: int)

  /** GET /matches. */
  method GetMatches(db: Db, store: Cache.Store, caller: Option<Id>, io: SwipeService.MatchesIo)
    returns (reply: Reply<MatchList>)
    requires db.Valid()
    modifies store`kv, store`ttl
    ensures caller.None? ==> reply == Failure(StatusUnauthorized, NotAuthenticated)
    ensures caller.Some? && reply.Failure? ==> reply == Failure(StatusInternalServerError, "failed to get matches")
    ensures reply.Success? ==> reply.status == StatusOK && reply.body.count == |reply.body.matches|
    ensures caller.Some? && !io.cacheGetFail && SwipeService.CachedMatches(old(store.kv), caller.value) ==>
      reply.Success? && reply.body.matches == old(store.kv)[Cache.UserMatchesKey(caller.value)].matches
    ensures caller.Some? && !(!io.cacheGetFail && SwipeService.CachedMatches(old(store.kv), caller.value)) ==>
      SwipeService.UsersExist(db.users, SwipeRepository.MatchesNewestFirst(db.matches, caller.value)) &&
      (reply.Success? <==> !io.queryFail) &&
      (reply.Success? ==>
        reply.body.matches == SwipeService.Responses(db.users, SwipeRepository.MatchesNewestFirst(db.matches, caller.value),
                                                     caller.value, io.lookupFail))
  {
    if caller.None? {
      return Failure(StatusUnauthorized, NotAuthenticated);
    }
    var matches := SwipeService.GetMatches(db, store, caller.value, io);
    if matches.Err? {
      return Failure(StatusInternalServerError, matches.msg);
    }
    reply := Success(StatusOK, MatchList(matches.value, |matches.value|));
  }

  /** GET /matches/:id. */
  method GetMatch(db: Db, caller: Option<Id>, idParam: string, checkFail: bool, getFail: bool)
    returns (reply: Reply<MatchWithUsers>)
    requires db.Valid()
    ensures caller.None? ==> reply == Failure(StatusUnauthorized, NotAuthenticated)
    ensures caller.Some? && Strconv.ParseInt(idParam).None? ==> reply == Failure(StatusBadRequest, "Invalid match ID")
    ensures caller.Some? && Strconv.ParseInt(idParam).Some? && !checkFail &&
            !SwipeRepository.UserInMatch(db.matches, caller.value, Strconv.ParseInt(idParam).value) ==>
      reply == Failure(StatusBadRequest, "user not part of this match")
    ensures caller.Some? && Strconv.ParseInt(idParam).Some? && checkFail ==>
      reply == Failure(StatusBadRequest, "failed to check if user in match")
    ensures caller.Some? && Strconv.ParseInt(idParam).Some? && !checkFail &&
            SwipeRepository.UserInMatch(db.matches, caller.value, Strconv.ParseInt(idParam).value) && getFail ==>
      reply == Failure(StatusBadRequest, "failed to get match")
    ensures reply.Success? <==> caller.Some? && Strconv.ParseInt(idParam).Some? && !checkFail && !getFail &&
                                SwipeRepository.UserInMatch(db.matches, caller.value, Strconv.ParseInt(idParam).value)
    ensures reply.Success? ==> (reply.status == StatusOK && Strconv.ParseInt(idParam).Some? &&
      reply.body.id == Strconv.ParseInt(idParam).value &&
      (reply.body.user1.id == caller.value || reply.body.user2.id == caller.value))
    ensures reply.Success? ==>
      exists m, u1, u2 :: m in db.matches && u1 in db.users && u2 in db.users &&
        m.id == reply.body.id && u1.id == m.user1Id && u2.id == m.user2Id &&
        reply.body == MatchWithUsers(m.id, ProfileOf(u1), ProfileOf(u2))
    // the 404 branch is dead: a participant's match is always found
    ensures reply.Failure? ==> reply.status != StatusNotFound
  {
    if caller.None? {
      return Failure(StatusUnauthorized, NotAuthenticated);
    }
    var matchId := Strconv.ParseInt(idParam);
    if matchId.None? {
      return Failure(StatusBadRequest, "Invalid match ID");
    }
    var found := SwipeService.GetMatch(db, matchId.value, caller.value, checkFail, getFail);
    if found.Err? {
      return Failure(StatusBadRequest, found.msg);
    }
    if found.value.None? {
      assert false;
      return Failure(StatusNotFound, "Match not found");
    }
    reply := Success(StatusOK, found.value.value);
  }
}
