/** SwipeService (internal/service/swipe_service.go): recording swipes and
    detecting matches, the cached match list, the cached swipe deck and the
    participant-checked match view. Each database or Redis round trip takes
    a failure flag from the environment. */
module SwipeService {
  import opened Wrappers
  import opened Models
  import opened Database
  import Cache
  import SwipeRepository
  import UserRepository

  // ------------------------------------------------------------- ledger

  /** m and n join the same two users, in either order. */
  predicate SamePair(m: Match, n: Match) {
    (m.user1Id == n.user1Id && m.user2Id == n.user2Id) ||
    (m.user1Id == n.user2Id && m.user2Id == n.user1Id)
  }

  /** Every match joins two different users who swiped right on each other. */
  predicate Justified(swipes: seq<Models.Swipe>, matches: seq<Match>) {
    forall m :: m in matches ==>
      m.user1Id != m.user2Id &&
      SwipeRepository.HasRight(swipes, m.user1Id, m.user2Id) &&
      SwipeRepository.HasRight(swipes, m.user2Id, m.user1Id)
  }

  /** No unordered pair of users is matched twice. */
  predicate PairsDistinct(matches: seq<Match>) {
    forall i, j :: 0 <= i < j < |matches| ==> !SamePair(matches[i], matches[j])
  }

  /** The invariant sequential Swipe calls keep over the two tables. */
  predicate Ledger(swipes: seq<Models.Swipe>, matches: seq<Match>) {
    Justified(swipes, matches) && PairsDistinct(matches)
  }

  lemma HasRightAppend(t: seq<Models.Swipe>, w: Models.Swipe, a: Id, b: Id)
    ensures SwipeRepository.HasRight(t + [w], a, b) <==>
            SwipeRepository.HasRight(t, a, b) || SwipeRepository.IsRight(w, a, b)
  {
    if SwipeRepository.HasRight(t + [w], a, b) {
      var x :| x in t + [w] && SwipeRepository.IsRight(x, a, b);
    }
    if SwipeRepository.IsRight(w, a, b) {
      assert w in t + [w];
    }
    if SwipeRepository.HasRight(t, a, b) {
      var x :| x in t && SwipeRepository.IsRight(x, a, b);
      assert x in t + [w];
    }
  }

  /** Recording a swipe keeps every existing match justified. */
  lemma LedgerAfterSwipe(swipes: seq<Models.Swipe>, matches: seq<Match>, w: Models.Swipe)
    requires Ledger(swipes, matches)
    ensures Ledger(swipes + [w], matches)
  {
    forall m | m in matches
      ensures SwipeRepository.HasRight(swipes + [w], m.user1Id, m.user2Id)
      ensures SwipeRepository.HasRight(swipes + [w], m.user2Id, m.user1Id)
    {
      HasRightAppend(swipes, w, m.user1Id, m.user2Id);
      HasRightAppend(swipes, w, m.user2Id, m.user1Id);
    }
  }

  /** A pair that had no a-to-b row before cannot already be matched, since
      a match on {a, b} needs a right swipe by a on b. */
  lemma NoMatchWithoutRow(swipes: seq<Models.Swipe>, matches: seq<Match>, a: Id, b: Id, m: Match)
    requires Justified(swipes, matches)
    requires FindSwipe(swipes, a, b).None?
    requires m.user1Id == a && m.user2Id == b
    ensures forall x :: x in matches ==> !SamePair(x, m)
  {
    forall x | x in matches ensures !SamePair(x, m) {
      assert SwipeRepository.HasRight(swipes, x.user1Id, x.user2Id);
      assert SwipeRepository.HasRight(swipes, x.user2Id, x.user1Id);
    }
  }

  /** The match a right swipe completes keeps the ledger: it is justified by
      the two rows CheckForMatch found, and its pair is new because the
      swipe's own ordered pair was not recorded before. */
  lemma LedgerAfterMatch(swipes: seq<Models.Swipe>, w: Models.Swipe, matches: seq<Match>, m: Match)
    requires Ledger(swipes, matches)
    requires FindSwipe(swipes, w.swiperId, w.swipeeId).None?
    requires m.user1Id == w.swiperId && m.user2Id == w.swipeeId
    requires SwipePairsUnique(swipes + [w])
    requires SwipeRepository.MatchFound(swipes + [w], m.user1Id, m.user2Id)
    ensures Ledger(swipes + [w], matches + [m])
    ensures forall x :: x in matches ==> !SamePair(x, m)
  {
    SwipeRepository.CheckForMatchIff(swipes + [w], m.user1Id, m.user2Id);
    LedgerAfterSwipe(swipes, matches, w);
    NoMatchWithoutRow(swipes, matches, w.swiperId, w.swipeeId, m);
    var t := matches + [m];
    forall i, j | 0 <= i < j < |t| ensures !SamePair(t[i], t[j]) {
      assert t[i] == matches[i];
      if j == |matches| {
        assert matches[i] in matches;
      } else {
        assert t[j] == matches[j];
      }
    }
  }

  // -------------------------------------------------------------- swipe

  /** Failures of the round trips Swipe makes, in call order. */
  datatype SwipeIo = SwipeIo(lookupFail: bool, createFail: bool, checkFail: bool, matchFail: bool,
                             delete1Fail: bool, delete2Fail: bool)

  /** The swipe a request asks to record, before it gets its id. */
  function RequestedSwipe(swiperId: Id, req: SwipeRequest): Models.Swipe {
    Models.Swipe(0, swiperId, req.swipeeId, req.direction)
  }

  /** The first half of Swipe: refuse a repeated ordered pair, then insert. */
  method RecordSwipe(db: Db, swiperId: Id, req: SwipeRequest, lookupFail: bool, createFail: bool)
    returns (r: Result<Models.Swipe>)
    requires db.Valid()
    modifies db`swipes, db`nextSwipeId
    ensures db.Valid()
    ensures lookupFail ==> r == Err("failed to check existing swipe")
    ensures !lookupFail && FindSwipe(old(db.swipes), swiperId, req.swipeeId).Some? ==>
      r == Err("user has already swiped on this profile")
    ensures r.Ok? <==> !lookupFail && !createFail &&
                       SwipeRepository.CanInsertSwipe(db.users, old(db.swipes), RequestedSwipe(swiperId, req))
    ensures r.Ok? ==> r.value == RequestedSwipe(swiperId, req).(id := old(db.nextSwipeId)) &&
                      db.swipes == old(db.swipes) + [r.value]
    ensures r.Err? ==> db.swipes == old(db.swipes)
  {
    var existing := SwipeRepository.GetBySwiperAndSwipee(db, swiperId, req.swipeeId, lookupFail);
    if existing.Err? {
      return Err("failed to check existing swipe");
    }
    if existing.value.Some? {
      return Err("user has already swiped on this profile");
    }
    var created := SwipeRepository.Create(db, RequestedSwipe(swiperId, req), createFail);
    if created.Err? {
      return Err("failed to create swipe");
    }
    r := Ok(created.value);
  }

  /** The swipe completes a match: it is a right swipe on someone else who
      had already swiped right on the swiper. */
  predicate Completes(swipes: seq<Models.Swipe>, swiperId: Id, req: SwipeRequest) {
    req.direction == Right && swiperId != req.swipeeId &&
    SwipeRepository.HasRight(swipes, req.swipeeId, swiperId)
  }

  /** The match a completing swipe asks for passes the table's constraints:
      both users exist and the ordered pair is not stored yet. */
  lemma MatchInsertable(users: seq<User>, before: seq<Models.Swipe>, w: Models.Swipe, nextSwipe: Id,
                        matches: seq<Match>, nextMatch: Id)
    requires SwipesOk(before + [w], nextSwipe, UserIdSet(users)) && Justified(before, matches)
    requires FindSwipe(before, w.swiperId, w.swipeeId).None?
    ensures SwipeRepository.CanInsertMatch(users, matches, Match(0, w.swiperId, w.swipeeId))
  {
    assert (before + [w])[|before|] == w;
    NoMatchWithoutRow(before, matches, w.swiperId, w.swipeeId, Match(nextMatch, w.swiperId, w.swipeeId));
  }

  /** Drops the match caches of both users of a new match; a failed delete
      is ignored. */
  method DropMatchCaches(store: Cache.Store, a: Id, b: Id, fail1: bool, fail2: bool)
    modifies store`kv, store`ttl
    ensures store.kv == old(store.kv) - (if fail1 then {} else {Cache.UserMatchesKey(a)})
                                      - (if fail2 then {} else {Cache.UserMatchesKey(b)})
  {
    var _ := store.DeleteUserMatches(a, fail1);
    var _ := store.DeleteUserMatches(b, fail2);
  }

  /** The match-creating branch of Swipe: CheckForMatch reported the pair,
      so the match (user1 = swiper, user2 = swipee) is inserted and both
      users' match caches are dropped. */
  method RecordMatch(db: Db, store: Cache.Store, ghost before: seq<Models.Swipe>, w: Models.Swipe, io: SwipeIo)
    returns (r: Result<SwipeResponse>)
    requires db.Valid() && db.swipes == before + [w] && Ledger(before, db.matches)
    requires FindSwipe(before, w.swiperId, w.swipeeId).None?
    requires SwipeRepository.MatchFound(db.swipes, w.swiperId, w.swipeeId)
    modifies db`matches, db`nextMatchId, store`kv, store`ttl
    ensures db.Valid() && Ledger(db.swipes, db.matches)
    ensures r.Ok? <==> !io.matchFail
    ensures r.Ok? ==>
      r.value == SwipeResponse(true, Some(Match(old(db.nextMatchId), w.swiperId, w.swipeeId))) &&
      db.matches == old(db.matches) + [r.value.newMatch.value] &&
      store.kv == old(store.kv) - (if io.delete1Fail then {} else {Cache.UserMatchesKey(w.swiperId)})
                                - (if io.delete2Fail then {} else {Cache.UserMatchesKey(w.swipeeId)})
    ensures r.Err? ==> r.msg == "failed to create match" && db.matches == old(db.matches) && store.kv == old(store.kv)
  {
    var m := Match(0, w.swiperId, w.swipeeId);
    LedgerAfterMatch(before, w, db.matches, m.(id := db.nextMatchId));
    MatchInsertable(db.users, before, w, db.nextSwipeId, db.matches, db.nextMatchId);
    var created := SwipeRepository.CreateMatch(db, m, io.matchFail);
    if created.Err? {
      return Err("failed to create match");
    }
    DropMatchCaches(store, w.swiperId, w.swipeeId, io.delete1Fail, io.delete2Fail);
    r := Ok(SwipeResponse(true, Some(created.value)));
  }

  /** The second half of Swipe, after the swipe w was recorded on top of
      the rows `before`: only a right swipe checks for a match. */
  method CompleteMatch(db: Db, store: Cache.Store, ghost before: seq<Models.Swipe>, w: Models.Swipe, io: SwipeIo)
    returns (r: Result<SwipeResponse>)
    requires db.Valid() && db.swipes == before + [w] && Ledger(before, db.matches)
    requires FindSwipe(before, w.swiperId, w.swipeeId).None?
    modifies db`matches, db`nextMatchId, store`kv, store`ttl
    ensures db.Valid() && Ledger(db.swipes, db.matches)
    ensures r.Ok? <==> (w.direction == Left ||
      (!io.checkFail && (Completes(before, w.swiperId, SwipeRequest(w.swipeeId, w.direction)) ==> !io.matchFail)))
    ensures r.Ok? ==> (r.value.isMatch <==> Completes(before, w.swiperId, SwipeRequest(w.swipeeId, w.direction)))
    ensures r.Ok? && r.value.isMatch ==>
      r.value.newMatch == Some(Match(old(db.nextMatchId), w.swiperId, w.swipeeId)) &&
      db.matches == old(db.matches) + [r.value.newMatch.value] &&
      store.kv == old(store.kv) - (if io.delete1Fail then {} else {Cache.UserMatchesKey(w.swiperId)})
                                - (if io.delete2Fail then {} else {Cache.UserMatchesKey(w.swipeeId)})
    ensures r.Ok? && !r.value.isMatch ==>
      r.value.newMatch.None? && db.matches == old(db.matches) && store.kv == old(store.kv)
    ensures r.Err? ==>
      w.direction == Right && db.matches == old(db.matches) && store.kv == old(store.kv) &&
      ((io.checkFail && r.msg == "failed to check for match") ||
       (!io.checkFail && io.matchFail && r.msg == "failed to create match"))
  {
    LedgerAfterSwipe(before, db.matches, w);
    if w.direction == Right {
      var found := SwipeRepository.CheckForMatch(db, w.swiperId, w.swipeeId, io.checkFail);
      if found.Err? {
        return Err("failed to check for match");
      }
      HasRightAppend(before, w, w.swiperId, w.swipeeId);
      HasRightAppend(before, w, w.swipeeId, w.swiperId);
      if found.value {
        r := RecordMatch(db, store, before, w, io);
        return;
      }
    }
    r := Ok(SwipeResponse(false, None));
  }

  /** The swipe is inserted: the lookup and the insert do not fail, both
      users exist and the ordered pair is new. */
  predicate Recordable(users: seq<User>, swipes: seq<Models.Swipe>, swiperId: Id, req: SwipeRequest, io: SwipeIo) {
    !io.lookupFail && !io.createFail &&
    SwipeRepository.CanInsertSwipe(users, swipes, RequestedSwipe(swiperId, req))
  }

  /** Swipe succeeds: the swipe is inserted and, for a right swipe, the
      match check succeeds and so does the match insert it may ask for. */
  predicate SwipeSucceeds(users: seq<User>, swipes: seq<Models.Swipe>, swiperId: Id, req: SwipeRequest, io: SwipeIo) {
    Recordable(users, swipes, swiperId, req, io) &&
    (req.direction == Right ==> !io.checkFail && (Completes(swipes, swiperId, req) ==> !io.matchFail))
  }

  /** Swipe: a repeated ordered pair is refused; otherwise the swipe is
      recorded, and a right swipe that completes a mutual pair creates the
      match (user1 = swiper, user2 = swipee) and drops both users' match
      caches. A failed match insert leaves the recorded swipe in place. */
  method Swipe(db: Db, store: Cache.Store, swiperId: Id, req: SwipeRequest, io: SwipeIo)
    returns (r: Result<SwipeResponse>)
    requires db.Valid() && Ledger(db.swipes, db.matches)
    modifies db`swipes, db`nextSwipeId, db`matches, db`nextMatchId, store`kv, store`ttl
    ensures db.Valid() && Ledger(db.swipes, db.matches)
    ensures io.lookupFail ==> r == Err("failed to check existing swipe")
    ensures !io.lookupFail && FindSwipe(old(db.swipes), swiperId, req.swipeeId).Some? ==>
      r == Err("user has already swiped on this profile") && db.swipes == old(db.swipes)
    ensures r.Ok? <==> SwipeSucceeds(db.users, old(db.swipes), swiperId, req, io)
    ensures Recordable(db.users, old(db.swipes), swiperId, req, io) ==>
      db.swipes == old(db.swipes) + [RequestedSwipe(swiperId, req).(id := old(db.nextSwipeId))]
    ensures !Recordable(db.users, old(db.swipes), swiperId, req, io) ==> r.Err? && db.swipes == old(db.swipes)
    ensures r.Ok? ==> (r.value.isMatch <==> Completes(old(db.swipes), swiperId, req))
    ensures r.Ok? && r.value.isMatch ==>
      r.value.newMatch == Some(Match(old(db.nextMatchId), swiperId, req.swipeeId)) &&
      db.matches == old(db.matches) + [r.value.newMatch.value] &&
      store.kv == old(store.kv) - (if io.delete1Fail then {} else {Cache.UserMatchesKey(swiperId)})
                                - (if io.delete2Fail then {} else {Cache.UserMatchesKey(req.swipeeId)})
    ensures r.Ok? && !r.value.isMatch ==>
      r.value.newMatch.None? && db.matches == old(db.matches) && store.kv == old(store.kv)
    // No rollback: an error after the insert leaves the swipe recorded.
    ensures r.Err? && Recordable(db.users, old(db.swipes), swiperId, req, io) ==>
      req.direction == Right &&
      ((io.checkFail && r.msg == "failed to check for match") ||
       (!io.checkFail && io.matchFail && r.msg == "failed to create match"))
    ensures r.Err? ==> db.matches == old(db.matches) && store.kv == old(store.kv)
  {
    var recorded := RecordSwipe(db, swiperId, req, io.lookupFail, io.createFail);
    if recorded.Err? {
      return Err(recorded.msg);
    }
    r := CompleteMatch(db, store, old(db.swipes), recorded.value, io);
  }

  // ------------------------------------------------------------ matches

  /** The participant of m shown to userId: user2 when the caller is user1,
      otherwise user1. */
  function OtherUser(m: Match, userId: Id): (o: Id)
    ensures o == m.user1Id || o == m.user2Id
    ensures InMatch(m, userId) && m.user1Id != m.user2Id ==> o != userId
    ensures m.user1Id != userId ==> o == m.user1Id
  {
    if m.user1Id == userId then m.user2Id else m.user1Id
  }

  /** Every participant of the listed matches has a user row. */
  predicate UsersExist(users: seq<User>, ms: seq<Match>) {
    forall m :: m in ms ==> m.user1Id in UserIdSet(users) && m.user2Id in UserIdSet(users)
  }

  /** The profile of a user known to exist. */
  function ProfileById(users: seq<User>, id: Id): (p: UserProfile)
    requires id in UserIdSet(users)
    ensures exists u :: u in users && u.id == id && p == ProfileOf(u)
  {
    UserIdSetMembers(users, id);
    ProfileOf(FindUser(users, id).value)
  }

  /** The responses GetMatches builds, in the order of `ms`: one per match
      whose profile lookup does not fail (those in `lookupFail` are
      skipped). */
  function Responses(users: seq<User>, ms: seq<Match>, userId: Id, lookupFail: set<Id>): seq<MatchResponse>
    requires UsersExist(users, ms)
  {
    if ms == [] then []
    else
      var m := ms[|ms| - 1];
      assert m in ms;
      Responses(users, ms[..|ms| - 1], userId, lookupFail) +
      (if m.id in lookupFail then [] else [MatchResponse(m.id, ProfileById(users, OtherUser(m, userId)))])
  }

  /** Each response shows a match of the list and the profile of its other
      participant; with no failed lookups, every match gets one. */
  lemma {:induction false} ResponsesFaithful(users: seq<User>, ms: seq<Match>, userId: Id, lookupFail: set<Id>)
    requires UsersExist(users, ms)
    ensures lookupFail == {} ==> |Responses(users, ms, userId, lookupFail)| == |ms|
    ensures |Responses(users, ms, userId, lookupFail)| <= |ms|
    ensures forall r :: r in Responses(users, ms, userId, lookupFail) ==>
      exists m :: m in ms && m.id == r.id && m.id !in lookupFail && r.user == ProfileById(users, OtherUser(m, userId))
  {
    if ms != [] {
      var init := ms[..|ms| - 1];
      var m := ms[|ms| - 1];
      assert forall x :: x in init ==> x in ms;
      ResponsesFaithful(users, init, userId, lookupFail);
      forall r | r in Responses(users, ms, userId, lookupFail)
        ensures exists x :: x in ms && x.id == r.id && x.id !in lookupFail && r.user == ProfileById(users, OtherUser(x, userId))
      {
        if r !in Responses(users, init, userId, lookupFail) {
          assert m in ms;
        }
      }
    }
  }

  /** In a justified ledger no response shows the caller to themselves. */
  lemma ResponsesShowPartner(db: Db, userId: Id, lookupFail: set<Id>, ms: seq<Match>)
    requires db.Valid() && Justified(db.swipes, db.matches)
    requires ms == SwipeRepository.MatchesNewestFirst(db.matches, userId)
    ensures UsersExist(db.users, ms)
    ensures forall r :: r in Responses(db.users, ms, userId, lookupFail) ==> r.user.id != userId
  {
    forall m | m in ms ensures m in db.matches && InMatch(m, userId) {
      SwipeRepository.MatchesNewestFirstMembers(db.matches, userId, m);
    }
    forall m | m in ms ensures m.user1Id in UserIdSet(db.users) && m.user2Id in UserIdSet(db.users) {
      var i :| 0 <= i < |db.matches| && db.matches[i] == m;
    }
    ResponsesFaithful(db.users, ms, userId, lookupFail);
  }

  /** The users of a user's matches all exist (foreign keys). */
  lemma MatchesOfUserExist(db: Db, userId: Id)
    requires db.Valid()
    ensures UsersExist(db.users, SwipeRepository.MatchesNewestFirst(db.matches, userId))
  {
    forall m | m in SwipeRepository.MatchesNewestFirst(db.matches, userId)
      ensures m.user1Id in UserIdSet(db.users) && m.user2Id in UserIdSet(db.users)
    {
      SwipeRepository.MatchesNewestFirstMembers(db.matches, userId, m);
      var i :| 0 <= i < |db.matches| && db.matches[i] == m;
    }
  }

  /** The loop of GetMatches: for each match, look up the other participant
      and append the response; a failed lookup skips the match. */
  method BuildResponses(db: Db, userId: Id, ms: seq<Match>, lookupFail: set<Id>) returns (out: seq<MatchResponse>)
    requires UserIdsOk(db.users, db.nextUserId) && UsersExist(db.users, ms)
    ensures out == Responses(db.users, ms, userId, lookupFail)
  {
    out := [];
    var i := 0;
    while i < |ms|
      invariant 0 <= i <= |ms|
      invariant out == Responses(db.users, ms[..i], userId, lookupFail)
    {
      var m := ms[i];
      ResponsesStep(db.users, ms, i, userId, lookupFail);
      var other := OtherUser(m, userId);
      var user := UserRepository.GetByID(db, other, m.id in lookupFail);
      if user.Ok? {
        assert m in ms;
        UserIdSetMembers(db.users, other);
        FindUserUnique(db.users, db.nextUserId, user.value.value);
        out := out + [MatchResponse(m.id, ProfileOf(user.value.value))];
      }
      i := i + 1;
    }
    assert ms[..i] == ms;
  }

  lemma ResponsesStep(users: seq<User>, ms: seq<Match>, i: nat, userId: Id, lookupFail: set<Id>)
    requires UsersExist(users, ms) && i < |ms|
    ensures UsersExist(users, ms[..i]) && UsersExist(users, ms[..i + 1]) && ms[i] in ms
    ensures Responses(users, ms[..i + 1], userId, lookupFail) ==
      Responses(users, ms[..i], userId, lookupFail) +
      (if ms[i].id in lookupFail then [] else [MatchResponse(ms[i].id, ProfileById(users, OtherUser(ms[i], userId)))])
  {
    assert forall x :: x in ms[..i + 1] ==> x in ms;
    assert ms[..i + 1][..i] == ms[..i];
  }

  /** Failures of the round trips GetMatches makes. */
  datatype MatchesIo = MatchesIo(cacheGetFail: bool, queryFail: bool, lookupFail: set<Id>, cacheSetFail: bool)

  /** The cached match list of a user, when present and decodable. */
  predicate CachedMatches(kv: map<string, Cache.Blob>, userId: Id) {
    Cache.UserMatchesKey(userId) in kv && kv[Cache.UserMatchesKey(userId)].MatchListBlob?
  }

  /** GetMatches: a decodable cached list is returned as is; otherwise the
      user's matches are read newest first, each shown with its other
      participant's profile (a failed profile lookup skips that match), and
      the list is written back to the cache. */
  method GetMatches(db: Db, store: Cache.Store, userId: Id, io: MatchesIo)
    returns (r: Result<seq<MatchResponse>>)
    requires db.Valid()
    modifies store`kv, store`ttl
    ensures r.Err? ==> r.msg == "failed to get matches" && store.kv == old(store.kv)
    ensures !io.cacheGetFail && CachedMatches(old(store.kv), userId) ==>
      r == Ok(old(store.kv)[Cache.UserMatchesKey(userId)].matches) && store.kv == old(store.kv)
    ensures !(!io.cacheGetFail && CachedMatches(old(store.kv), userId)) ==>
      UsersExist(db.users, SwipeRepository.MatchesNewestFirst(db.matches, userId)) &&
      (r.Ok? <==> !io.queryFail) &&
      (r.Ok? ==>
        r.value == Responses(db.users, SwipeRepository.MatchesNewestFirst(db.matches, userId), userId, io.lookupFail) &&
        store.kv == if io.cacheSetFail then old(store.kv)
                    else old(store.kv)[Cache.UserMatchesKey(userId) := Cache.MatchListBlob(r.value)])
  {
    MatchesOfUserExist(db, userId);
    var cached := store.GetUserMatches(userId, io.cacheGetFail);
    if cached.Some? && cached.value.MatchListBlob? {
      return Ok(cached.value.matches);
    }
    var listed := SwipeRepository.GetMatchesByUserID(db, userId, io.queryFail);
    if listed.Err? {
      return Err("failed to get matches");
    }
    var out := BuildResponses(db, userId, listed.value, io.lookupFail);
    var _ := store.SetUserMatches(userId, Cache.MatchListBlob(out), io.cacheSetFail);
    r := Ok(out);
  }

  // ------------------------------------------------------------ profiles

  /** Failures and results of the round trips GetProfilesForSwipe makes; the
      rows the query returns are an input. */
  datatype ProfilesIo = ProfilesIo(cacheGetFail: bool, queryFail: bool, rows: seq<UserProfile>,
                                   badRow: Option<nat>, cacheSetFail: bool)

  /** The cached deck of a user, when present and decodable. */
  predicate CachedProfiles(kv: map<string, Cache.Blob>, userId: Id) {
    Cache.ProfileCacheKey(userId) in kv && kv[Cache.ProfileCacheKey(userId)].ProfileListBlob?
  }

  /** GetProfilesForSwipe: the cache key holds only the user id, so a
      decodable cached deck is returned whatever the filter; otherwise the
      deck is queried and cached with ProfileCacheExpiry. */
  method GetProfilesForSwipe(store: Cache.Store, userId: Id, filter: ProfileFilter, io: ProfilesIo)
    returns (r: Result<seq<UserProfile>>)
    modifies store`kv, store`ttl
    ensures !io.cacheGetFail && CachedProfiles(old(store.kv), userId) ==>
      r == Ok(old(store.kv)[Cache.ProfileCacheKey(userId)].profiles) && store.kv == old(store.kv)
    ensures !(!io.cacheGetFail && CachedProfiles(old(store.kv), userId)) ==>
      (r.Ok? <==> !io.queryFail && !(io.badRow.Some? && io.badRow.value < |io.rows|)) &&
      (r.Ok? ==> (r.value == io.rows &&
        store.kv == if io.cacheSetFail then old(store.kv)
                    else old(store.kv)[Cache.ProfileCacheKey(userId) := Cache.ProfileListBlob(io.rows)])) &&
      (r.Ok? && !io.cacheSetFail ==> store.ttl == old(store.ttl)[Cache.ProfileCacheKey(userId) := Cache.ProfileCacheExpiry]) &&
      (r.Err? ==> r.msg == "failed to get profiles" && store.kv == old(store.kv))
  {
    var cached := store.Get(Cache.ProfileCacheKey(userId), io.cacheGetFail);
    if cached.Some? && cached.value.ProfileListBlob? {
      return Ok(cached.value.profiles);
    }
    var _, _, queried := UserRepository.GetProfilesForSwipe(userId, filter, io.queryFail, io.rows, io.badRow);
    if queried.Err? {
      return Err("failed to get profiles");
    }
    var _ := store.SetWithExpiry(Cache.ProfileCacheKey(userId), Cache.ProfileListBlob(queried.value),
                                 Cache.ProfileCacheExpiry, io.cacheSetFail);
    r := Ok(queried.value);
  }

  // --------------------------------------------------------------- match

  /** GetMatch: only a participant sees the match with both profiles. */
  method GetMatch(db: Db, matchId: Id, userId: Id, checkFail: bool, getFail: bool)
    returns (r: Result<Option<MatchWithUsers>>)
    requires db.Valid()
    ensures checkFail ==> r == Err("failed to check if user in match")
    ensures !checkFail && !SwipeRepository.UserInMatch(db.matches, userId, matchId) ==>
      r == Err("user not part of this match")
    ensures r.Ok? <==> !checkFail && !getFail && SwipeRepository.UserInMatch(db.matches, userId, matchId)
    ensures r.Ok? ==> (r.value.Some? && r.value.value.id == matchId &&
      (r.value.value.user1.id == userId || r.value.value.user2.id == userId))
    ensures r.Ok? ==>
      exists m, u1, u2 :: m in db.matches && u1 in db.users && u2 in db.users &&
        m.id == matchId && u1.id == m.user1Id && u2.id == m.user2Id &&
        r.value.value == MatchWithUsers(matchId, ProfileOf(u1), ProfileOf(u2))
    ensures !checkFail && SwipeRepository.UserInMatch(db.matches, userId, matchId) && getFail ==>
      r == Err("failed to get match")
    ensures r.Err? ==> r.msg in {"failed to check if user in match", "user not part of this match", "failed to get match"}
  {
    var inMatch := SwipeRepository.IsUserInMatch(db, userId, matchId, checkFail);
    if inMatch.Err? {
      return Err("failed to check if user in match");
    }
    if !inMatch.value {
      return Err("user not part of this match");
    }
    var found := SwipeRepository.GetMatchWithUsers(db, matchId, getFail);
    if found.Err? {
      return Err("failed to get match");
    }
    var m :| m in db.matches && m.id == matchId && InMatch(m, userId);
    FindMatchUnique(db.matches, db.nextMatchId, m);
    if found.value.None? {
      assert false;
      return Err("failed to get match");
    }
    r := Ok(found.value);
  }
}
