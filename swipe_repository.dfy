/** SwipeRepository (internal/repository/swipe_repository.go): the queries
    on the swipes and matches tables. A `fail` flag stands for a database
    error the environment may raise on any round trip. */
module SwipeRepository {
  import opened Wrappers
  import opened Models
  import opened Database

  // ------------------------------------------------------ swipe inserts

  /** The constraints an INSERT INTO swipes must satisfy: both users exist
      and the ordered pair is not yet recorded (unique_swipe). */
  predicate CanInsertSwipe(users: seq<User>, swipes: seq<Swipe>, w: Swipe) {
    w.swiperId in UserIdSet(users) && w.swipeeId in UserIdSet(users) &&
    FindSwipe(swipes, w.swiperId, w.swipeeId).None?
  }

  /** Create: inserts the row and writes the new id into the record; every
      other field is kept as given. */
  method Create(db: Db, swipe: Swipe, fail: bool) returns (r: Result<Swipe>)
    requires db.Valid()
    modifies db`swipes, db`nextSwipeId
    ensures db.Valid()
    ensures r.Ok? <==> !fail && CanInsertSwipe(db.users, old(db.swipes), swipe)
    ensures r.Ok? ==> r.value == swipe.(id := old(db.nextSwipeId))
    ensures r.Ok? ==> db.swipes == old(db.swipes) + [r.value] && db.nextSwipeId == old(db.nextSwipeId) + 1
    ensures r.Err? ==> r.msg == "failed to create swipe" && db.swipes == old(db.swipes) && db.nextSwipeId == old(db.nextSwipeId)
  {
    if fail || !CanInsertSwipe(db.users, db.swipes, swipe) {
      return Err("failed to create swipe");
    }
    var row := swipe.(id := db.nextSwipeId);
    SwipesAppend(db.swipes, db.nextSwipeId, UserIdSet(db.users), row);
    db.swipes := db.swipes + [row];
    db.nextSwipeId := db.nextSwipeId + 1;
    r := Ok(row);
  }

  /** GetBySwiperAndSwipee: the row of that exact ordered pair; absent, with
      no error, when there is none. */
  method GetBySwiperAndSwipee(db: Db, swiperId: Id, swipeeId: Id, fail: bool) returns (r: Result<Option<Swipe>>)
    ensures r.Ok? <==> !fail
    ensures r.Ok? && r.value.Some? ==>
      r.value.value in db.swipes && r.value.value.swiperId == swiperId && r.value.value.swipeeId == swipeeId
    ensures r.Ok? && r.value.None? ==>
      forall w :: w in db.swipes ==> !(w.swiperId == swiperId && w.swipeeId == swipeeId)
  {
    if fail {
      return Err("failed to get swipe");
    }
    r := Ok(FindSwipe(db.swipes, swiperId, swipeeId));
  }

  // ----------------------------------------------------- match detection

  /** w is a right swipe by a on b. */
  predicate IsRight(w: Swipe, a: Id, b: Id) {
    w.swiperId == a && w.swipeeId == b && w.direction == Right
  }

  /** The table records a right swipe by a on b. */
  predicate HasRight(t: seq<Swipe>, a: Id, b: Id) {
    exists w :: w in t && IsRight(w, a, b)
  }

  /** The rows the COUNT(*) of CheckForMatch ranges over:
      (a swiped right on b) OR (b swiped right on a). */
  function CountHits(t: seq<Swipe>, a: Id, b: Id): nat {
    if t == [] then 0
    else (if IsRight(t[0], a, b) || IsRight(t[0], b, a) then 1 else 0) + CountHits(t[1..], a, b)
  }

  /** The value the CheckForMatch query selects: the count of hits, or 0 when
      either EXISTS sub-query finds nothing. */
  function MatchCount(t: seq<Swipe>, a: Id, b: Id): nat {
    if HasRight(t, a, b) && HasRight(t, b, a) then CountHits(t, a, b) else 0
  }

  /** CheckForMatch reports a match when the count is at least 2. */
  predicate MatchFound(t: seq<Swipe>, a: Id, b: Id) {
    MatchCount(t, a, b) >= 2
  }

  method CheckForMatch(db: Db, user1Id: Id, user2Id: Id, fail: bool) returns (r: Result<bool>)
    requires db.Valid()
    ensures r.Ok? <==> !fail
    ensures r.Ok? ==> (r.value <==> MatchFound(db.swipes, user1Id, user2Id))
    ensures r.Ok? ==> (r.value <==>
      user1Id != user2Id && HasRight(db.swipes, user1Id, user2Id) && HasRight(db.swipes, user2Id, user1Id))
  {
    if fail {
      return Err("failed to check for match");
    }
    CheckForMatchIff(db.swipes, user1Id, user2Id);
    r := Ok(MatchCount(db.swipes, user1Id, user2Id) >= 2);
  }

  lemma RowsOfTail(t: seq<Swipe>, a: Id, b: Id)
    requires t != []
    ensures HasRight(t, a, b) <==> IsRight(t[0], a, b) || HasRight(t[1..], a, b)
  {
    assert t == [t[0]] + t[1..];
    if HasRight(t, a, b) {
      var w :| w in t && IsRight(w, a, b);
      assert w == t[0] || w in t[1..];
    }
    if HasRight(t[1..], a, b) {
      var w :| w in t[1..] && IsRight(w, a, b);
      assert w in t;
    }
  }

  /** Under unique_swipe, each ordered pair contributes at most one row to
      the count. */
  lemma {:induction false} CountHitsUnique(t: seq<Swipe>, a: Id, b: Id)
    requires SwipePairsUnique(t)
    ensures CountHits(t, a, b) ==
      (if HasRight(t, a, b) then 1 else 0) + (if a != b && HasRight(t, b, a) then 1 else 0)
  {
    if t != [] {
      var rest := t[1..];
      assert SwipePairsUnique(rest) by {
        forall i, j | 0 <= i < j < |rest|
          ensures !(rest[i].swiperId == rest[j].swiperId && rest[i].swipeeId == rest[j].swipeeId)
        {
          assert rest[i] == t[i + 1] && rest[j] == t[j + 1];
        }
      }
      CountHitsUnique(rest, a, b);
      RowsOfTail(t, a, b);
      RowsOfTail(t, b, a);
      // The head's ordered pair appears nowhere in the rest.
      forall w | w in rest
        ensures !(w.swiperId == t[0].swiperId && w.swipeeId == t[0].swipeeId)
      {
        var k :| 0 <= k < |rest| && rest[k] == w;
        assert t[k + 1] == w;
      }
    }
  }

  /** With unique (swiper, swipee) rows, CheckForMatch(a, b) holds iff a and
      b are different users who have both swiped right on each other. */
  lemma CheckForMatchIff(t: seq<Swipe>, a: Id, b: Id)
    requires SwipePairsUnique(t)
    ensures MatchFound(t, a, b) <==> a != b && HasRight(t, a, b) && HasRight(t, b, a)
  {
    CountHitsUnique(t, a, b);
  }

  lemma {:induction false} CountHitsSymmetric(t: seq<Swipe>, a: Id, b: Id)
    ensures CountHits(t, a, b) == CountHits(t, b, a)
  {
    if t != [] {
      CountHitsSymmetric(t[1..], a, b);
    }
  }

  /** CheckForMatch does not depend on the order of its arguments. */
  lemma CheckForMatchSymmetric(t: seq<Swipe>, a: Id, b: Id)
    ensures MatchFound(t, a, b) == MatchFound(t, b, a)
  {
    CountHitsSymmetric(t, a, b);
  }

  /** Nobody matches themselves: the one self row is counted once. */
  lemma CheckForMatchSelf(t: seq<Swipe>, a: Id)
    requires SwipePairsUnique(t)
    ensures !MatchFound(t, a, a)
  {
    CountHitsUnique(t, a, a);
  }

  // ------------------------------------------------------------- matches

  predicate CanInsertMatch(users: seq<User>, matches: seq<Match>, m: Match) {
    m.user1Id in UserIdSet(users) && m.user2Id in UserIdSet(users) &&
    forall x :: x in matches ==> !(x.user1Id == m.user1Id && x.user2Id == m.user2Id)
  }

  /** CreateMatch: inserts the row and writes the new id into the record. */
  method CreateMatch(db: Db, m: Match, fail: bool) returns (r: Result<Match>)
    requires db.Valid()
    modifies db`matches, db`nextMatchId
    ensures db.Valid()
    ensures r.Ok? <==> !fail && CanInsertMatch(db.users, old(db.matches), m)
    ensures r.Ok? ==> r.value == m.(id := old(db.nextMatchId))
    ensures r.Ok? ==> db.matches == old(db.matches) + [r.value] && db.nextMatchId == old(db.nextMatchId) + 1
    ensures r.Err? ==> r.msg == "failed to create match" && db.matches == old(db.matches) && db.nextMatchId == old(db.nextMatchId)
  {
    if fail || !CanInsertMatch(db.users, db.matches, m) {
      return Err("failed to create match");
    }
    var row := m.(id := db.nextMatchId);
    MatchesAppend(db.matches, db.nextMatchId, UserIdSet(db.users), row);
    MatchIdSetAppend(db.matches, row);
    MessagesWiden(db.messages, db.nextMessageId, MatchIdSet(db.matches), UserIdSet(db.users),
                  MatchIdSet(db.matches + [row]), UserIdSet(db.users));
    db.matches := db.matches + [row];
    db.nextMatchId := db.nextMatchId + 1;
    r := Ok(row);
  }

  /** The matches of a user, newest first: the table read from its end. */
  function MatchesNewestFirst(t: seq<Match>, userId: Id): seq<Match> {
    if t == [] then []
    else MatchesNewestFirst(t[1..], userId) + (if InMatch(t[0], userId) then [t[0]] else [])
  }

  method GetMatchesByUserID(db: Db, userId: Id, fail: bool) returns (r: Result<seq<Match>>)
    ensures r.Ok? <==> !fail
    ensures r.Ok? ==> r.value == MatchesNewestFirst(db.matches, userId)
  {
    if fail {
      return Err("failed to get matches");
    }
    var t := db.matches;
    var out: seq<Match> := [];
    var i := |t|;
    while i > 0
      invariant 0 <= i <= |t|
      invariant out == MatchesNewestFirst(t[i..], userId)
    {
      i := i - 1;
      assert t[i..][1..] == t[i + 1..];
      if InMatch(t[i], userId) {
        out := out + [t[i]];
      }
    }
    assert t[0..] == t;
    r := Ok(out);
  }

  /** The listing holds exactly the matches the user takes part in. */
  lemma {:induction false} MatchesNewestFirstMembers(t: seq<Match>, userId: Id, m: Match)
    ensures m in MatchesNewestFirst(t, userId) <==> m in t && InMatch(m, userId)
  {
    if t != [] {
      MatchesNewestFirstMembers(t[1..], userId, m);
      assert t == [t[0]] + t[1..];
    }
  }

  predicate MatchIdsDescending(r: seq<Match>) {
    forall i, j :: 0 <= i < j < |r| ==> r[i].id > r[j].id
  }

  /** ... and lists them newest first: ids strictly decrease along it. */
  lemma {:induction false} MatchesNewestFirstOrdered(t: seq<Match>, next: Id, userId: Id)
    requires MatchIdsOk(t, next)
    ensures MatchIdsDescending(MatchesNewestFirst(t, userId))
  {
    if t != [] {
      var rest := MatchesNewestFirst(t[1..], userId);
      MatchesNewestFirstOrdered(t[1..], next, userId);
      if InMatch(t[0], userId) {
        forall m | m in rest ensures m.id > t[0].id {
          MatchesNewestFirstMembers(t[1..], userId, m);
          var k :| 0 <= k < |t[1..]| && t[1..][k] == m;
          assert t[k + 1] == m;
        }
        var r := rest + [t[0]];
        assert r == MatchesNewestFirst(t, userId);
        forall i, j | 0 <= i < j < |r| ensures r[i].id > r[j].id {
          assert r[i] == rest[i];
          if j == |rest| {
            assert r[j] == t[0];
            assert rest[i] in rest;
          } else {
            assert r[j] == rest[j];
          }
        }
      }
    }
  }

  /** GetMatchByID: absent (no error) for an unknown id. */
  method GetMatchByID(db: Db, matchId: Id, fail: bool) returns (r: Result<Option<Match>>)
    ensures r.Ok? <==> !fail
    ensures r.Ok? ==> r.value == FindMatch(db.matches, matchId)
    ensures r.Ok? && r.value.Some? ==> r.value.value in db.matches && r.value.value.id == matchId
    ensures r.Ok? && r.value.None? ==> forall m :: m in db.matches ==> m.id != matchId
  {
    if fail {
      return Err("failed to get match");
    }
    r := Ok(FindMatch(db.matches, matchId));
  }

  /** The user takes part in the match with that id. */
  predicate UserInMatch(t: seq<Match>, userId: Id, matchId: Id) {
    exists m :: m in t && m.id == matchId && InMatch(m, userId)
  }

  /** IsUserInMatch: true iff the match exists and the user is its user1 or
      its user2. */
  method IsUserInMatch(db: Db, userId: Id, matchId: Id, fail: bool) returns (r: Result<bool>)
    requires db.Valid()
    ensures fail ==> r == Err("failed to check if user in match")
    ensures r.Ok? <==> !fail
    ensures r.Ok? ==> (r.value <==> UserInMatch(db.matches, userId, matchId))
    ensures r.Ok? ==> (r.value <==>
      FindMatch(db.matches, matchId).Some? && InMatch(FindMatch(db.matches, matchId).value, userId))
  {
    if fail {
      return Err("failed to check if user in match");
    }
    var found := FindMatch(db.matches, matchId);
    UserInMatchByLookup(db.matches, db.nextMatchId, userId, matchId);
    r := Ok(found.Some? && InMatch(found.value, userId));
  }

  /** Membership agrees with looking the match up by id. */
  lemma UserInMatchByLookup(t: seq<Match>, next: Id, userId: Id, matchId: Id)
    requires MatchIdsOk(t, next)
    ensures UserInMatch(t, userId, matchId) <==>
      FindMatch(t, matchId).Some? && InMatch(FindMatch(t, matchId).value, userId)
  {
    if UserInMatch(t, userId, matchId) {
      var m :| m in t && m.id == matchId && InMatch(m, userId);
      FindMatchUnique(t, next, m);
    }
  }

  /** GetMatchWithUsers: the match joined with both users' profiles; absent,
      with no error, when the match or either user row is missing. The
      foreign keys of the matches table make the second case impossible. */
  method GetMatchWithUsers(db: Db, matchId: Id, fail: bool) returns (r: Result<Option<MatchWithUsers>>)
    requires db.Valid()
    ensures r.Ok? <==> !fail
    ensures r.Ok? && r.value.Some? ==>
      exists m, u1, u2 :: m in db.matches && u1 in db.users && u2 in db.users &&
        m.id == matchId && u1.id == m.user1Id && u2.id == m.user2Id &&
        r.value.value == MatchWithUsers(matchId, ProfileOf(u1), ProfileOf(u2))
    ensures r.Ok? && r.value.None? ==> forall m :: m in db.matches ==> m.id != matchId
  {
    if fail {
      return Err("failed to get match with users");
    }
    var m := FindMatch(db.matches, matchId);
    if m.None? {
      return Ok(None);
    }
    var u1 := FindUser(db.users, m.value.user1Id);
    var u2 := FindUser(db.users, m.value.user2Id);
    UserIdSetMembers(db.users, m.value.user1Id);
    UserIdSetMembers(db.users, m.value.user2Id);
    if u1.None? || u2.None? {
      // the foreign keys keep both users of a stored match
      assert false;
      return Ok(None);
    }
    r := Ok(Some(MatchWithUsers(matchId, ProfileOf(u1.value), ProfileOf(u2.value))));
  }
}
