/** The MySQL schema of internal/database/database.go as in-memory tables.
    Each table is a sequence of rows in insertion order (AUTO_INCREMENT ids
    ascend along it) with the next id to hand out. The table constraints of
    the schema (primary keys, unique keys, foreign keys, ENUM columns) are the
    class invariant: an insert or update that would break one fails, as it
    does in MySQL in strict mode. */
module Database {
  import opened Wrappers
  import opened Models

  // ------------------------------------------------------------- row ids

  predicate UserIdsOk(t: seq<User>, next: Id) {
    0 < next &&
    (forall i :: 0 <= i < |t| ==> 0 < t[i].id < next) &&
    (forall i, j :: 0 <= i < j < |t| ==> t[i].id < t[j].id)
  }

  predicate SwipeIdsOk(t: seq<Swipe>, next: Id) {
    0 < next &&
    (forall i :: 0 <= i < |t| ==> 0 < t[i].id < next) &&
    (forall i, j :: 0 <= i < j < |t| ==> t[i].id < t[j].id)
  }

  predicate MatchIdsOk(t: seq<Match>, next: Id) {
    0 < next &&
    (forall i :: 0 <= i < |t| ==> 0 < t[i].id < next) &&
    (forall i, j :: 0 <= i < j < |t| ==> t[i].id < t[j].id)
  }

  predicate MessageIdsOk(t: seq<Message>, next: Id) {
    0 < next &&
    (forall i :: 0 <= i < |t| ==> 0 < t[i].id < next) &&
    (forall i, j :: 0 <= i < j < |t| ==> t[i].id < t[j].id)
  }

  function UserIdSet(t: seq<User>): set<Id> {
    set i | 0 <= i < |t| :: t[i].id
  }

  function MatchIdSet(t: seq<Match>): set<Id> {
    set i | 0 <= i < |t| :: t[i].id
  }

  // --------------------------------------------------------------- users

  /** The users table has no columns for first and last name, age, NTRP
      rating or preferred timeslots: a stored row never holds them. */
  predicate StoredColumnsOnly(u: User) {
    u.firstName.None? && u.lastName.None? && u.age.None? &&
    u.ntrpRating.None? && u.preferredTimeslots.None?
  }

  /** gender ENUM('male', 'female', 'other'), NULL allowed. */
  predicate GenderColumnOk(u: User) {
    u.gender.None? || IsGender(u.gender.value)
  }

  predicate UserRowOk(u: User) {
    StoredColumnsOnly(u) && GenderColumnOk(u)
  }

  /** oauth_id UNIQUE and email UNIQUE (NULLs may repeat). */
  predicate UsersUnique(t: seq<User>) {
    forall i, j :: 0 <= i < j < |t| ==>
      (t[i].oauthId.Some? ==> t[i].oauthId != t[j].oauthId) &&
      (t[i].email.Some? ==> t[i].email != t[j].email)
  }

  predicate UsersOk(t: seq<User>, next: Id) {
    UserIdsOk(t, next) && UsersUnique(t) && (forall i :: 0 <= i < |t| ==> UserRowOk(t[i]))
  }

  // -------------------------------------------------------------- swipes

  /** UNIQUE KEY unique_swipe (swiper_id, swipee_id). */
  predicate SwipePairsUnique(t: seq<Swipe>) {
    forall i, j :: 0 <= i < j < |t| ==>
      !(t[i].swiperId == t[j].swiperId && t[i].swipeeId == t[j].swipeeId)
  }

  predicate SwipesOk(t: seq<Swipe>, next: Id, userIds: set<Id>) {
    SwipeIdsOk(t, next) && SwipePairsUnique(t) &&
    forall i :: 0 <= i < |t| ==> t[i].swiperId in userIds && t[i].swipeeId in userIds
  }

  // ------------------------------------------------------------- matches

  /** UNIQUE KEY unique_match (user1_id, user2_id), on the ordered pair. */
  predicate MatchPairsUnique(t: seq<Match>) {
    forall i, j :: 0 <= i < j < |t| ==>
      !(t[i].user1Id == t[j].user1Id && t[i].user2Id == t[j].user2Id)
  }

  predicate MatchesOk(t: seq<Match>, next: Id, userIds: set<Id>) {
    MatchIdsOk(t, next) && MatchPairsUnique(t) &&
    forall i :: 0 <= i < |t| ==> t[i].user1Id in userIds && t[i].user2Id in userIds
  }

  // ------------------------------------------------------------ messages

  /** Foreign keys to matches and users, and message_type
      ENUM('text', 'image', 'audio'). */
  predicate MessageRowOk(m: Message, matchIds: set<Id>, userIds: set<Id>) {
    m.matchId in matchIds && m.senderId in userIds && IsMessageType(m.messageType)
  }

  predicate MessagesOk(t: seq<Message>, next: Id, matchIds: set<Id>, userIds: set<Id>) {
    MessageIdsOk(t, next) && forall i :: 0 <= i < |t| ==> MessageRowOk(t[i], matchIds, userIds)
  }

  // ------------------------------------------------------------ database

  class Db {
    var users: seq<User>
    var swipes: seq<Swipe>
    var matches: seq<Match>
    var messages: seq<Message>
    var nextUserId: Id
    var nextSwipeId: Id
    var nextMatchId: Id
    var nextMessageId: Id

    /** Every constraint of the schema holds. */
    ghost predicate Valid()
      reads this
    {
      UsersOk(users, nextUserId) &&
      SwipesOk(swipes, nextSwipeId, UserIdSet(users)) &&
      MatchesOk(matches, nextMatchId, UserIdSet(users)) &&
      MessagesOk(messages, nextMessageId, MatchIdSet(matches), UserIdSet(users))
    }

    constructor ()
      ensures Valid()
      ensures users == [] && swipes == [] && matches == [] && messages == []
    {
      users, swipes, matches, messages := [], [], [], [];
      nextUserId, nextSwipeId, nextMatchId, nextMessageId := 1, 1, 1, 1;
    }
  }

  // ------------------------------------------------------------- lookups

  /** The row a `WHERE id = ?` query finds. */
  function FindUser(t: seq<User>, id: Id): (r: Option<User>)
    ensures r.Some? ==> r.value in t && r.value.id == id
    ensures r.None? ==> forall u :: u in t ==> u.id != id
  {
    if t == [] then None else if t[0].id == id then Some(t[0]) else FindUser(t[1..], id)
  }

  function FindMatch(t: seq<Match>, id: Id): (r: Option<Match>)
    ensures r.Some? ==> r.value in t && r.value.id == id
    ensures r.None? ==> forall m :: m in t ==> m.id != id
  {
    if t == [] then None else if t[0].id == id then Some(t[0]) else FindMatch(t[1..], id)
  }

  function FindMessage(t: seq<Message>, id: Id): (r: Option<Message>)
    ensures r.Some? ==> r.value in t && r.value.id == id
    ensures r.None? ==> forall m :: m in t ==> m.id != id
  {
    if t == [] then None else if t[0].id == id then Some(t[0]) else FindMessage(t[1..], id)
  }

  /** `WHERE swiper_id = ? AND swipee_id = ?`. */
  function FindSwipe(t: seq<Swipe>, swiperId: Id, swipeeId: Id): (r: Option<Swipe>)
    ensures r.Some? ==> r.value in t && r.value.swiperId == swiperId && r.value.swipeeId == swipeeId
    ensures r.None? ==> forall w :: w in t ==> !(w.swiperId == swiperId && w.swipeeId == swipeeId)
  {
    if t == [] then None
    else if t[0].swiperId == swiperId && t[0].swipeeId == swipeeId then Some(t[0])
    else FindSwipe(t[1..], swiperId, swipeeId)
  }

  /** `WHERE oauth_id = ? AND oauth_provider = ?`. */
  function FindUserByOAuth(t: seq<User>, oauthId: string, provider: string): (r: Option<User>)
    ensures r.Some? ==> r.value in t && r.value.oauthId == Some(oauthId) && r.value.oauthProvider == Some(provider)
    ensures r.None? ==> forall u :: u in t ==> !(u.oauthId == Some(oauthId) && u.oauthProvider == Some(provider))
  {
    if t == [] then None
    else if t[0].oauthId == Some(oauthId) && t[0].oauthProvider == Some(provider) then Some(t[0])
    else FindUserByOAuth(t[1..], oauthId, provider)
  }

  lemma UserIdSetMembers(t: seq<User>, id: Id)
    ensures id in UserIdSet(t) <==> FindUser(t, id).Some?
  {
    if id in UserIdSet(t) {
      var i :| 0 <= i < |t| && t[i].id == id;
      assert t[i] in t;
    }
  }

  lemma MatchIdSetMembers(t: seq<Match>, id: Id)
    ensures id in MatchIdSet(t) <==> FindMatch(t, id).Some?
  {
    if id in MatchIdSet(t) {
      var i :| 0 <= i < |t| && t[i].id == id;
      assert t[i] in t;
    }
  }

  /** With unique ids, a lookup by id finds the one row carrying that id. */
  lemma FindMatchUnique(t: seq<Match>, next: Id, m: Match)
    requires MatchIdsOk(t, next) && m in t
    ensures FindMatch(t, m.id) == Some(m)
  {
    var r := FindMatch(t, m.id);
    var i :| 0 <= i < |t| && t[i] == m;
    var j :| 0 <= j < |t| && t[j] == r.value;
    assert i == j;
  }

  lemma FindMessageUnique(t: seq<Message>, next: Id, m: Message)
    requires MessageIdsOk(t, next) && m in t
    ensures FindMessage(t, m.id) == Some(m)
  {
    var r := FindMessage(t, m.id);
    var i :| 0 <= i < |t| && t[i] == m;
    var j :| 0 <= j < |t| && t[j] == r.value;
    assert i == j;
  }

  lemma FindUserUnique(t: seq<User>, next: Id, u: User)
    requires UserIdsOk(t, next) && u in t
    ensures FindUser(t, u.id) == Some(u)
  {
    var r := FindUser(t, u.id);
    var i :| 0 <= i < |t| && t[i] == u;
    var j :| 0 <= j < |t| && t[j] == r.value;
    assert i == j;
  }

  // ------------------------------------------------------------- appends
  // An insert appends a row carrying the next id; these lemmas show which
  // table constraints survive it.

  lemma UserIdSetAppend(t: seq<User>, u: User)
    ensures UserIdSet(t + [u]) == UserIdSet(t) + {u.id}
  {
    var t' := t + [u];
    forall id | id in UserIdSet(t') ensures id in UserIdSet(t) + {u.id} {
      var i :| 0 <= i < |t'| && t'[i].id == id;
      if i < |t| { assert t[i] == t'[i]; }
    }
    forall id | id in UserIdSet(t) ensures id in UserIdSet(t') {
      var i :| 0 <= i < |t| && t[i].id == id;
      assert t'[i] == t[i];
    }
    assert t'[|t|] == u;
  }

  lemma MatchIdSetAppend(t: seq<Match>, m: Match)
    ensures MatchIdSet(t + [m]) == MatchIdSet(t) + {m.id}
  {
    var t' := t + [m];
    forall id | id in MatchIdSet(t') ensures id in MatchIdSet(t) + {m.id} {
      var i :| 0 <= i < |t'| && t'[i].id == id;
      if i < |t| { assert t[i] == t'[i]; }
    }
    forall id | id in MatchIdSet(t) ensures id in MatchIdSet(t') {
      var i :| 0 <= i < |t| && t[i].id == id;
      assert t'[i] == t[i];
    }
    assert t'[|t|] == m;
  }

  lemma SwipesAppend(t: seq<Swipe>, next: Id, userIds: set<Id>, w: Swipe)
    requires SwipesOk(t, next, userIds)
    requires w.id == next && w.swiperId in userIds && w.swipeeId in userIds
    requires forall x :: x in t ==> !(x.swiperId == w.swiperId && x.swipeeId == w.swipeeId)
    ensures SwipesOk(t + [w], next + 1, userIds)
  {
    var t' := t + [w];
    forall i, j | 0 <= i < j < |t'|
      ensures t'[i].id < t'[j].id
      ensures !(t'[i].swiperId == t'[j].swiperId && t'[i].swipeeId == t'[j].swipeeId)
    {
      assert t'[i] == t[i];
      if j == |t| { assert t[i] in t; } else { assert t'[j] == t[j]; }
    }
  }

  lemma SwipesWiden(t: seq<Swipe>, next: Id, userIds: set<Id>, more: set<Id>)
    requires SwipesOk(t, next, userIds) && userIds <= more
    ensures SwipesOk(t, next, more)
  {
  }

  lemma MatchesAppend(t: seq<Match>, next: Id, userIds: set<Id>, m: Match)
    requires MatchesOk(t, next, userIds)
    requires m.id == next && m.user1Id in userIds && m.user2Id in userIds
    requires forall x :: x in t ==> !(x.user1Id == m.user1Id && x.user2Id == m.user2Id)
    ensures MatchesOk(t + [m], next + 1, userIds)
  {
    var t' := t + [m];
    forall i, j | 0 <= i < j < |t'|
      ensures t'[i].id < t'[j].id
      ensures !(t'[i].user1Id == t'[j].user1Id && t'[i].user2Id == t'[j].user2Id)
    {
      assert t'[i] == t[i];
      if j == |t| { assert t[i] in t; } else { assert t'[j] == t[j]; }
    }
  }

  lemma MatchesWiden(t: seq<Match>, next: Id, userIds: set<Id>, more: set<Id>)
    requires MatchesOk(t, next, userIds) && userIds <= more
    ensures MatchesOk(t, next, more)
  {
  }

  lemma MessagesAppend(t: seq<Message>, next: Id, matchIds: set<Id>, userIds: set<Id>, m: Message)
    requires MessagesOk(t, next, matchIds, userIds)
    requires m.id == next && MessageRowOk(m, matchIds, userIds)
    ensures MessagesOk(t + [m], next + 1, matchIds, userIds)
  {
    var t' := t + [m];
    forall i, j | 0 <= i < j < |t'| ensures t'[i].id < t'[j].id {
      assert t'[i] == t[i];
      if j < |t| { assert t'[j] == t[j]; }
    }
  }

  lemma MessagesWiden(t: seq<Message>, next: Id, matchIds: set<Id>, userIds: set<Id>, moreMatches: set<Id>, moreUsers: set<Id>)
    requires MessagesOk(t, next, matchIds, userIds) && matchIds <= moreMatches && userIds <= moreUsers
    ensures MessagesOk(t, next, moreMatches, userIds) && MessagesOk(t, next, matchIds, moreUsers)
    ensures MessagesOk(t, next, moreMatches, moreUsers)
  {
  }

  lemma UsersAppend(t: seq<User>, next: Id, u: User)
    requires UsersOk(t, next)
    requires u.id == next && UserRowOk(u)
    requires u.oauthId.Some? ==> forall x :: x in t ==> x.oauthId != u.oauthId
    requires u.email.Some? ==> forall x :: x in t ==> x.email != u.email
    ensures UsersOk(t + [u], next + 1)
  {
    var t' := t + [u];
    forall i, j | 0 <= i < j < |t'|
      ensures t'[i].id < t'[j].id
      ensures t'[i].oauthId.Some? ==> t'[i].oauthId != t'[j].oauthId
      ensures t'[i].email.Some? ==> t'[i].email != t'[j].email
    {
      assert t'[i] == t[i];
      if j == |t| { assert t[i] in t; } else { assert t'[j] == t[j]; }
    }
    forall i | 0 <= i < |t'| ensures 0 < t'[i].id < next + 1 && UserRowOk(t'[i]) {
      if i < |t| { assert t'[i] == t[i]; }
    }
  }
}
