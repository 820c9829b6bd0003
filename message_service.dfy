/** MessageService (internal/service/message_service.go): participant
    checks, message creation and deletion with cache invalidation, and paged
    reads through the match-messages cache. Each database or Redis round trip
    takes a failure flag from the environment. */
module MessageService {
  import opened Wrappers
  import opened Models
  import opened Database
  import Cache
  import SwipeRepository
  import MessageRepository

  /** Failures of the round trips SendMessage makes, in call order. */
  datatype SendIo = SendIo(checkFail: bool, createFail: bool, getFail: bool, cacheFail: bool)

  /** The message a request asks to store, before it gets its id. */
  function RequestedMessage(senderId: Id, req: CreateMessageRequest): Message {
    Message(0, req.matchId, senderId, req.content, req.messageType, req.mediaUrl)
  }

  /** The sender takes part in the match and the row satisfies the table's
      constraints (its type is one the ENUM column admits). */
  predicate Sendable(users: seq<User>, matches: seq<Match>, senderId: Id, req: CreateMessageRequest) {
    SwipeRepository.UserInMatch(matches, senderId, req.matchId) &&
    MessageRowOk(RequestedMessage(senderId, req), MatchIdSet(matches), UserIdSet(users))
  }

  /** The participant check and the insert both succeed, so the row is
      stored, whatever happens after. */
  predicate Inserted(users: seq<User>, matches: seq<Match>, senderId: Id, req: CreateMessageRequest, io: SendIo) {
    !io.checkFail && !io.createFail && Sendable(users, matches, senderId, req)
  }

  /** The first half of SendMessage: the participant check, then the
      insert. */
  method CheckAndInsert(db: Db, senderId: Id, req: CreateMessageRequest, checkFail: bool, createFail: bool)
    returns (r: Result<Message>)
    requires db.Valid()
    modifies db`messages, db`nextMessageId
    ensures db.Valid()
    ensures checkFail ==> r == Err("failed to check if user in match")
    ensures !checkFail && !SwipeRepository.UserInMatch(db.matches, senderId, req.matchId) ==>
      r == Err("user not part of this match")
    ensures r.Ok? <==> !checkFail && !createFail && Sendable(db.users, db.matches, senderId, req)
    ensures r.Ok? ==> r.value == RequestedMessage(senderId, req).(id := old(db.nextMessageId))
    ensures r.Ok? ==> db.messages == old(db.messages) + [r.value] && r.value in db.messages
    ensures r.Err? ==> db.messages == old(db.messages)
    ensures db.nextMessageId == if r.Ok? then old(db.nextMessageId) + 1 else old(db.nextMessageId)
    ensures r.Err? ==> r.msg == "failed to check if user in match" || r.msg == "user not part of this match" ||
                       r.msg == "failed to create message"
  {
    var inMatch := SwipeRepository.IsUserInMatch(db, senderId, req.matchId, checkFail);
    if inMatch.Err? {
      return Err("failed to check if user in match");
    }
    if !inMatch.value {
      return Err("user not part of this match");
    }
    var created := MessageRepository.Create(db, RequestedMessage(senderId, req), createFail);
    if created.Err? {
      return Err("failed to create message");
    }
    r := Ok(created.value);
  }

  /** SendMessage: only a participant of the match may post; the stored
      message carries the caller as sender and the request's match, content,
      type and media; the match's message cache is then dropped (a failed
      drop is ignored). The reply's sender name is left empty. */
  method SendMessage(db: Db, store: Cache.Store, senderId: Id, req: CreateMessageRequest, io: SendIo)
    returns (r: Result<MessageWithSender>)
    requires db.Valid()
    modifies db`messages, db`nextMessageId, store`kv, store`ttl
    ensures db.Valid()
    ensures io.checkFail ==> r == Err("failed to check if user in match")
    ensures !io.checkFail && !SwipeRepository.UserInMatch(db.matches, senderId, req.matchId) ==>
      r == Err("user not part of this match")
    ensures r.Ok? <==> !io.checkFail && !io.createFail && !io.getFail && Sendable(db.users, db.matches, senderId, req)
    ensures r.Ok? ==>
      r.value == MessageWithSender(RequestedMessage(senderId, req).(id := old(db.nextMessageId)), "") &&
      db.messages == old(db.messages) + [r.value.message]
    ensures Inserted(db.users, db.matches, senderId, req, io) ==>
      db.messages == old(db.messages) + [RequestedMessage(senderId, req).(id := old(db.nextMessageId))] &&
      db.nextMessageId == old(db.nextMessageId) + 1
    ensures !Inserted(db.users, db.matches, senderId, req, io) ==>
      db.messages == old(db.messages) && db.nextMessageId == old(db.nextMessageId)
    ensures r.Ok? && !io.cacheFail ==> store.kv == old(store.kv) - {Cache.MatchMessagesKey(req.matchId)}
    ensures r.Ok? && io.cacheFail ==> store.kv == old(store.kv)
    // No rollback: when re-reading the new row fails, the row stays.
    ensures r.Err? && r.msg == "failed to get message" ==>
      |db.messages| == |old(db.messages)| + 1 && store.kv == old(store.kv)
    ensures r.Err? && r.msg != "failed to get message" ==>
      db.messages == old(db.messages) && store.kv == old(store.kv)
  {
    var created := CheckAndInsert(db, senderId, req, io.checkFail, io.createFail);
    if created.Err? {
      return Err(created.msg);
    }
    var fetched := MessageRepository.GetByID(db, created.value.id, io.getFail);
    if fetched.Err? {
      return Err("failed to get message");
    }
    FindMessageUnique(db.messages, db.nextMessageId, created.value);
    var row := fetched.value.value;
    var _ := store.DeleteMatchMessages(req.matchId, io.cacheFail);
    r := Ok(MessageWithSender(row, ""));
  }

  // --------------------------------------------------------------- paging

  /** The paging GetMessages applies to a cached list: start = page*limit,
      empty when start is past the end, else up to `limit` rows from start. */
  function CachedPage(msgs: seq<MessageWithSender>, page: nat, limit: nat): seq<MessageWithSender> {
    var start := page * limit;
    if start >= |msgs| then [] else msgs[start..if start + limit > |msgs| then |msgs| else start + limit]
  }

  /** Slicing the cached list is the same window LIMIT limit OFFSET
      page*limit selects from that list. */
  lemma CachedPageIsPage(msgs: seq<MessageWithSender>, page: nat, limit: nat)
    ensures CachedPage(msgs, page, limit) == MessageRepository.Page(msgs, page * limit, limit)
  {
    var c := CachedPage(msgs, page, limit);
    var p := MessageRepository.Page(msgs, page * limit, limit);
    assert |c| == |p|;
    forall k | 0 <= k < |c| ensures c[k] == p[k] {
    }
  }

  /** Failures of the round trips GetMessages makes. */
  datatype ReadIo = ReadIo(checkFail: bool, cacheGetFail: bool, queryFail: bool, cacheSetFail: bool)

  /** GetMessages as written: a decodable cached list is paged in memory;
      otherwise the page is read from the database, and only a page-0 read
      is written back to the cache. */
  method GetMessages(db: Db, store: Cache.Store, matchId: Id, userId: Id, page: nat, limit: nat, io: ReadIo)
    returns (r: Result<seq<MessageWithSender>>)
    requires db.Valid()
    modifies store`kv, store`ttl
    ensures io.checkFail ==> r == Err("failed to check if user in match")
    ensures !io.checkFail && !SwipeRepository.UserInMatch(db.matches, userId, matchId) ==>
      r == Err("user not part of this match")
    ensures r.Ok? ==> |r.value| <= limit
    ensures r.Ok? <==> (!io.checkFail && SwipeRepository.UserInMatch(db.matches, userId, matchId) &&
                        ((!io.cacheGetFail && Cache.MatchMessagesKey(matchId) in old(store.kv) &&
                         old(store.kv)[Cache.MatchMessagesKey(matchId)].MessageListBlob?) || !io.queryFail))
    ensures r.Err? && !io.checkFail && SwipeRepository.UserInMatch(db.matches, userId, matchId) ==>
      r.msg == "failed to get messages"
    ensures r.Ok? && !io.cacheGetFail && Cache.MatchMessagesKey(matchId) in old(store.kv) &&
            old(store.kv)[Cache.MatchMessagesKey(matchId)].MessageListBlob? ==>
      r.value == CachedPage(old(store.kv)[Cache.MatchMessagesKey(matchId)].messages, page, limit) &&
      store.kv == old(store.kv)
    ensures r.Ok? && !(!io.cacheGetFail && Cache.MatchMessagesKey(matchId) in old(store.kv) &&
                       old(store.kv)[Cache.MatchMessagesKey(matchId)].MessageListBlob?) ==>
      r.value == MessageRepository.Page(
        MessageRepository.NewestFirst(db.users, db.matches, db.messages, MessageRepository.OfMatch(matchId)),
        page * limit, limit) &&
      store.kv == if page == 0 && !io.cacheSetFail
                  then old(store.kv)[Cache.MatchMessagesKey(matchId) := Cache.MessageListBlob(r.value)]
                  else old(store.kv)
    ensures r.Err? ==> store.kv == old(store.kv)
  {
    var inMatch := SwipeRepository.IsUserInMatch(db, userId, matchId, io.checkFail);
    if inMatch.Err? {
      return Err("failed to check if user in match");
    }
    if !inMatch.value {
      return Err("user not part of this match");
    }
    var cached := store.GetMatchMessages(matchId, io.cacheGetFail);
    if cached.Some? && cached.value.MessageListBlob? {
      var msgs := SliceCached(cached.value.messages, page, limit);
      return Ok(msgs);
    }
    r := ReadThroughFirstPage(db, store, matchId, page, limit, io.queryFail, io.cacheSetFail);
  }

  /** The in-memory paging of a cached list. */
  method SliceCached(msgs: seq<MessageWithSender>, page: nat, limit: nat) returns (out: seq<MessageWithSender>)
    ensures out == CachedPage(msgs, page, limit)
    ensures |out| <= limit
  {
    var start := page * limit;
    var end := start + limit;
    if start >= |msgs| {
      return [];
    }
    if end > |msgs| {
      end := |msgs|;
    }
    out := msgs[start..end];
  }

  /** The miss path of GetMessages as written: one page from the database,
      written back to the cache only for page 0. */
  method ReadThroughFirstPage(db: Db, store: Cache.Store, matchId: Id, page: nat, limit: nat,
                              queryFail: bool, cacheSetFail: bool)
    returns (r: Result<seq<MessageWithSender>>)
    requires db.Valid()
    modifies store`kv, store`ttl
    ensures r.Ok? <==> !queryFail
    ensures r.Err? ==> r.msg == "failed to get messages" && store.kv == old(store.kv)
    ensures r.Ok? ==>
      |r.value| <= limit &&
      r.value == MessageRepository.Page(
        MessageRepository.NewestFirst(db.users, db.matches, db.messages, MessageRepository.OfMatch(matchId)),
        page * limit, limit) &&
      store.kv == if page == 0 && !cacheSetFail
                  then old(store.kv)[Cache.MatchMessagesKey(matchId) := Cache.MessageListBlob(r.value)]
                  else old(store.kv)
  {
    var rows := MessageRepository.GetByMatchID(db, matchId, limit, page * limit, queryFail);
    if rows.Err? {
      return Err("failed to get messages");
    }
    if page == 0 {
      var _ := store.SetMatchMessages(matchId, Cache.MessageListBlob(rows.value), cacheSetFail);
    }
    r := Ok(rows.value);
  }

  /** What the page-0 write-back leaves in the cache: at most `limit` rows. A
      later cache hit for page 1 with the same limit finds nothing to return,
      while the table holds a full second page's worth of rows. */
  lemma CachedFirstPageHidesLaterPages(all: seq<MessageWithSender>, limit: nat)
    requires limit >= 1 && |all| > limit
    ensures CachedPage(MessageRepository.Page(all, 0, limit), 1, limit) == []
    ensures MessageRepository.Page(all, limit, limit) != []
  {
    assert |MessageRepository.Page(all, limit, limit)| > 0;
  }

  /** GetMessages corrected: on a miss it caches the match's whole history,
      as the write-back's own intent states, and pages it; a later hit pages
      the same list. */
  method GetMessagesCached(db: Db, store: Cache.Store, matchId: Id, userId: Id, page: nat, limit: nat, io: ReadIo)
    returns (r: Result<seq<MessageWithSender>>)
    requires db.Valid()
    modifies store`kv, store`ttl
    ensures io.checkFail ==> r == Err("failed to check if user in match")
    ensures !io.checkFail && !SwipeRepository.UserInMatch(db.matches, userId, matchId) ==>
      r == Err("user not part of this match")
    ensures r.Ok? ==> |r.value| <= limit
    ensures r.Ok? <==> (!io.checkFail && SwipeRepository.UserInMatch(db.matches, userId, matchId) &&
                        ((!io.cacheGetFail && Cache.MatchMessagesKey(matchId) in old(store.kv) &&
                         old(store.kv)[Cache.MatchMessagesKey(matchId)].MessageListBlob?) || !io.queryFail))
    ensures r.Err? && !io.checkFail && SwipeRepository.UserInMatch(db.matches, userId, matchId) ==>
      r.msg == "failed to get messages"
    ensures r.Ok? && !(!io.cacheGetFail && Cache.MatchMessagesKey(matchId) in old(store.kv) &&
                       old(store.kv)[Cache.MatchMessagesKey(matchId)].MessageListBlob?) ==>
      r.value == MessageRepository.Page(
        MessageRepository.NewestFirst(db.users, db.matches, db.messages, MessageRepository.OfMatch(matchId)),
        page * limit, limit) &&
      store.kv == if io.cacheSetFail then old(store.kv)
                  else old(store.kv)[Cache.MatchMessagesKey(matchId) := Cache.MessageListBlob(
                    MessageRepository.NewestFirst(db.users, db.matches, db.messages, MessageRepository.OfMatch(matchId)))]
    ensures r.Ok? && !io.cacheGetFail && Cache.MatchMessagesKey(matchId) in old(store.kv) &&
            old(store.kv)[Cache.MatchMessagesKey(matchId)].MessageListBlob? ==>
      r.value == MessageRepository.Page(old(store.kv)[Cache.MatchMessagesKey(matchId)].messages, page * limit, limit) &&
      store.kv == old(store.kv)
  {
    var inMatch := SwipeRepository.IsUserInMatch(db, userId, matchId, io.checkFail);
    if inMatch.Err? {
      return Err("failed to check if user in match");
    }
    if !inMatch.value {
      return Err("user not part of this match");
    }
    var cached := store.GetMatchMessages(matchId, io.cacheGetFail);
    if cached.Some? && cached.value.MessageListBlob? {
      CachedPageIsPage(cached.value.messages, page, limit);
      return Ok(CachedPage(cached.value.messages, page, limit));
    }
    var all := MessageRepository.GetByMatchID(db, matchId, |db.messages|, 0, io.queryFail);
    if all.Err? {
      return Err("failed to get messages");
    }
    ghost var full := MessageRepository.NewestFirst(db.users, db.matches, db.messages, MessageRepository.OfMatch(matchId));
    assert all.value == full by {
      MessageRepository.NewestFirstLength(db.users, db.matches, db.messages, MessageRepository.OfMatch(matchId));
    }
    var _ := store.SetMatchMessages(matchId, Cache.MessageListBlob(all.value), io.cacheSetFail);
    CachedPageIsPage(all.value, page, limit);
    r := Ok(CachedPage(all.value, page, limit));
  }

  // ------------------------------------------------------------- deletion

  /** Failures of the round trips DeleteMessage makes. */
  datatype DeleteIo = DeleteIo(getFail: bool, deleteFail: bool, cacheFail: bool)

  /** DeleteMessage: only the sender may delete; a successful delete drops
      the row and then the cache of that message's match. */
  method DeleteMessage(db: Db, store: Cache.Store, messageId: Id, userId: Id, io: DeleteIo) returns (r: Outcome)
    requires db.Valid()
    modifies db`messages, store`kv, store`ttl
    ensures db.Valid()
    ensures io.getFail ==> r == Fail("failed to get message")
    ensures !io.getFail && FindMessage(old(db.messages), messageId).None? ==> r == Fail("message not found")
    ensures !io.getFail && FindMessage(old(db.messages), messageId).Some? &&
            FindMessage(old(db.messages), messageId).value.senderId != userId ==>
      r == Fail("unauthorized to delete this message")
    ensures r.Pass? <==> !io.getFail && !io.deleteFail && FindMessage(old(db.messages), messageId).Some? &&
                         FindMessage(old(db.messages), messageId).value.senderId == userId
    ensures r.Pass? ==> db.messages == MessageRepository.WithoutId(old(db.messages), messageId)
    ensures r.Pass? && !io.cacheFail ==>
      store.kv == old(store.kv) - {Cache.MatchMessagesKey(FindMessage(old(db.messages), messageId).value.matchId)}
    ensures r.Fail? || io.cacheFail ==> store.kv == old(store.kv)
    ensures r.Fail? ==> db.messages == old(db.messages)
  {
    var found := MessageRepository.GetByID(db, messageId, io.getFail);
    if found.Err? {
      return Fail("failed to get message");
    }
    if found.value.None? {
      return Fail("message not found");
    }
    var message := found.value.value;
    FindMessageUnique(db.messages, db.nextMessageId, message);
    if message.senderId != userId {
      return Fail("unauthorized to delete this message");
    }
    var ok := MessageRepository.DeleteByID(db, messageId, io.deleteFail);
    if !ok {
      return Fail("failed to delete message");
    }
    var _ := store.DeleteMatchMessages(message.matchId, io.cacheFail);
    r := Pass;
  }

  // ------------------------------------------------------------- presence

  method MarkUserOnline(store: Cache.Store, userId: Id, fail: bool) returns (ok: bool)
    modifies store`online
    ensures ok == !fail
    ensures store.online == if ok then old(store.online) + {userId} else old(store.online)
  {
    ok := store.AddOnlineUser(userId, fail);
  }

  method MarkUserOffline(store: Cache.Store, userId: Id, fail: bool) returns (ok: bool)
    modifies store`online
    ensures ok == !fail
    ensures store.online == if ok then old(store.online) - {userId} else old(store.online)
  {
    ok := store.RemoveOnlineUser(userId, fail);
  }
}
