/** MessageHandler (internal/handler/message_handler.go): the HTTP routes of
    the chat. Query and path parameters are parsed and checked here, the
    message body is normalised and validated, and the participant check is
    made before the read-only routes reach the repository. The paged read
    goes through the corrected cache of MessageService.GetMessagesCached. */
module MessageHandler {
  import opened Wrappers
  import opened Models
  import opened Database
  import opened Http
  import Cache
  import Strconv
  import Strs
  import SwipeRepository
  import MessageRepository
  import MessageService

  // -------------------------------------------------------- GET /messages

  const DefaultPageSize: nat := 50
  const MaxPageSize: nat := 100

  /** match_id is required and must parse as a 64-bit integer. */
  function MatchIdParam(s: string): (r: Result<Id>)
    ensures s == "" ==> r == Err("match_id is required")
    ensures s != "" && Strconv.ParseInt(s).None? ==> r == Err("Invalid match_id")
    ensures r.Ok? <==> Strconv.ParseInt(s).Some?
    ensures r.Ok? ==> Strconv.ParseInt(s) == Some(r.value)
  {
    if s == "" then Err("match_id is required")
    else match Strconv.ParseInt(s)
      case None => Err("Invalid match_id")
      case Some(n) => Ok(n)
  }

  /** page: a non-negative integer, anything else falls back to 0. */
  function PageParam(s: string): (page: nat)
    ensures Strconv.ParseInt(s).Some? && Strconv.ParseInt(s).value >= 0 ==> page == Strconv.ParseInt(s).value
    ensures !(Strconv.ParseInt(s).Some? && Strconv.ParseInt(s).value >= 0) ==> page == 0
  {
    if s != "" && Strconv.ParseInt(s).Some? && Strconv.ParseInt(s).value >= 0 then Strconv.ParseInt(s).value else 0
  }

  /** limit: an integer from 1 to 100, anything else falls back to 50. */
  function LimitParam(s: string): (limit: nat)
    ensures 1 <= limit <= MaxPageSize
    ensures Strconv.ParseInt(s).Some? && 1 <= Strconv.ParseInt(s).value <= MaxPageSize ==>
      limit == Strconv.ParseInt(s).value
    ensures !(Strconv.ParseInt(s).Some? && 1 <= Strconv.ParseInt(s).value <= MaxPageSize) ==>
      limit == DefaultPageSize
  {
    if s != "" && Strconv.ParseInt(s).Some? && 1 <= Strconv.ParseInt(s).value <= MaxPageSize
    then Strconv.ParseInt(s).value else DefaultPageSize
  }

  datatype MessagesPage = MessagesPage(messages: seq<MessageWithSender>, count: int, page: nat, limit: nat, hasMore: bool)

  /** The reply body: has_more holds exactly when the page came back full. */
  function MessagesPageOf(messages: seq<MessageWithSender>, page: nat, limit: nat): (p: MessagesPage)
    ensures p.messages == messages && p.count == |messages| && p.page == page && p.limit == limit
    ensures p.hasMore <==> |messages| == limit
  {
    MessagesPage(messages, |messages|, page, limit, |messages| == limit)
  }

  /** has_more promises another page only as a guess: when the match holds
      exactly `limit` messages the first page says there is more and the
      second page is empty. */
  lemma HasMoreOnExactFit(all: seq<MessageWithSender>, limit: nat)
    requires limit >= 1 && |all| == limit
    ensures MessagesPageOf(MessageRepository.Page(all, 0, limit), 0, limit).hasMore
    ensures MessageRepository.Page(all, limit, limit) == []
  {
    assert MessageRepository.Page(all, 0, limit) == all;
  }

  /** The messages of a match, newest first, as the database holds them. */
  ghost function History(db: Db, matchId: Id): seq<MessageWithSender>
    reads db
  {
    MessageRepository.NewestFirst(db.users, db.matches, db.messages, MessageRepository.OfMatch(matchId))
  }

  /** `msgs` is page `page` of the match's history, `limit` rows a page. */
  ghost predicate IsPage(msgs: seq<MessageWithSender>, db: Db, matchId: Id, page: nat, limit: nat)
    reads db
  {
    msgs == MessageRepository.Page(History(db, matchId), page * limit, limit)
  }

  /** The match's messages list was found in the cache. */
  ghost predicate CacheHit(kv: map<string, Cache.Blob>, matchId: Id, io: MessageService.ReadIo) {
    !io.cacheGetFail && Cache.MatchMessagesKey(matchId) in kv && kv[Cache.MatchMessagesKey(matchId)].MessageListBlob?
  }

  /** The service call of GET /messages, its outcome stated for the reply. */
  method ReadPage(db: Db, store: Cache.Store, userId: Id, matchId: Id, page: nat, limit: nat, io: MessageService.ReadIo)
    returns (r: Result<seq<MessageWithSender>>)
    requires db.Valid()
    modifies store`kv, store`ttl
    ensures io.checkFail ==> r == Err("failed to check if user in match")
    ensures !io.checkFail && !SwipeRepository.UserInMatch(db.matches, userId, matchId) ==>
      r == Err("user not part of this match")
    ensures r.Ok? ==> |r.value| <= limit
    ensures r.Ok? <==> (!io.checkFail && SwipeRepository.UserInMatch(db.matches, userId, matchId) &&
                        (CacheHit(old(store.kv), matchId, io) || !io.queryFail))
    ensures r.Err? && !io.checkFail && SwipeRepository.UserInMatch(db.matches, userId, matchId) ==>
      r.msg == "failed to get messages"
    ensures r.Ok? && !CacheHit(old(store.kv), matchId, io) ==> IsPage(r.value, db, matchId, page, limit)
    ensures r.Ok? && CacheHit(old(store.kv), matchId, io) ==>
      r.value == MessageRepository.Page(old(store.kv)[Cache.MatchMessagesKey(matchId)].messages, page * limit, limit)
  {
    r := MessageService.GetMessagesCached(db, store, matchId, userId, page, limit, io);
  }

  /** GET /messages?match_id=&page=&limit=. */
  method GetMessages(db: Db, store: Cache.Store, caller: Option<Id>, q: map<string, string>, io: MessageService.ReadIo)
    returns (reply: Reply<MessagesPage>)
    requires db.Valid()
    modifies store`kv, store`ttl
    ensures caller.None? ==> reply == Failure(StatusUnauthorized, NotAuthenticated) && store.kv == old(store.kv)
    ensures caller.Some? && MatchIdParam(Param(q, "match_id")).Err? ==>
      reply == Failure(StatusBadRequest, MatchIdParam(Param(q, "match_id")).msg) && store.kv == old(store.kv)
    ensures caller.Some? && MatchIdParam(Param(q, "match_id")).Ok? && io.checkFail ==>
      reply == Failure(StatusBadRequest, "failed to check if user in match")
    ensures caller.Some? && MatchIdParam(Param(q, "match_id")).Ok? && !io.checkFail &&
            !SwipeRepository.UserInMatch(db.matches, caller.value, MatchIdParam(Param(q, "match_id")).value) ==>
      reply == Failure(StatusBadRequest, "user not part of this match")
    ensures caller.Some? && MatchIdParam(Param(q, "match_id")).Ok? ==>
      (reply.Success? <==> (!io.checkFail &&
                            SwipeRepository.UserInMatch(db.matches, caller.value, MatchIdParam(Param(q, "match_id")).value) &&
                            (CacheHit(old(store.kv), MatchIdParam(Param(q, "match_id")).value, io) || !io.queryFail)))
    ensures caller.Some? && MatchIdParam(Param(q, "match_id")).Ok? && !io.checkFail &&
            SwipeRepository.UserInMatch(db.matches, caller.value, MatchIdParam(Param(q, "match_id")).value) &&
            !CacheHit(old(store.kv), MatchIdParam(Param(q, "match_id")).value, io) && io.queryFail ==>
      reply == Failure(StatusBadRequest, "failed to get messages")
    ensures reply.Failure? ==> reply.status in {StatusUnauthorized, StatusBadRequest}
    ensures reply.Success? ==> (reply.status == StatusOK && caller.Some? && MatchIdParam(Param(q, "match_id")).Ok? &&
      reply.body == MessagesPageOf(reply.body.messages, PageParam(Param(q, "page")), LimitParam(Param(q, "limit"))) &&
      |reply.body.messages| <= reply.body.limit)
    ensures reply.Success? && !CacheHit(old(store.kv), MatchIdParam(Param(q, "match_id")).value, io) ==>
      IsPage(reply.body.messages, db, MatchIdParam(Param(q, "match_id")).value,
             PageParam(Param(q, "page")), LimitParam(Param(q, "limit")))
  {
    if caller.None? {
      return Failure(StatusUnauthorized, NotAuthenticated);
    }
    var matchId := MatchIdParam(Param(q, "match_id"));
    if matchId.Err? {
      return Failure(StatusBadRequest, matchId.msg);
    }
    var page := PageParam(Param(q, "page"));
    var limit := LimitParam(Param(q, "limit"));
    var messages := ReadPage(db, store, caller.value, matchId.value, page, limit, io);
    if messages.Err? {
      return Failure(StatusBadRequest, messages.msg);
    }
    reply := Success(StatusOK, MessagesPageOf(messages.value, page, limit));
  }

  // ------------------------------------------------------- POST /messages

  /** The limit on a message's content, compared with Go's len: bytes. */
  const MaxContentBytes: nat := 1000

  /** The body checks: an empty type means text, the type must be one of
      text, image and audio, and the content at most 1000 bytes long. */
  function ValidMessage(req: CreateMessageRequest): (r: Result<CreateMessageRequest>)
    ensures req.messageType != "" && !IsMessageType(req.messageType) ==> r == Err("Invalid message type")
    ensures (req.messageType == "" || IsMessageType(req.messageType)) && Strs.ByteLen(req.content) > MaxContentBytes ==>
      r == Err("Message too long. Maximum 1000 characters")
    ensures r.Ok? <==> (req.messageType == "" || IsMessageType(req.messageType)) &&
                       Strs.ByteLen(req.content) <= MaxContentBytes
    ensures r.Ok? ==> (IsMessageType(r.value.messageType) &&
      r.value.(messageType := req.messageType) == req &&
      (req.messageType != "" ==> r.value == req))
  {
    var t := if req.messageType == "" then TextType else req.messageType;
    if t != TextType && t != ImageType && t != AudioType then Err("Invalid message type")
    else if Strs.ByteLen(req.content) > MaxContentBytes then Err("Message too long. Maximum 1000 characters")
    else Ok(req.(messageType := t))
  }

  /** A validated request from a participant of the match always satisfies
      the messages table's constraints: on this route only the participant
      check and the database round trips can still refuse it. */
  lemma ValidatedIsSendable(users: seq<User>, matches: seq<Match>, nextMatchId: Id, senderId: Id, req: CreateMessageRequest)
    requires MatchesOk(matches, nextMatchId, UserIdSet(users))
    requires ValidMessage(req).Ok?
    requires SwipeRepository.UserInMatch(matches, senderId, req.matchId)
    ensures MessageService.Sendable(users, matches, senderId, ValidMessage(req).value)
  {
    var m :| m in matches && m.id == req.matchId && InMatch(m, senderId);
    var i :| 0 <= i < |matches| && matches[i] == m;
    assert matches[i].user1Id in UserIdSet(users) && matches[i].user2Id in UserIdSet(users);
    assert m.id in MatchIdSet(matches);
  }

  /** Characters from U+0800 up take three bytes each. */
  lemma {:induction false} WideByteLen(s: string)
    requires forall i :: 0 <= i < |s| ==> s[i] as int >= 0x800
    ensures Strs.ByteLen(s) >= 3 * |s|
  {
    if s != [] {
      assert forall i :: 0 <= i < |s[1..]| ==> s[1..][i] == s[i + 1];
      WideByteLen(s[1..]);
    }
  }

  /** The limit counts bytes although the message speaks of characters: 334
      characters of CJK text or other three-byte characters are refused. */
  lemma WideMessageRefused(req: CreateMessageRequest)
    requires IsMessageType(req.messageType)
    requires |req.content| == 334 && forall i :: 0 <= i < |req.content| ==> req.content[i] as int >= 0x800
    ensures ValidMessage(req) == Err("Message too long. Maximum 1000 characters")
  {
    WideByteLen(req.content);
  }

  /** On ASCII text the byte limit is a limit of 1000 characters. */
  lemma AsciiLimit(req: CreateMessageRequest)
    requires IsMessageType(req.messageType) && Strs.IsAscii(req.content)
    ensures ValidMessage(req).Ok? <==> |req.content| <= MaxContentBytes
  {
    Strs.AsciiByteLen(req.content);
  }

  /** POST /messages. `body` is the JSON binding's outcome (match_id and
      content are required fields). */
  method SendMessage(db: Db, store: Cache.Store, caller: Option<Id>, body: Result<CreateMessageRequest>,
                     io: MessageService.SendIo)
    returns (reply: Reply<MessageWithSender>)
    requires db.Valid()
    modifies db`messages, db`nextMessageId, store`kv, store`ttl
    ensures db.Valid()
    ensures caller.None? ==> reply == Failure(StatusUnauthorized, NotAuthenticated)
    ensures caller.Some? && body.Err? ==> reply == Failure(StatusBadRequest, body.msg)
    ensures caller.Some? && body.Ok? && ValidMessage(body.value).Err? ==>
      reply == Failure(StatusBadRequest, ValidMessage(body.value).msg)
    ensures caller.None? || body.Err? || ValidMessage(body.value).Err? ==>
      db.messages == old(db.messages) && store.kv == old(store.kv)
    ensures reply.Success? <==> (caller.Some? && body.Ok? && ValidMessage(body.value).Ok? &&
      !io.checkFail && !io.createFail && !io.getFail &&
      SwipeRepository.UserInMatch(db.matches, caller.value, body.value.matchId))
    ensures reply.Success? ==> (reply.status == StatusCreated &&
      reply.body.message == MessageService.RequestedMessage(caller.value, ValidMessage(body.value).value)
                              .(id := old(db.nextMessageId)) &&
      db.messages == old(db.messages) + [reply.body.message])
    ensures reply.Failure? ==> reply.status in {StatusUnauthorized, StatusBadRequest}
  {
    if caller.None? {
      return Failure(StatusUnauthorized, NotAuthenticated);
    }
    if body.Err? {
      return Failure(StatusBadRequest, body.msg);
    }
    var req := ValidMessage(body.value);
    if req.Err? {
      return Failure(StatusBadRequest, req.msg);
    }
    if SwipeRepository.UserInMatch(db.matches, caller.value, req.value.matchId) {
      ValidatedIsSendable(db.users, db.matches, db.nextMatchId, caller.value, body.value);
    }
    var message := MessageService.SendMessage(db, store, caller.value, req.value, io);
    if message.Err? {
      return Failure(StatusBadRequest, message.msg);
    }
    reply := Success(StatusCreated, message.value);
  }

  // ------------------------------------------------- DELETE /messages/:id

  /** DELETE /messages/:id: only the sender's own message goes. */
  method DeleteMessage(db: Db, store: Cache.Store, caller: Option<Id>, idParam: string, io: MessageService.DeleteIo)
    returns (reply: Reply<string>)
    requires db.Valid()
    modifies db`messages, store`kv, store`ttl
    ensures db.Valid()
    ensures caller.None? ==> reply == Failure(StatusUnauthorized, NotAuthenticated)
    ensures caller.Some? && Strconv.ParseInt(idParam).None? ==> reply == Failure(StatusBadRequest, "Invalid message ID")
    ensures reply.Success? <==> (caller.Some? && Strconv.ParseInt(idParam).Some? && !io.getFail && !io.deleteFail &&
      FindMessage(old(db.messages), Strconv.ParseInt(idParam).value).Some? &&
      FindMessage(old(db.messages), Strconv.ParseInt(idParam).value).value.senderId == caller.value)
    ensures reply.Success? ==> (reply == Success(StatusOK, "Message deleted successfully") &&
      db.messages == MessageRepository.WithoutId(old(db.messages), Strconv.ParseInt(idParam).value))
    ensures reply.Failure? ==> reply.status in {StatusUnauthorized, StatusBadRequest} && db.messages == old(db.messages)
  {
    if caller.None? {
      return Failure(StatusUnauthorized, NotAuthenticated);
    }
    var messageId := Strconv.ParseInt(idParam);
    if messageId.None? {
      return Failure(StatusBadRequest, "Invalid message ID");
    }
    var outcome := MessageService.DeleteMessage(db, store, messageId.value, caller.value, io);
    if outcome.Fail? {
      return Failure(StatusBadRequest, outcome.msg);
    }
    reply := Success(StatusOK, "Message deleted successfully");
  }

  // ----------------------------------------------- participant-only reads

  /** The participant check shared by the latest-message, unread-count and
      typing routes: 500 with the repository's error, 403 for an outsider. */
  method CheckParticipant(db: Db, userId: Id, matchId: Id, fail: bool) returns (refusal: Option<(int, string)>)
    requires db.Valid()
    ensures fail ==> refusal == Some((StatusInternalServerError, "failed to check if user in match"))
    ensures !fail && !SwipeRepository.UserInMatch(db.matches, userId, matchId) ==>
      refusal == Some((StatusForbidden, "User not part of this match"))
    ensures refusal.None? <==> !fail && SwipeRepository.UserInMatch(db.matches, userId, matchId)
  {
    var inMatch := SwipeRepository.IsUserInMatch(db, userId, matchId, fail);
    if inMatch.Err? {
      return Some((StatusInternalServerError, inMatch.msg));
    }
    if !inMatch.value {
      return Some((StatusForbidden, "User not part of this match"));
    }
    refusal := None;
  }

  /** GET /messages/:match_id/latest: the newest message of the match, or
      null when it has none. */
  method GetLatestMessage(db: Db, caller: Option<Id>, idParam: string, checkFail: bool, getFail: bool)
    returns (reply: Reply<Option<MessageWithSender>>)
    requires db.Valid()
    ensures caller.None? ==> reply == Failure(StatusUnauthorized, NotAuthenticated)
    ensures caller.Some? && Strconv.ParseInt(idParam).None? ==> reply == Failure(StatusBadRequest, "Invalid match ID")
    ensures caller.Some? && Strconv.ParseInt(idParam).Some? && !checkFail &&
            !SwipeRepository.UserInMatch(db.matches, caller.value, Strconv.ParseInt(idParam).value) ==>
      reply == Failure(StatusForbidden, "User not part of this match")
    ensures reply.Success? <==> (caller.Some? && Strconv.ParseInt(idParam).Some? && !checkFail && !getFail &&
      SwipeRepository.UserInMatch(db.matches, caller.value, Strconv.ParseInt(idParam).value))
    ensures reply.Success? ==> (reply.status == StatusOK &&
      (reply.body.None? <==> History(db, Strconv.ParseInt(idParam).value) == []) &&
      (reply.body.Some? ==> (reply.body.value in History(db, Strconv.ParseInt(idParam).value) &&
        forall y :: y in History(db, Strconv.ParseInt(idParam).value) ==> y.message.id <= reply.body.value.message.id)))
    ensures caller.Some? && Strconv.ParseInt(idParam).Some? && !checkFail && getFail &&
            SwipeRepository.UserInMatch(db.matches, caller.value, Strconv.ParseInt(idParam).value) ==>
      reply == Failure(StatusInternalServerError, "failed to get latest message")
  {
    if caller.None? {
      return Failure(StatusUnauthorized, NotAuthenticated);
    }
    var matchId := Strconv.ParseInt(idParam);
    if matchId.None? {
      return Failure(StatusBadRequest, "Invalid match ID");
    }
    var refusal := CheckParticipant(db, caller.value, matchId.value, checkFail);
    if refusal.Some? {
      return Failure(refusal.value.0, refusal.value.1);
    }
    var latest := MessageRepository.GetLatestMessageByMatchID(db, matchId.value, getFail);
    if latest.Err? {
      return Failure(StatusInternalServerError, latest.msg);
    }
    if latest.value.None? {
      assert History(db, matchId.value) == [];
    } else {
      assert latest.value.value in History(db, matchId.value);
    }
    reply := Success(StatusOK, latest.value);
  }

  /** GET /messages/:match_id/unread-count: the messages of the match the
      caller did not send. */
  method GetUnreadCount(db: Db, caller: Option<Id>, idParam: string, checkFail: bool, countFail: bool)
    returns (reply: Reply<nat>)
    requires db.Valid()
    ensures caller.None? ==> reply == Failure(StatusUnauthorized, NotAuthenticated)
    ensures caller.Some? && Strconv.ParseInt(idParam).None? ==> reply == Failure(StatusBadRequest, "Invalid match ID")
    ensures caller.Some? && Strconv.ParseInt(idParam).Some? && !checkFail &&
            !SwipeRepository.UserInMatch(db.matches, caller.value, Strconv.ParseInt(idParam).value) ==>
      reply == Failure(StatusForbidden, "User not part of this match")
    ensures reply.Success? <==> (caller.Some? && Strconv.ParseInt(idParam).Some? && !checkFail && !countFail &&
      SwipeRepository.UserInMatch(db.matches, caller.value, Strconv.ParseInt(idParam).value))
    ensures reply.Success? ==> (reply.status == StatusOK &&
      reply.body == MessageRepository.CountInMatch(db.messages, Strconv.ParseInt(idParam).value) -
                    MessageRepository.CountSentBy(db.messages, Strconv.ParseInt(idParam).value, caller.value))
    ensures caller.Some? && Strconv.ParseInt(idParam).Some? && !checkFail && countFail &&
            SwipeRepository.UserInMatch(db.matches, caller.value, Strconv.ParseInt(idParam).value) ==>
      reply == Failure(StatusInternalServerError, "failed to get unread count")
  {
    if caller.None? {
      return Failure(StatusUnauthorized, NotAuthenticated);
    }
    var matchId := Strconv.ParseInt(idParam);
    if matchId.None? {
      return Failure(StatusBadRequest, "Invalid match ID");
    }
    var refusal := CheckParticipant(db, caller.value, matchId.value, checkFail);
    if refusal.Some? {
      return Failure(refusal.value.0, refusal.value.1);
    }
    var count := MessageRepository.GetUnreadCount(db, caller.value, matchId.value, countFail);
    if count.Err? {
      return Failure(StatusInternalServerError, count.msg);
    }
    reply := Success(StatusOK, count.value);
  }

  /** The body of POST /messages/typing as bound (match_id is required, so
      a zero id is a binding error). */
  datatype TypingBody = TypingBody(matchId: Id, isTyping: bool)

  /** POST /messages/typing: after the participant check the service only
      logs the indicator, so the route answers without sending anything. */
  method SendTypingIndicator(db: Db, caller: Option<Id>, body: Result<TypingBody>, checkFail: bool)
    returns (reply: Reply<string>)
    requires db.Valid()
    ensures caller.None? ==> reply == Failure(StatusUnauthorized, NotAuthenticated)
    ensures caller.Some? && body.Err? ==> reply == Failure(StatusBadRequest, body.msg)
    ensures caller.Some? && body.Ok? && checkFail ==>
      reply == Failure(StatusInternalServerError, "failed to check if user in match")
    ensures caller.Some? && body.Ok? && !checkFail &&
            !SwipeRepository.UserInMatch(db.matches, caller.value, body.value.matchId) ==>
      reply == Failure(StatusForbidden, "User not part of this match")
    ensures reply.Success? <==> (caller.Some? && body.Ok? && !checkFail &&
      SwipeRepository.UserInMatch(db.matches, caller.value, body.value.matchId))
    ensures reply.Success? ==> reply == Success(StatusOK, "Typing indicator sent")
  {
    if caller.None? {
      return Failure(StatusUnauthorized, NotAuthenticated);
    }
    if body.Err? {
      return Failure(StatusBadRequest, body.msg);
    }
    var refusal := CheckParticipant(db, caller.value, body.value.matchId, checkFail);
    if refusal.Some? {
      return Failure(refusal.value.0, refusal.value.1);
    }
    reply := Success(StatusOK, "Typing indicator sent");
  }
}
