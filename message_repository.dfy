/** MessageRepository (internal/repository/message_repository.go): the
    queries on the messages table. Listing queries join each message with its
    sender's name and return rows newest first, which in the model is the
    reverse of insertion order. */
module MessageRepository {
  import opened Wrappers
  import opened Models
  import opened Database

  // -------------------------------------------------------------- insert

  method Create(db: Db, msg: Message, fail: bool) returns (r: Result<Message>)
    requires db.Valid()
    modifies db`messages, db`nextMessageId
    ensures db.Valid()
    ensures r.Ok? <==> !fail && MessageRowOk(msg, MatchIdSet(db.matches), UserIdSet(db.users))
    ensures r.Ok? ==> r.value == msg.(id := old(db.nextMessageId))
    ensures r.Ok? ==> db.messages == old(db.messages) + [r.value] && db.nextMessageId == old(db.nextMessageId) + 1
    ensures r.Err? ==> r.msg == "failed to create message" && db.messages == old(db.messages) && db.nextMessageId == old(db.nextMessageId)
  {
    if fail || !MessageRowOk(msg, MatchIdSet(db.matches), UserIdSet(db.users)) {
      return Err("failed to create message");
    }
    var row := msg.(id := db.nextMessageId);
    MessagesAppend(db.messages, db.nextMessageId, MatchIdSet(db.matches), UserIdSet(db.users), row);
    db.messages := db.messages + [row];
    db.nextMessageId := db.nextMessageId + 1;
    r := Ok(row);
  }

  // ---------------------------------------------------------- selections

  /** The WHERE clause of a listing: one match's messages, or the messages
      of every match the user takes part in. */
  datatype Selector = OfMatch(matchId: Id) | OfUser(userId: Id)

  /** The row passes the WHERE clause and the inner JOINs. */
  predicate Selected(users: seq<User>, matches: seq<Match>, sel: Selector, m: Message) {
    FindUser(users, m.senderId).Some? &&
    match sel
    case OfMatch(id) => m.matchId == id
    case OfUser(u) => FindMatch(matches, m.matchId).Some? && InMatch(FindMatch(matches, m.matchId).value, u)
  }

  function Joined(users: seq<User>, m: Message): (x: MessageWithSender)
    requires FindUser(users, m.senderId).Some?
    ensures x.message == m
  {
    MessageWithSender(m, FindUser(users, m.senderId).value.name)
  }

  /** The selected rows, joined and newest first. */
  function NewestFirst(users: seq<User>, matches: seq<Match>, t: seq<Message>, sel: Selector): seq<MessageWithSender> {
    if t == [] then []
    else NewestFirst(users, matches, t[1..], sel) +
         (if Selected(users, matches, sel, t[0]) then [Joined(users, t[0])] else [])
  }

  /** LIMIT limit OFFSET offset. */
  function Page<T>(s: seq<T>, offset: nat, limit: nat): (p: seq<T>)
    ensures |p| <= limit
    ensures |p| == if offset >= |s| then 0 else if |s| - offset < limit then |s| - offset else limit
    ensures forall k :: 0 <= k < |p| ==> p[k] == s[offset + k]
  {
    var lo := if offset < |s| then offset else |s|;
    var hi := if offset + limit < |s| then offset + limit else |s|;
    s[lo..hi]
  }

  /** A listing holds exactly the selected rows, each with its sender's name. */
  lemma {:induction false} NewestFirstMembers(users: seq<User>, matches: seq<Match>, t: seq<Message>, sel: Selector, x: MessageWithSender)
    ensures x in NewestFirst(users, matches, t, sel) <==>
      x.message in t && Selected(users, matches, sel, x.message) && x == Joined(users, x.message)
  {
    if t != [] {
      NewestFirstMembers(users, matches, t[1..], sel, x);
      assert t == [t[0]] + t[1..];
    }
  }

  /** A listing never holds more rows than the table. */
  lemma {:induction false} NewestFirstLength(users: seq<User>, matches: seq<Match>, t: seq<Message>, sel: Selector)
    ensures |NewestFirst(users, matches, t, sel)| <= |t|
  {
    if t != [] {
      NewestFirstLength(users, matches, t[1..], sel);
    }
  }

  predicate IdsDescending(r: seq<MessageWithSender>) {
    forall i, j :: 0 <= i < j < |r| ==> r[i].message.id > r[j].message.id
  }

  /** A listing is newest first: message ids strictly decrease along it. */
  lemma {:induction false} NewestFirstOrdered(users: seq<User>, matches: seq<Match>, t: seq<Message>, next: Id, sel: Selector)
    requires MessageIdsOk(t, next)
    ensures IdsDescending(NewestFirst(users, matches, t, sel))
  {
    if t != [] {
      var rest := NewestFirst(users, matches, t[1..], sel);
      NewestFirstOrdered(users, matches, t[1..], next, sel);
      if Selected(users, matches, sel, t[0]) {
        forall x | x in rest ensures x.message.id > t[0].id {
          NewestFirstMembers(users, matches, t[1..], sel, x);
          var k :| 0 <= k < |t[1..]| && t[1..][k] == x.message;
          assert t[k + 1] == x.message;
        }
        var r := rest + [Joined(users, t[0])];
        assert r == NewestFirst(users, matches, t, sel);
        forall i, j | 0 <= i < j < |r| ensures r[i].message.id > r[j].message.id {
          assert r[i] == rest[i];
          if j == |rest| {
            assert r[j].message == t[0];
            assert rest[i] in rest;
          } else {
            assert r[j] == rest[j];
          }
        }
      }
    }
  }

  /** The loop shared by the paged listings: walk the table from its newest
      row, skip `offset` selected rows and collect up to `limit` more. */
  method SelectPage(db: Db, sel: Selector, limit: nat, offset: nat) returns (out: seq<MessageWithSender>)
    ensures out == Page(NewestFirst(db.users, db.matches, db.messages, sel), offset, limit)
  {
    var t := db.messages;
    out := [];
    var skipped := 0;
    var i := |t|;
    while i > 0
      invariant 0 <= i <= |t|
      invariant skipped == if |NewestFirst(db.users, db.matches, t[i..], sel)| < offset
                           then |NewestFirst(db.users, db.matches, t[i..], sel)| else offset
      invariant out == Page(NewestFirst(db.users, db.matches, t[i..], sel), offset, limit)
    {
      ghost var all := NewestFirst(db.users, db.matches, t[i..], sel);
      i := i - 1;
      assert t[i..][1..] == t[i + 1..];
      if Selected(db.users, db.matches, sel, t[i]) {
        var x := Joined(db.users, t[i]);
        assert NewestFirst(db.users, db.matches, t[i..], sel) == all + [x];
        if skipped < offset {
          skipped := skipped + 1;
        } else if |out| < limit {
          out := out + [x];
        }
      }
    }
    assert t[0..] == t;
  }

  method GetByMatchID(db: Db, matchId: Id, limit: int, offset: int, fail: bool)
    returns (r: Result<seq<MessageWithSender>>)
    ensures r.Ok? <==> !fail && limit >= 0 && offset >= 0
    ensures r.Ok? ==> r.value == Page(NewestFirst(db.users, db.matches, db.messages, OfMatch(matchId)), offset, limit)
  {
    if fail || limit < 0 || offset < 0 {
      return Err("failed to get messages");
    }
    var page := SelectPage(db, OfMatch(matchId), limit, offset);
    r := Ok(page);
  }

  /** GetMessagesByUserID: the messages of every match the user is user1 or
      user2 of, newest first, paged. */
  method GetMessagesByUserID(db: Db, userId: Id, limit: int, offset: int, fail: bool)
    returns (r: Result<seq<MessageWithSender>>)
    ensures r.Ok? <==> !fail && limit >= 0 && offset >= 0
    ensures r.Ok? ==> r.value == Page(NewestFirst(db.users, db.matches, db.messages, OfUser(userId)), offset, limit)
  {
    if fail || limit < 0 || offset < 0 {
      return Err("failed to get messages by user");
    }
    var page := SelectPage(db, OfUser(userId), limit, offset);
    r := Ok(page);
  }

  /** Every message of a page is selected: one match's messages for
      GetByMatchID, messages of the user's own matches for
      GetMessagesByUserID. */
  lemma PageSelected(users: seq<User>, matches: seq<Match>, t: seq<Message>, sel: Selector, offset: nat, limit: nat, x: MessageWithSender)
    requires x in Page(NewestFirst(users, matches, t, sel), offset, limit)
    ensures x.message in t && Selected(users, matches, sel, x.message)
  {
    var p := Page(NewestFirst(users, matches, t, sel), offset, limit);
    var k :| 0 <= k < |p| && p[k] == x;
    NewestFirstMembers(users, matches, t, sel, x);
  }

  /** GetLatestMessageByMatchID: the newest message of the match, absent
      when the match has none. */
  method GetLatestMessageByMatchID(db: Db, matchId: Id, fail: bool) returns (r: Result<Option<MessageWithSender>>)
    requires db.Valid()
    ensures fail ==> r == Err("failed to get latest message")
    ensures r.Ok? <==> !fail
    ensures r.Ok? && r.value.None? ==> NewestFirst(db.users, db.matches, db.messages, OfMatch(matchId)) == []
    ensures r.Ok? && r.value.Some? ==>
      var x := r.value.value;
      x in NewestFirst(db.users, db.matches, db.messages, OfMatch(matchId)) &&
      x.message.matchId == matchId &&
      forall y :: y in NewestFirst(db.users, db.matches, db.messages, OfMatch(matchId)) ==> y.message.id <= x.message.id
  {
    if fail {
      return Err("failed to get latest message");
    }
    var all := NewestFirst(db.users, db.matches, db.messages, OfMatch(matchId));
    if |all| == 0 {
      return Ok(None);
    }
    NewestFirstOrdered(db.users, db.matches, db.messages, db.nextMessageId, OfMatch(matchId));
    NewestFirstMembers(db.users, db.matches, db.messages, OfMatch(matchId), all[0]);
    r := Ok(Some(all[0]));
  }

  // ------------------------------------------------------------- counting

  /** Messages of the match. */
  function CountInMatch(t: seq<Message>, matchId: Id): nat {
    if t == [] then 0 else (if t[0].matchId == matchId then 1 else 0) + CountInMatch(t[1..], matchId)
  }

  /** Messages of the match sent by the given user. */
  function CountSentBy(t: seq<Message>, matchId: Id, senderId: Id): nat {
    if t == [] then 0
    else (if t[0].matchId == matchId && t[0].senderId == senderId then 1 else 0) + CountSentBy(t[1..], matchId, senderId)
  }

  /** `match_id = ? AND sender_id != ?`. */
  function UnreadCount(t: seq<Message>, matchId: Id, userId: Id): nat {
    if t == [] then 0
    else (if t[0].matchId == matchId && t[0].senderId != userId then 1 else 0) + UnreadCount(t[1..], matchId, userId)
  }

  /** The unread count is the match's messages minus the caller's own. */
  lemma {:induction false} UnreadCountSplit(t: seq<Message>, matchId: Id, userId: Id)
    ensures UnreadCount(t, matchId, userId) + CountSentBy(t, matchId, userId) == CountInMatch(t, matchId)
  {
    if t != [] {
      UnreadCountSplit(t[1..], matchId, userId);
    }
  }

  method GetUnreadCount(db: Db, userId: Id, matchId: Id, fail: bool) returns (r: Result<nat>)
    ensures fail ==> r == Err("failed to get unread count")
    ensures r.Ok? <==> !fail
    ensures r.Ok? ==> r.value == CountInMatch(db.messages, matchId) - CountSentBy(db.messages, matchId, userId)
  {
    if fail {
      return Err("failed to get unread count");
    }
    UnreadCountSplit(db.messages, matchId, userId);
    r := Ok(UnreadCount(db.messages, matchId, userId));
  }

  // -------------------------------------------------------- lookup, delete

  method GetByID(db: Db, messageId: Id, fail: bool) returns (r: Result<Option<Message>>)
    ensures r.Ok? <==> !fail
    ensures r.Ok? && r.value.Some? ==> r.value.value in db.messages && r.value.value.id == messageId
    ensures r.Ok? && r.value.None? ==> forall m :: m in db.messages ==> m.id != messageId
  {
    if fail {
      return Err("failed to get message");
    }
    r := Ok(FindMessage(db.messages, messageId));
  }

  /** The table without the rows carrying that id, order kept. */
  function WithoutId(t: seq<Message>, id: Id): (r: seq<Message>)
    ensures |r| <= |t|
  {
    if t == [] then [] else (if t[0].id == id then [] else [t[0]]) + WithoutId(t[1..], id)
  }

  /** DELETE touches only rows with that id: every other row stays. */
  lemma {:induction false} WithoutIdMembers(t: seq<Message>, id: Id, m: Message)
    ensures m in WithoutId(t, id) <==> m in t && m.id != id
  {
    if t != [] {
      WithoutIdMembers(t[1..], id, m);
      assert t == [t[0]] + t[1..];
    }
  }

  /** Deleting an id no row carries changes nothing. */
  lemma {:induction false} WithoutAbsentId(t: seq<Message>, id: Id)
    requires forall m :: m in t ==> m.id != id
    ensures WithoutId(t, id) == t
  {
    if t != [] {
      assert t[0] in t;
      assert forall m :: m in t[1..] ==> m in t;
      WithoutAbsentId(t[1..], id);
      assert t == [t[0]] + t[1..];
    }
  }

  /** Deleting keeps the table's constraints. */
  lemma {:induction false} WithoutIdOk(t: seq<Message>, next: Id, matchIds: set<Id>, userIds: set<Id>, id: Id)
    requires MessagesOk(t, next, matchIds, userIds)
    ensures MessagesOk(WithoutId(t, id), next, matchIds, userIds)
  {
    if t != [] {
      var rest := t[1..];
      assert MessagesOk(rest, next, matchIds, userIds) by {
        forall i, j | 0 <= i < j < |rest| ensures rest[i].id < rest[j].id {
          assert rest[i] == t[i + 1] && rest[j] == t[j + 1];
        }
      }
      WithoutIdOk(rest, next, matchIds, userIds, id);
      var w := WithoutId(rest, id);
      if t[0].id != id {
        forall m | m in w ensures t[0].id < m.id {
          WithoutIdMembers(rest, id, m);
          var k :| 0 <= k < |rest| && rest[k] == m;
          assert t[k + 1] == m;
        }
        var r := [t[0]] + w;
        assert r == WithoutId(t, id);
        forall i, j | 0 <= i < j < |r| ensures r[i].id < r[j].id {
          assert r[j] == w[j - 1];
          if i == 0 {
            assert w[j - 1] in w;
          } else {
            assert r[i] == w[i - 1];
          }
        }
        forall i | 0 <= i < |r| ensures 0 < r[i].id < next && MessageRowOk(r[i], matchIds, userIds) {
          if i > 0 {
            assert r[i] == w[i - 1];
          }
        }
      }
    }
  }

  method DeleteByID(db: Db, messageId: Id, fail: bool) returns (ok: bool)
    requires db.Valid()
    modifies db`messages
    ensures db.Valid()
    ensures ok == !fail
    ensures ok ==> db.messages == WithoutId(old(db.messages), messageId)
    ensures !ok ==> db.messages == old(db.messages)
  {
    if fail {
      return false;
    }
    WithoutIdOk(db.messages, db.nextMessageId, MatchIdSet(db.matches), UserIdSet(db.users), messageId);
    db.messages := WithoutId(db.messages, messageId);
    ok := true;
  }
}
