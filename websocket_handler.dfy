/** WebSocketHandler (internal/handler/websocket_handler.go): the registry
    of live connections per user, the fanout of chat, typing and match events
    to every connection of the recipients, the payload checks of incoming
    frames and the lifecycle of one connection.

    Connections are opaque identities. A write to a connection fails exactly
    when the connection is in the `dead` set the environment supplies. The
    handler removes a connection whose write failed from a goroutine that
    waits for the broadcast's read lock; the model performs those removals
    right after the send loop. */
module WebSocketHandler {
  import opened Wrappers
  import opened Models
  import opened Database
  import Cache
  import Strconv
  import SwipeRepository
  import MessageService

  type Conn = nat

  /** One frame written to one connection. */
  datatype Write = Write(conn: Conn, event: Event)

  type Registry = map<Id, set<Conn>>

  // ------------------------------------------------------------- registry

  /** The connections registered for a user; none when it has no entry. */
  function Conns(cl: Registry, u: Id): set<Conn> {
    if u in cl then cl[u] else {}
  }

  /** No user maps to an empty set of connections. */
  predicate NoEmptySets(cl: Registry) {
    forall u :: u in cl ==> cl[u] != {}
  }

  /** registerClient: create the user's set on first use and add the
      connection. */
  function Registered(cl: Registry, u: Id, c: Conn): (r: Registry)
    ensures Conns(r, u) == Conns(cl, u) + {c}
    ensures forall v :: v != u ==> Conns(r, v) == Conns(cl, v)
    ensures NoEmptySets(cl) ==> NoEmptySets(r)
  {
    cl[u := Conns(cl, u) + {c}]
  }

  /** unregisterClient: remove the connection, and the user's entry once its
      set is empty. */
  function Unregistered(cl: Registry, u: Id, c: Conn): (r: Registry)
    ensures Conns(r, u) == Conns(cl, u) - {c}
    ensures forall v :: v != u ==> Conns(r, v) == Conns(cl, v)
    ensures NoEmptySets(cl) ==> NoEmptySets(r)
    ensures u in r ==> u in cl && r[u] != {}
  {
    if u !in cl then cl
    else if cl[u] - {c} == {} then cl - {u}
    else cl[u := cl[u] - {c}]
  }

  /** Registering a connection that is already registered changes nothing. */
  lemma RegisterTwice(cl: Registry, u: Id, c: Conn)
    requires c in Conns(cl, u)
    ensures Registered(cl, u, c) == cl
  {
    assert Conns(cl, u) + {c} == cl[u];
  }

  /** Unregistering an unknown user, or a connection the user does not
      have, changes nothing. */
  lemma UnregisterUnknown(cl: Registry, u: Id, c: Conn)
    requires NoEmptySets(cl) && c !in Conns(cl, u)
    ensures Unregistered(cl, u, c) == cl
  {
    if u in cl {
      assert cl[u] - {c} == cl[u];
    }
  }

  /** Unregistering undoes registering a new connection. */
  lemma RegisterThenUnregister(cl: Registry, u: Id, c: Conn)
    requires NoEmptySets(cl) && c !in Conns(cl, u)
    ensures Unregistered(Registered(cl, u, c), u, c) == cl
  {
    var r := Unregistered(Registered(cl, u, c), u, c);
    assert forall v :: v in r <==> v in cl;
    forall v | v in r ensures r[v] == cl[v] {
      assert Conns(r, v) == Conns(cl, v);
    }
  }

  /** The registry after removing every connection of `failed` from the
      user. */
  function UnregisteredAll(cl: Registry, u: Id, failed: set<Conn>): (r: Registry)
    ensures Conns(r, u) == Conns(cl, u) - failed
    ensures forall v :: v != u ==> Conns(r, v) == Conns(cl, v)
    ensures NoEmptySets(cl) ==> NoEmptySets(r)
    ensures Shrunk(cl, r)
  {
    if u !in cl then cl
    else if cl[u] - failed == {} then cl - {u}
    else cl[u := cl[u] - failed]
  }

  /** Removing failed connections one at a time removes them all. */
  lemma UnregisterOneMore(cl: Registry, u: Id, done: set<Conn>, c: Conn)
    requires NoEmptySets(cl)
    ensures Unregistered(UnregisteredAll(cl, u, done), u, c) == UnregisteredAll(cl, u, done + {c})
  {
    var a := Unregistered(UnregisteredAll(cl, u, done), u, c);
    var b := UnregisteredAll(cl, u, done + {c});
    assert Conns(a, u) == Conns(b, u);
    assert forall v :: v in a <==> v in b;
    forall v | v in a ensures a[v] == b[v] {
      assert Conns(a, v) == Conns(b, v);
    }
  }

  /** Every user left in `after` was in `before`, with no more connections. */
  ghost predicate Shrunk(before: Registry, after: Registry) {
    forall u :: u in after ==> u in before && after[u] <= before[u]
  }

  /** Every connection outside `dead` is still registered for its user. */
  ghost predicate KeepsLive(before: Registry, after: Registry, dead: set<Conn>) {
    forall u, c :: c in Conns(before, u) && c !in dead ==> c in Conns(after, u)
  }

  /** Two rounds that each remove only failed connections remove only failed
      connections. */
  lemma ShrunkTrans(a: Registry, b: Registry, c: Registry, dead: set<Conn>)
    requires Shrunk(a, b) && Shrunk(b, c) && KeepsLive(a, b, dead) && KeepsLive(b, c, dead)
    ensures Shrunk(a, c) && KeepsLive(a, c, dead)
  {
  }

  /** Removing only failed connections keeps every connection whose writes
      succeed, for every user. */
  lemma UnregisteredAllKeepsLive(cl: Registry, u: Id, failed: set<Conn>, dead: set<Conn>)
    requires failed <= dead
    ensures KeepsLive(cl, UnregisteredAll(cl, u, failed), dead)
  {
    var r := UnregisteredAll(cl, u, failed);
    forall v, c | c in Conns(cl, v) && c !in dead ensures c in Conns(r, v) {
      if v != u {
        assert Conns(r, v) == Conns(cl, v);
      }
    }
  }

  // -------------------------------------------------------------- fanout

  /** `after` is `before` followed by more writes. */
  ghost predicate Extends(before: seq<Write>, after: seq<Write>) {
    |before| <= |after| && after[..|before|] == before
  }

  /** Appending twice is appending. */
  lemma ExtendsTrans(a: seq<Write>, b: seq<Write>, c: seq<Write>)
    requires Extends(a, b) && Extends(b, c)
    ensures Extends(a, c)
  {
    assert c[..|a|] == c[..|b|][..|a|];
  }

  /** The connections a run of writes reached. */
  function WrittenTo(w: seq<Write>): set<Conn> {
    set i | 0 <= i < |w| :: w[i].conn
  }

  /** One write of `e` to each connection of `targets`, and to nothing else. */
  predicate OnceEach(w: seq<Write>, targets: set<Conn>, e: Event) {
    WrittenTo(w) == targets &&
    (forall i, j :: 0 <= i < j < |w| ==> w[i].conn != w[j].conn) &&
    (forall i :: 0 <= i < |w| ==> w[i].event == e)
  }

  /** A broadcast makes exactly as many writes as the user has connections. */
  lemma {:induction false} OnceEachCount(w: seq<Write>, targets: set<Conn>, e: Event)
    requires OnceEach(w, targets, e)
    ensures |w| == |targets|
    decreases |w|
  {
    if w != [] {
      var last := w[|w| - 1];
      var init := w[..|w| - 1];
      assert forall i :: 0 <= i < |init| ==> init[i] == w[i];
      assert WrittenTo(w) == WrittenTo(init) + {last.conn};
      assert last.conn !in WrittenTo(init);
      assert OnceEach(init, targets - {last.conn}, e);
      OnceEachCount(init, targets - {last.conn}, e);
    }
  }

  /** What broadcastToMatch does with the lookup's outcome: nothing when the
      lookup fails or finds no match; otherwise every connection of user1,
      then every connection of user2, gets the event once, and the
      connections whose write failed are removed. */
  predicate Delivered(w1: seq<Write>, w2: seq<Write>, before: Registry, after: Registry,
                      matches: seq<Match>, matchId: Id, e: Event, lookupFail: bool, dead: set<Conn>)
  {
    if lookupFail || FindMatch(matches, matchId).None? then w1 == [] && w2 == [] && after == before
    else
      var m := FindMatch(matches, matchId).value;
      OnceEach(w1, Conns(before, m.user1Id), e) && OnceEach(w2, Conns(before, m.user2Id), e) &&
      after == UnregisteredAll(UnregisteredAll(before, m.user1Id, Conns(before, m.user1Id) * dead),
                               m.user2Id, Conns(before, m.user2Id) * dead)
  }

  // ------------------------------------------------------- payload checks

  /** The message a chat frame asks to post: the payload must be an object
      whose "content" is a non-empty string; "message_type" is taken as
      given when it is a string and defaults to "text" otherwise; no media. */
  function ChatRequest(matchId: Id, payload: Json): (r: Option<CreateMessageRequest>)
    ensures r.Some? <==> payload.JObject? && "content" in payload.fields &&
                         payload.fields["content"].JString? && payload.fields["content"].s != ""
    ensures r.Some? ==> r.value.matchId == matchId && r.value.content == payload.fields["content"].s &&
                        r.value.mediaUrl.None?
    ensures r.Some? && !("message_type" in payload.fields && payload.fields["message_type"].JString?) ==>
      r.value.messageType == TextType
    ensures r.Some? && "message_type" in payload.fields && payload.fields["message_type"].JString? ==>
      r.value.messageType == payload.fields["message_type"].s
  {
    if !payload.JObject? then None
    else if "content" !in payload.fields || !payload.fields["content"].JString? then None
    else if payload.fields["content"].s == "" then None
    else
      var messageType :=
        if "message_type" in payload.fields && payload.fields["message_type"].JString?
        then payload.fields["message_type"].s else TextType;
      Some(CreateMessageRequest(matchId, payload.fields["content"].s, messageType, None))
  }

  /** The chat path does not check the message type: any string passes the
      payload check, and only the messages table's ENUM column refuses a
      type other than text, image or audio, so such a frame stores and
      broadcasts nothing. */
  lemma ChatTypeUnchecked(users: seq<User>, matches: seq<Match>, senderId: Id, matchId: Id, content: string, t: string)
    requires content != ""
    ensures var req := ChatRequest(matchId, JObject(map["content" := JString(content), "message_type" := JString(t)]));
      req.Some? && req.value.messageType == t &&
      (!IsMessageType(t) ==> !MessageService.Sendable(users, matches, senderId, req.value))
  {
    var p := JObject(map["content" := JString(content), "message_type" := JString(t)]);
    assert "content" in p.fields && "message_type" in p.fields;
  }

  /** The typing flag of a typing frame: the payload must be an object whose
      "is_typing" is a boolean. */
  function TypingFlag(payload: Json): (r: Option<bool>)
    ensures r.Some? <==> payload.JObject? && "is_typing" in payload.fields && payload.fields["is_typing"].JBool?
    ensures r.Some? ==> r.value == payload.fields["is_typing"].b
  {
    if payload.JObject? && "is_typing" in payload.fields && payload.fields["is_typing"].JBool?
    then Some(payload.fields["is_typing"].b) else None
  }

  /** The event a stored message is broadcast as. */
  function ChatEventOf(m: Message): (e: Event)
    ensures e.ChatEvent? && e.matchId == m.matchId && e.senderId == m.senderId
    ensures e.content == m.content && e.messageType == m.messageType && e.mediaUrl == m.mediaUrl
  {
    ChatEvent(m.matchId, m.senderId, m.content, m.messageType, m.mediaUrl)
  }

  // ------------------------------------------------------------ handshake

  /** The reply of HandleWebSocket before the upgrade, or what happened to
      the upgraded connection. */
  datatype Reply = Status(code: int, error: string) | UpgradeFailed | Served

  /** The query checks of HandleWebSocket: both ids are required and must
      parse as 64-bit integers. */
  function ParseQuery(userIdStr: string, matchIdStr: string): (r: Result<(Id, Id)>)
    ensures userIdStr == "" ==> r == Err("user_id is required")
    ensures userIdStr != "" && Strconv.ParseInt(userIdStr).None? ==> r == Err("Invalid user_id")
    ensures Strconv.ParseInt(userIdStr).Some? && matchIdStr == "" ==> r == Err("match_id is required")
    ensures Strconv.ParseInt(userIdStr).Some? && matchIdStr != "" && Strconv.ParseInt(matchIdStr).None? ==>
      r == Err("Invalid match_id")
    ensures r.Ok? <==> Strconv.ParseInt(userIdStr).Some? && Strconv.ParseInt(matchIdStr).Some?
    ensures r.Ok? ==> r.value == (Strconv.ParseInt(userIdStr).value, Strconv.ParseInt(matchIdStr).value)
  {
    if userIdStr == "" then Err("user_id is required")
    else if Strconv.ParseInt(userIdStr).None? then Err("Invalid user_id")
    else if matchIdStr == "" then Err("match_id is required")
    else if Strconv.ParseInt(matchIdStr).None? then Err("Invalid match_id")
    else Ok((Strconv.ParseInt(userIdStr).value, Strconv.ParseInt(matchIdStr).value))
  }

  /** The failures one incoming frame meets: those of SendMessage and of the
      broadcast's match lookup. */
  datatype FrameIo = FrameIo(send: MessageService.SendIo, lookupFail: bool)

  /** A frame read from the connection, with its environment. */
  datatype Incoming = Incoming(frame: Frame, io: FrameIo)

  /** The environment of one connection: the participant check, the
      upgrade, the presence updates and the connections whose writes fail. */
  datatype SessionIo = SessionIo(checkFail: bool, upgradeFail: bool, onlineFail: bool, offlineFail: bool,
                                 dead: set<Conn>)

  // -------------------------------------------------------- frame effects

  /** A chat frame whose message reaches the messages table: the payload
      passes and the service's participant check and insert succeed (a
      failed re-read afterwards does not undo the row). */
  predicate ChatStored(users: seq<User>, matches: seq<Match>, userId: Id, matchId: Id, payload: Json,
                       io: MessageService.SendIo)
  {
    ChatRequest(matchId, payload).Some? &&
    MessageService.Inserted(users, matches, userId, ChatRequest(matchId, payload).value, io)
  }

  /** The row such a frame stores, with the id the table gives it. */
  function ChatMessage(userId: Id, matchId: Id, payload: Json, id: Id): (m: Message)
    requires ChatRequest(matchId, payload).Some?
    ensures m.id == id && m.matchId == matchId && m.senderId == userId
    ensures m.content == payload.fields["content"].s && m.mediaUrl.None?
  {
    MessageService.RequestedMessage(userId, ChatRequest(matchId, payload).value).(id := id)
  }

  /** The incoming frame is a chat frame that stores its message. */
  predicate FrameStores(users: seq<User>, matches: seq<Match>, userId: Id, matchId: Id, f: Incoming) {
    f.frame.kind == ChatKind && ChatStored(users, matches, userId, matchId, f.frame.payload, f.io.send)
  }

  /** The rows one frame adds to the messages table when the next free id
      is `id`. */
  function FrameRows(users: seq<User>, matches: seq<Match>, userId: Id, matchId: Id, f: Incoming, id: Id): seq<Message> {
    if FrameStores(users, matches, userId, matchId, f) then [ChatMessage(userId, matchId, f.frame.payload, id)] else []
  }

  /** The messages a run of frames stores, in order, their ids counting up
      from nextId. */
  function StoredFrames(users: seq<User>, matches: seq<Match>, userId: Id, matchId: Id,
                        frames: seq<Incoming>, nextId: Id): (r: seq<Message>)
    ensures |r| <= |frames|
  {
    if frames == [] then []
    else
      var rows := FrameRows(users, matches, userId, matchId, frames[0], nextId);
      rows + StoredFrames(users, matches, userId, matchId, frames[1..], nextId + |rows|)
  }

  /** The frames from i on store frame i's rows, then those of the rest. */
  lemma StoredFramesFrom(users: seq<User>, matches: seq<Match>, userId: Id, matchId: Id,
                         frames: seq<Incoming>, i: nat, nextId: Id)
    requires i < |frames|
    ensures var rows := FrameRows(users, matches, userId, matchId, frames[i], nextId);
      StoredFrames(users, matches, userId, matchId, frames[i..], nextId) ==
        rows + StoredFrames(users, matches, userId, matchId, frames[i + 1..], nextId + |rows|)
  {
    assert frames[i..][0] == frames[i];
    assert frames[i..][1..] == frames[i + 1..];
  }

  /** Every message a connection's frames store comes from that connection's
      user, belongs to its match, has the next free id, and is only stored
      because the user takes part in the match. */
  lemma {:induction false} StoredFramesFromSession(users: seq<User>, matches: seq<Match>, userId: Id, matchId: Id,
                                                   frames: seq<Incoming>, nextId: Id)
    ensures forall k :: 0 <= k < |StoredFrames(users, matches, userId, matchId, frames, nextId)| ==>
      StoredFrames(users, matches, userId, matchId, frames, nextId)[k].id == nextId + k &&
      StoredFrames(users, matches, userId, matchId, frames, nextId)[k].senderId == userId &&
      StoredFrames(users, matches, userId, matchId, frames, nextId)[k].matchId == matchId
    ensures StoredFrames(users, matches, userId, matchId, frames, nextId) != [] ==>
      SwipeRepository.UserInMatch(matches, userId, matchId)
  {
    if frames != [] {
      var f := frames[0];
      var rows := FrameRows(users, matches, userId, matchId, f, nextId);
      var rest := StoredFrames(users, matches, userId, matchId, frames[1..], nextId + |rows|);
      StoredFramesFromSession(users, matches, userId, matchId, frames[1..], nextId + |rows|);
      var r := StoredFrames(users, matches, userId, matchId, frames, nextId);
      assert r == rows + rest;
      if FrameStores(users, matches, userId, matchId, f) {
        var req := ChatRequest(matchId, f.frame.payload).value;
        assert req.matchId == matchId;
        assert MessageService.Sendable(users, matches, userId, req);
      }
      forall k | 0 <= k < |r|
        ensures r[k].id == nextId + k && r[k].senderId == userId && r[k].matchId == matchId
      {
        if k >= |rows| {
          assert r[k] == rest[k - |rows|];
        }
      }
    }
  }

  /** One read step keeps the read loop's invariant: once a frame's rows
      are appended and the id counter has moved past them, what has been
      stored plus what is still to be stored is unchanged. */
  lemma ReadStep(users: seq<User>, matches: seq<Match>, userId: Id, matchId: Id, frames: seq<Incoming>,
                 i: nat, start: seq<Message>, startId: Id, before: seq<Message>, nextId: Id,
                 after: seq<Message>, afterId: Id)
    requires i < |frames|
    requires start + StoredFrames(users, matches, userId, matchId, frames, startId) ==
             before + StoredFrames(users, matches, userId, matchId, frames[i..], nextId)
    requires after == before + FrameRows(users, matches, userId, matchId, frames[i], nextId)
    requires afterId == nextId + |FrameRows(users, matches, userId, matchId, frames[i], nextId)|
    ensures start + StoredFrames(users, matches, userId, matchId, frames, startId) ==
            after + StoredFrames(users, matches, userId, matchId, frames[i + 1..], afterId)
  {
    StoredFramesFrom(users, matches, userId, matchId, frames, i, nextId);
  }

  // ------------------------------------------------------------------ hub

  class Hub {
    /** userID -> its live connections. */
    var clients: Registry
    /** Every frame written so far, in order. */
    var sent: seq<Write>

    ghost predicate Valid()
      reads this
    {
      NoEmptySets(clients)
    }

    constructor ()
      ensures Valid() && clients == map[] && sent == []
    {
      clients := map[];
      sent := [];
    }

    method RegisterClient(userId: Id, conn: Conn)
      requires Valid()
      modifies this`clients
      ensures Valid()
      ensures clients == Registered(old(clients), userId, conn)
    {
      var current := if userId in clients then clients[userId] else {};
      clients := clients[userId := current + {conn}];
    }

    method UnregisterClient(userId: Id, conn: Conn)
      requires Valid()
      modifies this`clients
      ensures Valid()
      ensures clients == Unregistered(old(clients), userId, conn)
    {
      if userId in clients {
        var rest := clients[userId] - {conn};
        if rest == {} {
          clients := clients - {userId};
        } else {
          clients := clients[userId := rest];
        }
      }
    }

    /** The send loop of a broadcast to one user: one write per registered
        connection, in no particular order, collecting the connections whose
        write failed. */
    method SendToUser(userId: Id, event: Event, dead: set<Conn>) returns (w: seq<Write>, failed: set<Conn>)
      modifies this`sent
      ensures sent == old(sent) + w
      ensures OnceEach(w, Conns(clients, userId), event)
      ensures failed == Conns(clients, userId) * dead
    {
      var targets := Conns(clients, userId);
      var rest := targets;
      w, failed := [], {};
      while rest != {}
        invariant rest <= targets
        invariant sent == old(sent) + w
        invariant OnceEach(w, targets - rest, event)
        invariant failed == (targets - rest) * dead
        decreases rest
      {
        var c :| c in rest;
        assert c !in WrittenTo(w);
        var x := Write(c, event);
        assert WrittenTo(w + [x]) == WrittenTo(w) + {c} by {
          assert forall i :: 0 <= i < |w| ==> (w + [x])[i] == w[i];
          assert (w + [x])[|w|] == x;
        }
        w := w + [x];
        sent := sent + [x];
        if c in dead {
          failed := failed + {c};
        }
        rest := rest - {c};
      }
    }

    /** The removals a failed broadcast schedules, one connection at a time. */
    method RemoveFailed(userId: Id, failed: set<Conn>)
      requires Valid()
      modifies this`clients
      ensures Valid()
      ensures clients == UnregisteredAll(old(clients), userId, failed)
    {
      var rest := failed;
      assert failed - rest == {};
      assert UnregisteredAll(clients, userId, {}) == clients by {
        var r := UnregisteredAll(clients, userId, {});
        assert forall v :: v in r <==> v in clients;
        forall v | v in r ensures r[v] == clients[v] {
          assert Conns(r, v) == Conns(clients, v);
        }
      }
      while rest != {}
        invariant rest <= failed
        invariant Valid()
        invariant clients == UnregisteredAll(old(clients), userId, failed - rest)
        decreases rest
      {
        var c :| c in rest;
        UnregisterOneMore(old(clients), userId, failed - rest, c);
        UnregisterClient(userId, c);
        assert failed - rest + {c} == failed - (rest - {c});
        rest := rest - {c};
      }
      assert failed - rest == failed;
    }

    /** broadcastToUser: write to every connection of the user, then drop
        the connections whose write failed. */
    method BroadcastToUser(userId: Id, event: Event, dead: set<Conn>) returns (w: seq<Write>)
      requires Valid()
      modifies this
      ensures Valid()
      ensures sent == old(sent) + w && OnceEach(w, Conns(old(clients), userId), event)
      ensures clients == UnregisteredAll(old(clients), userId, Conns(old(clients), userId) * dead)
    {
      var failed: set<Conn>;
      w, failed := SendToUser(userId, event, dead);
      RemoveFailed(userId, failed);
    }

    /** broadcastToMatch: look the match up and write to every connection of
        user1, then of user2 (the sender's own connections included), then
        drop the connections whose write failed. A failed or empty lookup
        sends nothing. */
    method BroadcastToMatch(db: Db, matchId: Id, event: Event, lookupFail: bool, dead: set<Conn>)
      returns (w1: seq<Write>, w2: seq<Write>)
      requires Valid()
      modifies this
      ensures Valid()
      ensures sent == old(sent) + w1 + w2
      ensures lookupFail || FindMatch(db.matches, matchId).None? ==>
        w1 == [] && w2 == [] && clients == old(clients)
      ensures !lookupFail && FindMatch(db.matches, matchId).Some? ==>
        var m := FindMatch(db.matches, matchId).value;
        OnceEach(w1, Conns(old(clients), m.user1Id), event) &&
        OnceEach(w2, Conns(old(clients), m.user2Id), event) &&
        clients == UnregisteredAll(UnregisteredAll(old(clients), m.user1Id, Conns(old(clients), m.user1Id) * dead),
                                   m.user2Id, Conns(old(clients), m.user2Id) * dead)
      ensures Shrunk(old(clients), clients) && KeepsLive(old(clients), clients, dead)
    {
      w1, w2 := [], [];
      var found := SwipeRepository.GetMatchByID(db, matchId, lookupFail);
      if found.Err? || found.value.None? {
        return;
      }
      var m := found.value.value;
      var f1: set<Conn>, f2: set<Conn>;
      w1, f1 := SendToUser(m.user1Id, event, dead);
      w2, f2 := SendToUser(m.user2Id, event, dead);
      ghost var c0 := clients;
      RemoveFailed(m.user1Id, f1);
      ghost var c1 := clients;
      RemoveFailed(m.user2Id, f2);
      UnregisteredAllKeepsLive(c0, m.user1Id, f1, dead);
      UnregisteredAllKeepsLive(c1, m.user2Id, f2, dead);
    }

    /** BroadcastMatch: the match event, to every connection of each user. */
    method BroadcastMatch(matchId: Id, user1Id: Id, user2Id: Id, dead: set<Conn>) returns (w1: seq<Write>, w2: seq<Write>)
      requires Valid()
      modifies this
      ensures Valid()
      ensures sent == old(sent) + w1 + w2
      ensures OnceEach(w1, Conns(old(clients), user1Id), MatchEvent(matchId, user1Id, user2Id))
      ensures user1Id != user2Id ==> OnceEach(w2, Conns(old(clients), user2Id), MatchEvent(matchId, user1Id, user2Id))
      ensures var c1 := UnregisteredAll(old(clients), user1Id, Conns(old(clients), user1Id) * dead);
        OnceEach(w2, Conns(c1, user2Id), MatchEvent(matchId, user1Id, user2Id)) &&
        clients == UnregisteredAll(c1, user2Id, Conns(c1, user2Id) * dead)
      ensures Shrunk(old(clients), clients) && KeepsLive(old(clients), clients, dead)
    {
      var e := MatchEvent(matchId, user1Id, user2Id);
      ghost var c0 := clients;
      w1 := BroadcastToUser(user1Id, e, dead);
      ghost var c1 := clients;
      w2 := BroadcastToUser(user2Id, e, dead);
      UnregisteredAllKeepsLive(c0, user1Id, Conns(c0, user1Id) * dead, dead);
      UnregisteredAllKeepsLive(c1, user2Id, Conns(c1, user2Id) * dead, dead);
    }

    /** BroadcastToMatch, seen from a frame handler: the writes and the
        registry are as Delivered says, the new writes all carry the event,
        and only connections whose write failed are gone. */
    method Fanout(db: Db, matchId: Id, event: Event, lookupFail: bool, dead: set<Conn>)
      returns (w1: seq<Write>, w2: seq<Write>)
      requires Valid()
      modifies this
      ensures Valid()
      ensures sent == old(sent) + w1 + w2
      ensures Delivered(w1, w2, old(clients), clients, db.matches, matchId, event, lookupFail, dead)
      ensures Extends(old(sent), sent)
      ensures forall i :: |old(sent)| <= i < |sent| ==> sent[i].event == event
      ensures Shrunk(old(clients), clients) && KeepsLive(old(clients), clients, dead)
    {
      w1, w2 := BroadcastToMatch(db, matchId, event, lookupFail, dead);
      assert sent == old(sent) + (w1 + w2);
      assert forall i :: |old(sent)| <= i < |sent| ==> sent[i] == (w1 + w2)[i - |old(sent)|];
    }

    /** The store step of handleChatMessage. */
    method Post(db: Db, store: Cache.Store, userId: Id, req: CreateMessageRequest, io: MessageService.SendIo)
      returns (posted: Option<Message>)
      requires db.Valid()
      modifies db`messages, db`nextMessageId, store`kv, store`ttl
      ensures db.Valid()
      ensures posted.Some? ==> (MessageService.Sendable(old(db.users), old(db.matches), userId, req) &&
        posted.value == MessageService.RequestedMessage(userId, req).(id := old(db.nextMessageId)) &&
        db.messages == old(db.messages) + [posted.value])
      ensures posted.Some? <==> !io.checkFail && !io.createFail && !io.getFail &&
                                MessageService.Sendable(old(db.users), old(db.matches), userId, req)
      ensures MessageService.Inserted(db.users, db.matches, userId, req, io) ==>
        db.messages == old(db.messages) + [MessageService.RequestedMessage(userId, req).(id := old(db.nextMessageId))] &&
        db.nextMessageId == old(db.nextMessageId) + 1
      ensures !MessageService.Inserted(db.users, db.matches, userId, req, io) ==>
        db.messages == old(db.messages) && db.nextMessageId == old(db.nextMessageId)
    {
      var stored := MessageService.SendMessage(db, store, userId, req, io);
      posted := if stored.Ok? then Some(stored.value.message) else None;
    }

    /** handleChatMessage: check the payload, store the message, and
        broadcast it to the match only when it was stored and read back. */
    method HandleChat(db: Db, store: Cache.Store, userId: Id, matchId: Id, payload: Json, io: FrameIo, dead: set<Conn>)
      returns (posted: Option<Message>, w1: seq<Write>, w2: seq<Write>)
      requires Valid() && db.Valid()
      modifies this, db`messages, db`nextMessageId, store`kv, store`ttl
      ensures Valid() && db.Valid()
      ensures ChatStored(db.users, db.matches, userId, matchId, payload, io.send) ==>
        db.messages == old(db.messages) + [ChatMessage(userId, matchId, payload, old(db.nextMessageId))] &&
        db.nextMessageId == old(db.nextMessageId) + 1
      ensures !ChatStored(db.users, db.matches, userId, matchId, payload, io.send) ==>
        db.messages == old(db.messages) && db.nextMessageId == old(db.nextMessageId)
      ensures posted.Some? <==> ChatStored(db.users, db.matches, userId, matchId, payload, io.send) && !io.send.getFail
      ensures posted.Some? ==>
        posted.value == ChatMessage(userId, matchId, payload, old(db.nextMessageId)) &&
        sent == old(sent) + w1 + w2 &&
        Delivered(w1, w2, old(clients), clients, db.matches, matchId, ChatEventOf(posted.value), io.lookupFail, dead)
      ensures posted.None? ==> w1 == [] && w2 == []
      ensures ChatRequest(matchId, payload).None? ==> posted.None? && db.messages == old(db.messages)
      ensures posted.Some? ==> (ChatRequest(matchId, payload).Some? &&
        MessageService.Sendable(old(db.users), old(db.matches), userId, ChatRequest(matchId, payload).value) &&
        posted.value == MessageService.RequestedMessage(userId, ChatRequest(matchId, payload).value).(id := old(db.nextMessageId)) &&
        db.messages == old(db.messages) + [posted.value])
      ensures posted.None? ==> sent == old(sent) && clients == old(clients)
      ensures Extends(old(sent), sent)
      ensures forall i :: |old(sent)| <= i < |sent| ==> posted.Some? && sent[i].event == ChatEventOf(posted.value)
      ensures Shrunk(old(clients), clients) && KeepsLive(old(clients), clients, dead)
    {
      posted, w1, w2 := None, [], [];
      var req := ChatRequest(matchId, payload);
      if req.None? {
        return;
      }
      posted := Post(db, store, userId, req.value, io.send);
      if posted.None? {
        return;
      }
      w1, w2 := Fanout(db, matchId, ChatEventOf(posted.value), io.lookupFail, dead);
    }

    /** handleTypingMessage: broadcast the typing flag to the match, the
        typist's own connections included. */
    method HandleTyping(db: Db, userId: Id, matchId: Id, payload: Json, lookupFail: bool, dead: set<Conn>)
      returns (w1: seq<Write>, w2: seq<Write>)
      requires Valid()
      modifies this
      ensures Valid()
      ensures TypingFlag(payload).Some? ==>
        sent == old(sent) + w1 + w2 &&
        Delivered(w1, w2, old(clients), clients, db.matches, matchId,
                  TypingEvent(matchId, userId, TypingFlag(payload).value), lookupFail, dead)
      ensures TypingFlag(payload).None? ==> w1 == [] && w2 == [] && sent == old(sent) && clients == old(clients)
      ensures Extends(old(sent), sent)
      ensures forall i :: |old(sent)| <= i < |sent| ==>
        TypingFlag(payload).Some? && sent[i].event == TypingEvent(matchId, userId, TypingFlag(payload).value)
      ensures Shrunk(old(clients), clients) && KeepsLive(old(clients), clients, dead)
    {
      w1, w2 := [], [];
      var flag := TypingFlag(payload);
      if flag.None? {
        return;
      }
      w1, w2 := Fanout(db, matchId, TypingEvent(matchId, userId, flag.value), lookupFail, dead);
    }

    /** One frame of the read loop: a chat frame is handleChatMessage, a
        typing frame handleTypingMessage, and every other type is ignored. */
    method HandleFrame(db: Db, store: Cache.Store, userId: Id, matchId: Id, f: Incoming, dead: set<Conn>)
      returns (posted: Option<Message>, w1: seq<Write>, w2: seq<Write>)
      requires Valid() && db.Valid()
      modifies this, db`messages, db`nextMessageId, store`kv, store`ttl
      ensures Valid() && db.Valid()
      ensures FrameStores(db.users, db.matches, userId, matchId, f) ==>
        db.messages == old(db.messages) + [ChatMessage(userId, matchId, f.frame.payload, old(db.nextMessageId))] &&
        db.nextMessageId == old(db.nextMessageId) + 1
      ensures !FrameStores(db.users, db.matches, userId, matchId, f) ==>
        db.messages == old(db.messages) && db.nextMessageId == old(db.nextMessageId)
      ensures f.frame.kind == ChatKind ==>
        (posted.Some? <==> ChatStored(db.users, db.matches, userId, matchId, f.frame.payload, f.io.send) &&
                           !f.io.send.getFail) &&
        (posted.Some? ==>
          posted.value == ChatMessage(userId, matchId, f.frame.payload, old(db.nextMessageId)) &&
          sent == old(sent) + w1 + w2 &&
          Delivered(w1, w2, old(clients), clients, db.matches, matchId, ChatEventOf(posted.value), f.io.lookupFail, dead)) &&
        (posted.None? ==> sent == old(sent) && clients == old(clients))
      ensures f.frame.kind == TypingKind ==> (
        posted.None? &&
        (TypingFlag(f.frame.payload).Some? ==>
          sent == old(sent) + w1 + w2 &&
          Delivered(w1, w2, old(clients), clients, db.matches, matchId,
                    TypingEvent(matchId, userId, TypingFlag(f.frame.payload).value), f.io.lookupFail, dead)) &&
        (TypingFlag(f.frame.payload).None? ==> sent == old(sent) && clients == old(clients)))
      ensures f.frame.kind != ChatKind && f.frame.kind != TypingKind ==>
        posted.None? && w1 == [] && w2 == [] &&
        sent == old(sent) && clients == old(clients) && db.messages == old(db.messages)
      ensures Extends(old(sent), sent)
      ensures Shrunk(old(clients), clients) && KeepsLive(old(clients), clients, dead)
    {
      posted, w1, w2 := None, [], [];
      if f.frame.kind == ChatKind {
        posted, w1, w2 := HandleChat(db, store, userId, matchId, f.frame.payload, f.io, dead);
      } else if f.frame.kind == TypingKind {
        w1, w2 := HandleTyping(db, userId, matchId, f.frame.payload, f.io.lookupFail, dead);
      }
    }

    /** One pass of the read loop: the frame is handled and adds its rows,
        if any, to the messages table. */
    method ReadFrame(db: Db, store: Cache.Store, userId: Id, matchId: Id, f: Incoming, dead: set<Conn>)
      requires Valid() && db.Valid()
      modifies this, db`messages, db`nextMessageId, store`kv, store`ttl
      ensures Valid() && db.Valid()
      ensures Extends(old(sent), sent)
      ensures Shrunk(old(clients), clients) && KeepsLive(old(clients), clients, dead)
      ensures db.messages == old(db.messages) + FrameRows(db.users, db.matches, userId, matchId, f, old(db.nextMessageId))
      ensures db.nextMessageId == old(db.nextMessageId) + |FrameRows(db.users, db.matches, userId, matchId, f, old(db.nextMessageId))|
    {
      var _, _, _ := HandleFrame(db, store, userId, matchId, f, dead);
    }

    /** The read loop of HandleWebSocket: each frame in turn, until the
        frames run out (a read error). The messages table grows by exactly
        the messages the chat frames store. */
    method ReadLoop(db: Db, store: Cache.Store, userId: Id, matchId: Id, frames: seq<Incoming>, dead: set<Conn>)
      requires Valid() && db.Valid()
      modifies this, db`messages, db`nextMessageId, store`kv, store`ttl
      ensures Valid() && db.Valid()
      ensures Extends(old(sent), sent)
      ensures Shrunk(old(clients), clients) && KeepsLive(old(clients), clients, dead)
      ensures db.messages == old(db.messages) + StoredFrames(db.users, db.matches, userId, matchId, frames, old(db.nextMessageId))
    {
      ghost var users, matches, m0, n0 := db.users, db.matches, db.messages, db.nextMessageId;
      var i := 0;
      while i < |frames|
        invariant 0 <= i <= |frames|
        invariant Valid() && db.Valid()
        invariant Extends(old(sent), sent)
        invariant Shrunk(old(clients), clients) && KeepsLive(old(clients), clients, dead)
        invariant m0 + StoredFrames(users, matches, userId, matchId, frames, n0) ==
                  db.messages + StoredFrames(users, matches, userId, matchId, frames[i..], db.nextMessageId)
      {
        ghost var sentBefore, clientsBefore := sent, clients;
        ghost var msgs, next := db.messages, db.nextMessageId;
        ReadFrame(db, store, userId, matchId, frames[i], dead);
        ExtendsTrans(old(sent), sentBefore, sent);
        ShrunkTrans(old(clients), clientsBefore, clients, dead);
        ReadStep(users, matches, userId, matchId, frames, i, m0, n0, msgs, next, db.messages, db.nextMessageId);
        i := i + 1;
      }
      assert frames[i..] == [];
    }

    /** The open session: the welcome frame, then, if it reached the
        client, the read loop. */
    method Converse(db: Db, store: Cache.Store, userId: Id, matchId: Id, conn: Conn, frames: seq<Incoming>,
                    dead: set<Conn>)
      requires Valid() && db.Valid()
      modifies this, db`messages, db`nextMessageId, store`kv, store`ttl
      ensures Valid() && db.Valid()
      ensures |sent| > |old(sent)| && sent[|old(sent)|] == Write(conn, Welcome(matchId, userId))
      ensures conn in dead ==> sent == old(sent) + [Write(conn, Welcome(matchId, userId))] &&
                               db.messages == old(db.messages) && clients == old(clients)
      ensures conn !in dead ==>
        db.messages == old(db.messages) + StoredFrames(db.users, db.matches, userId, matchId, frames, old(db.nextMessageId))
      ensures Shrunk(old(clients), clients) && KeepsLive(old(clients), clients, dead)
    {
      sent := sent + [Write(conn, Welcome(matchId, userId))];
      if conn !in dead {
        ghost var sentBefore := sent;
        ReadLoop(db, store, userId, matchId, frames, dead);
        assert sent[|old(sent)|] == sent[..|sentBefore|][|old(sent)|];
      }
    }

    /** The life of an upgraded connection: register it, mark the user
        online, send the welcome frame, handle frames until the read fails,
        then (on every exit) mark the user offline and unregister the
        connection. The messages table grows by exactly the messages the
        chat frames store. */
    method Serve(db: Db, store: Cache.Store, userId: Id, matchId: Id, conn: Conn, frames: seq<Incoming>, io: SessionIo)
      requires Valid() && db.Valid()
      modifies this, db`messages, db`nextMessageId, store`kv, store`ttl, store`online
      ensures Valid() && db.Valid()
      ensures |sent| > |old(sent)| && sent[|old(sent)|] == Write(conn, Welcome(matchId, userId))
      ensures conn in io.dead ==> sent == old(sent) + [Write(conn, Welcome(matchId, userId))] &&
                                  db.messages == old(db.messages)
      ensures conn !in io.dead ==>
        db.messages == old(db.messages) + StoredFrames(db.users, db.matches, userId, matchId, frames, old(db.nextMessageId))
      ensures conn !in Conns(clients, userId)
      ensures !io.offlineFail ==> userId !in store.online
      ensures Shrunk(Registered(old(clients), userId, conn), clients)
      ensures forall u, c :: c in Conns(old(clients), u) && c !in io.dead && c != conn ==> c in Conns(clients, u)
    {
      RegisterClient(userId, conn);
      ghost var registered := clients;
      var _ := MessageService.MarkUserOnline(store, userId, io.onlineFail);
      Converse(db, store, userId, matchId, conn, frames, io.dead);
      var _ := MessageService.MarkUserOffline(store, userId, io.offlineFail);
      ghost var beforeClose := clients;
      UnregisterClient(userId, conn);
      forall u, c | c in Conns(old(clients), u) && c !in io.dead && c != conn
        ensures c in Conns(clients, u)
      {
        assert c in Conns(registered, u);
        assert c in Conns(beforeClose, u);
      }
    }

    /** HandleWebSocket: the query and participant checks, the upgrade, then
        the connection's life. A participant's request is served whenever
        the check and the upgrade succeed. */
    method HandleWebSocket(db: Db, store: Cache.Store, userIdStr: string, matchIdStr: string, conn: Conn,
                           frames: seq<Incoming>, io: SessionIo)
      returns (reply: Reply)
      requires Valid() && db.Valid()
      modifies this, db`messages, db`nextMessageId, store`kv, store`ttl, store`online
      ensures Valid() && db.Valid()
      ensures ParseQuery(userIdStr, matchIdStr).Err? ==>
        reply == Status(400, ParseQuery(userIdStr, matchIdStr).msg) && sent == old(sent) && clients == old(clients)
      ensures ParseQuery(userIdStr, matchIdStr).Ok? && io.checkFail ==>
        reply == Status(500, "failed to check if user in match") && sent == old(sent)
      ensures ParseQuery(userIdStr, matchIdStr).Ok? && !io.checkFail &&
              !SwipeRepository.UserInMatch(db.matches, ParseQuery(userIdStr, matchIdStr).value.0,
                                           ParseQuery(userIdStr, matchIdStr).value.1) ==>
        reply == Status(403, "User not part of this match") && sent == old(sent) && clients == old(clients)
      ensures ParseQuery(userIdStr, matchIdStr).Ok? && !io.checkFail &&
              SwipeRepository.UserInMatch(db.matches, ParseQuery(userIdStr, matchIdStr).value.0,
                                          ParseQuery(userIdStr, matchIdStr).value.1) ==>
        reply == (if io.upgradeFail then UpgradeFailed else Served)
      ensures reply == Served ==>
        ParseQuery(userIdStr, matchIdStr).Ok? &&
        SwipeRepository.UserInMatch(old(db.matches), ParseQuery(userIdStr, matchIdStr).value.0,
                                    ParseQuery(userIdStr, matchIdStr).value.1) &&
        conn !in Conns(clients, ParseQuery(userIdStr, matchIdStr).value.0)
      ensures reply == Served && conn !in io.dead ==>
        db.messages == old(db.messages) +
          StoredFrames(db.users, db.matches, ParseQuery(userIdStr, matchIdStr).value.0,
                       ParseQuery(userIdStr, matchIdStr).value.1, frames, old(db.nextMessageId))
      ensures reply != Served ==> sent == old(sent) && clients == old(clients) && db.messages == old(db.messages)
    {
      var ids := ParseQuery(userIdStr, matchIdStr);
      if ids.Err? {
        return Status(400, ids.msg);
      }
      var (userId, matchId) := ids.value;
      var inMatch := SwipeRepository.IsUserInMatch(db, userId, matchId, io.checkFail);
      if inMatch.Err? {
        return Status(500, inMatch.msg);
      }
      if !inMatch.value {
        return Status(403, "User not part of this match");
      }
      if io.upgradeFail {
        return UpgradeFailed;
      }
      Serve(db, store, userId, matchId, conn, frames, io);
      reply := Served;
    }
  }

  /** What opening and closing a connection do to the registry and to the
      online set when every command succeeds. */
  datatype Presence = Presence(clients: Registry, online: set<Id>)

  function Open(p: Presence, u: Id, c: Conn): (r: Presence)
    ensures c in Conns(r.clients, u) && u in r.online
  {
    Presence(Registered(p.clients, u, c), p.online + {u})
  }

  function Close(p: Presence, u: Id, c: Conn): (r: Presence)
    ensures c !in Conns(r.clients, u) && u !in r.online
  {
    Presence(Unregistered(p.clients, u, c), p.online - {u})
  }

  /** Presence is per user and registration per connection: with two
      connections open, closing one takes the user offline although the other
      is still registered and receiving broadcasts. */
  lemma CloseOneOfTwo(p: Presence, u: Id, c1: Conn, c2: Conn)
    requires c1 != c2
    ensures var q := Close(Open(Open(p, u, c1), u, c2), u, c1);
      c2 in Conns(q.clients, u) && u !in q.online
  {
  }
}
