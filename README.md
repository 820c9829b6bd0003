# Swipe Sports backend — a verified model of its matchmaking and chat core

This project models the matchmaking and chat core of the Swipe Sports Go
backend in Dafny and proves properties of that model.

- **Swipes and matches.** A swipe is one user's left or right verdict on another user's profile. Two right swipes on each other make a match.
- **Chat.** Matched users exchange messages over HTTP routes and a websocket hub.
- **Storage.** MySQL is replaced by in-memory tables (the class `Database.Db`). Redis is replaced by an abstract store (the class `Cache.Store`). The websocket registry is the class `WebSocketHandler.Hub`.
- **Failures.** Every database or Redis round trip takes a failure flag from the environment. This keeps the error paths, and the missing rollbacks, visible in the contracts.

Modules follow the source files:

| module | source |
|---|---|
| `Wrappers`, `Models`, `Http` | Option/Result, the records of the models package, HTTP replies |
| `Strconv`, `Strs` | `%d` formatting, `strconv.ParseInt`/`Atoi`, `strings.Split`/`Join`/`Repeat`, Go's byte length |
| `Database` | the schema of internal/database/database.go as tables plus their constraints |
| `Cache` | internal/redis/redis.go |
| `SwipeRepository`, `SwipeService`, `SwipeHandler` | the swipe ledger and match detection |
| `MessageRepository`, `MessageService`, `MessageHandler` | messages, cached paging, unread counts |
| `WebSocketHandler` | the connection registry, fanout and a connection's lifecycle |
| `UserRepository`, `AuthService`, `AuthHandler`, `OAuth` | accounts, the profile merge, onboarding, provider tokens |
| `MainSimple` | the stand-alone server main_simple.go |

The central invariant is `SwipeService.Ledger`:

- every match joins two different users who swiped right on each other;
- no unordered pair of users is matched twice.

`SwipeService.Swipe` preserves it over any sequence of calls.

**Details of the code that the model keeps as written:**

- A match is stored as (swiper, swipee), not as the canonical (min, max) pair.
- `broadcastToMatch` also writes to the sender's own connections.
- `Swipe` never calls `BroadcastMatch`.
- Cache entries are written with expiry 0, meaning no TTL.
- The onboarding default coordinates are labelled Halifax. They are 43.6426, -79.3871 in auth_service.go and 44.6488, -63.5752 in main_simple.go.

## Model

| member | source | states |
|---|---|---|
| Models.NewOAuthUser | internal/service/auth_service.go:43-49 | a fresh OAuth account carries the given OAuth id, provider, name and e-mail and rank 1000; every other optional field (names, age, gender, location, coordinates, picture, bio, skill level, NTRP rating, play style, timeslots) is absent, and the sport preferences and availability maps are empty |
| Models.ProfileOf | internal/service/swipe_service.go:137-150 | the public profile copies the user's id, name, gender, location, rank, picture URL, bio, sport preferences, skill level, play style and availability, the same columns GetMatchWithUsers selects |
| Strconv.FormatInt | internal/handler/auth_handler.go:184 | decimal formatting is non-empty and starts with '-' exactly for negative numbers |
| Strconv.ParseInt | internal/handler/message_handler.go:39 | a parsed value lies in the int64 range and the text starts with a sign or a digit |
| Strconv.FormatIntInjective | internal/handler/auth_handler.go:184 | two ids with the same decimal text are equal |
| Strconv.ParseFormatRoundTrip | internal/handler/message_handler.go:39 | parsing the decimal text of any int64 gives the number back |
| Strconv.NatStringValue | internal/handler/auth_handler.go:184 | the digits of a natural number read back as that number |
| Strs.Split | main_simple.go:197 | splitting gives one more piece than there are separators |
| Strs.SplitJoin | main_simple.go:197 | joining the pieces with the separator rebuilds the string |
| Strs.SplitOfJoined | main_simple.go:197-198 | two separator-free pieces joined by the separator split back into exactly those two |
| Strs.SplitTwo | main_simple.go:197-198 | a two-piece split is separator-free on both sides and rebuilds the input |
| Strs.SplitNoSep | internal/auth/oauth.go:145 | a string without the separator splits into itself alone |
| Strs.SplitPiecesFree | internal/auth/oauth.go:145 | no piece of a split contains the separator |
| Strs.Repeat | internal/auth/oauth.go:154 | the repetition has n times the length and, for one character, consists of it |
| Strs.JoinCount | internal/repository/user_repository.go:168 | a character occurs in a join as often as in the pieces plus the separators |
| Strs.ByteLen | internal/handler/message_handler.go:103 | the UTF-8 byte length lies between the character count and four times it |
| Strs.AsciiByteLen | internal/handler/message_handler.go:103 | for ASCII text the byte length is the character count |
| Database.Db.constructor | internal/database/database.go:52-111 | empty tables satisfy every schema constraint |
| Database.FindUser | internal/repository/user_repository.go:48-66 | the row found by id carries that id and is in the table; absent means no such row |
| Database.FindMatch | internal/repository/swipe_repository.go:127-140 | the same for matches |
| Database.FindMessage | internal/repository/message_repository.go:72-88 | the same for messages |
| Database.FindSwipe | internal/repository/swipe_repository.go:39-54 | the same for the ordered pair (swiper, swipee) |
| Database.FindUserByOAuth | internal/repository/user_repository.go:68-86 | the row found has that OAuth id and provider; absent means none has |
| Database.FindUserUnique | internal/repository/user_repository.go:48-66 | with unique ids, a lookup finds the one row carrying the id |
| Database.FindMatchUnique | internal/repository/swipe_repository.go:127-140 | the same for matches |
| Database.FindMessageUnique | internal/repository/message_repository.go:72-88 | the same for messages |
| Cache.KeysInjective | internal/redis/redis.go:36-41 | within a namespace, distinct ids give distinct keys |
| Cache.PrefixedIdInjective | internal/redis/redis.go:36-41 | a prefix followed by the decimal id determines the id |
| Cache.NamespacesDisjoint | internal/redis/redis.go:36-41 | profile, matches, messages, swipe-deck, rate-limit and online keys never coincide, so touching one namespace leaves the others alone |
| Cache.Store.constructor | internal/redis/redis.go:14-32 | the store starts empty |
| Cache.Store.Get | internal/redis/redis.go:55 | a hit returns the stored value; a missing key or failed command is a miss |
| Cache.Store.Set | internal/redis/redis.go:49 | SET with expiry 0 stores the value and drops any expiry; a failure changes nothing |
| Cache.Store.SetWithExpiry | internal/service/swipe_service.go:99 | SET with an expiry stores the value with that expiry |
| Cache.Store.Delete | internal/redis/redis.go:61 | DEL removes the key, so a following Get misses |
| Cache.Store.SetUserProfile | internal/redis/redis.go:46-50 | stores under "user:profile:" + id with no expiry |
| Cache.Store.GetUserProfile | internal/redis/redis.go:52-56 | reads "user:profile:" + id |
| Cache.Store.DeleteUserProfile | internal/redis/redis.go:58-62 | removes "user:profile:" + id and nothing else |
| Cache.Store.SetUserMatches | internal/redis/redis.go:64-68 | stores under "user:matches:" + id with no expiry |
| Cache.Store.GetUserMatches | internal/redis/redis.go:70-74 | reads "user:matches:" + id |
| Cache.Store.DeleteUserMatches | internal/redis/redis.go:76-80 | removes "user:matches:" + id and nothing else |
| Cache.Store.SetMatchMessages | internal/redis/redis.go:82-86 | stores under "match:messages:" + id with no expiry |
| Cache.Store.GetMatchMessages | internal/redis/redis.go:88-92 | reads "match:messages:" + id |
| Cache.Store.DeleteMatchMessages | internal/redis/redis.go:94-98 | removes "match:messages:" + id and nothing else |
| Cache.Store.AddOnlineUser | internal/redis/redis.go:100-103 | adds the id to the one presence set |
| Cache.Store.RemoveOnlineUser | internal/redis/redis.go:105-108 | removes the id from the presence set |
| Cache.Store.GetOnlineUsers | internal/redis/redis.go:110-113 | returns the presence set |
| Cache.Store.IsUserOnline | internal/redis/redis.go:115-118 | true exactly for members of the presence set |
| Cache.Store.CheckRateLimit | internal/redis/redis.go:121-135 | a failed INCR refuses and changes nothing; otherwise the counter rises by one, the call is allowed iff the new count is at most the limit, and the window expiry is set only on the first increment |
| Cache.RateLimitRun | internal/redis/redis.go:125-134 | n successive calls give n verdicts |
| Cache.RateLimitRunAllows | internal/redis/redis.go:125-134 | call i after count c is allowed iff c + i + 1 <= limit |
| Cache.RateLimitRunMonotone | internal/redis/redis.go:125-134 | once refused, every later call in the window is refused |
| SwipeRepository.Create | internal/repository/swipe_repository.go:19-37 | the insert succeeds iff the users exist and the ordered pair is new; the record gets the next id and keeps its other fields; an error writes nothing |
| SwipeRepository.GetBySwiperAndSwipee | internal/repository/swipe_repository.go:39-54 | returns a row of that exact ordered pair, or absent with no error when there is none |
| SwipeRepository.CheckForMatch | internal/repository/swipe_repository.go:56-79 | true iff the users differ and each swiped right on the other |
| SwipeRepository.CountHitsUnique | internal/repository/swipe_repository.go:58-70 | under unique_swipe the COUNT(*) is one per existing right-swipe direction |
| SwipeRepository.CheckForMatchIff | internal/repository/swipe_repository.go:56-79 | with unique ordered pairs, count >= 2 iff both right swipes exist |
| SwipeRepository.CountHitsSymmetric | internal/repository/swipe_repository.go:58-70 | the count does not depend on the argument order |
| SwipeRepository.CheckForMatchSymmetric | internal/repository/swipe_repository.go:56-79 | CheckForMatch(a, b) == CheckForMatch(b, a) |
| SwipeRepository.CheckForMatchSelf | internal/repository/swipe_repository.go:56-79 | nobody matches themselves: the one self row counts once |
| SwipeRepository.RowsOfTail | internal/repository/swipe_repository.go:60-61 | a right swipe is in a table iff it is its first row or in the rest |
| SwipeRepository.CreateMatch | internal/repository/swipe_repository.go:81-99 | the insert succeeds iff the users exist and the ordered pair is new; the record gets the next id |
| SwipeRepository.GetMatchesByUserID | internal/repository/swipe_repository.go:101-125 | returns the user's matches read from the newest row back |
| SwipeRepository.MatchesNewestFirstMembers | internal/repository/swipe_repository.go:101-125 | the listing holds exactly the matches the user is a party to |
| SwipeRepository.MatchesNewestFirstOrdered | internal/repository/swipe_repository.go:105 | the listing is newest first: ids strictly decrease |
| SwipeRepository.GetMatchByID | internal/repository/swipe_repository.go:127-140 | returns the match with that id, or absent with no error for an unknown id |
| SwipeRepository.IsUserInMatch | internal/repository/swipe_repository.go:142-152 | true iff the match exists and the user is its user1 or user2 |
| SwipeRepository.UserInMatchByLookup | internal/repository/swipe_repository.go:142-152 | membership agrees with looking the match up by id |
| SwipeRepository.GetMatchWithUsers | internal/repository/swipe_repository.go:154-189 | the match joined with both users' profiles, or absent for an unknown id |
| SwipeService.HasRightAppend | internal/service/swipe_service.go:42 | after an insert, a right swipe exists iff it existed before or is the new row |
| SwipeService.LedgerAfterSwipe | internal/service/swipe_service.go:42-44 | recording a swipe keeps every match justified |
| SwipeService.NoMatchWithoutRow | internal/service/swipe_service.go:26-33 | a pair with no a-to-b row yet is not matched in either order |
| SwipeService.LedgerAfterMatch | internal/service/swipe_service.go:47-62 | the match a second right swipe creates is justified and joins a pair not matched before |
| SwipeService.MatchInsertable | internal/service/swipe_service.go:55-60 | the match a completing swipe asks for passes the matches table's constraints |
| SwipeService.RecordSwipe | internal/service/swipe_service.go:26-44 | a repeated ordered pair fails with "user has already swiped on this profile" and writes nothing; otherwise the swipe is inserted |
| SwipeService.DropMatchCaches | internal/service/swipe_service.go:65-66 | both users' match caches are deleted; a failed delete is ignored |
| SwipeService.RecordMatch | internal/service/swipe_service.go:53-71 | the match (swiper, swipee) is inserted with the next id and both match caches are dropped; an insert error keeps the ledger |
| SwipeService.CompleteMatch | internal/service/swipe_service.go:46-77 | after the insert, a left swipe succeeds without a match; a right swipe succeeds iff the mutual check works and, when the pair completes, the match insert works; a match is reported iff the swipe is right and completes a mutual pair |
| SwipeService.Swipe | internal/service/swipe_service.go:24-78 | keeps the ledger. It succeeds iff the users exist, the ordered pair is new, the lookup and insert work and, for a right swipe, the mutual check and any match insert work. A refused swipe writes nothing; a recordable one is appended with the next id. A left swipe never matches. A right swipe matches iff the other user swiped right first, and the match is (swiper, swipee). Both match caches are dropped. An error after the insert keeps the swipe (no rollback) |
| SwipeService.OtherUser | internal/service/swipe_service.go:125-128 | the shown participant is user2 when the caller is user1, else user1, and never the caller in a match of two users |
| SwipeService.ProfileById | internal/service/swipe_service.go:131-150 | the profile of an existing user row |
| SwipeService.ResponsesFaithful | internal/service/swipe_service.go:123-157 | one response per match whose user lookup succeeds, each showing the other participant's profile |
| SwipeService.ResponsesShowPartner | internal/service/swipe_service.go:123-157 | in a justified ledger no response shows the caller to themselves |
| SwipeService.MatchesOfUserExist | internal/service/swipe_service.go:116-131 | every participant of a user's matches has a user row |
| SwipeService.BuildResponses | internal/service/swipe_service.go:122-157 | the loop builds exactly the responses the specification function lists |
| SwipeService.ResponsesStep | internal/service/swipe_service.go:123-157 | one loop step appends the response of the next match, or skips it on a failed lookup |
| SwipeService.GetMatches | internal/service/swipe_service.go:105-165 | a decodable cached list is returned as is; otherwise the responses are built from the newest-first matches and cached |
| SwipeService.GetProfilesForSwipe | internal/service/swipe_service.go:80-103 | the cache key holds only the user id, so a hit returns the cached deck whatever the filter; a miss queries and caches with expiry 300 |
| SwipeService.GetMatch | internal/service/swipe_service.go:167-185 | a failed check, then a non-participant ("user not part of this match"), then a failed fetch ("failed to get match") are errors; a success iff none of these, and it is the match with the stored profiles of both its users, one of them the caller |
| SwipeHandler.GenderParam | internal/handler/swipe_handler.go:35-40 | the gender filter is set only for male, female or other |
| SwipeHandler.IntParam | internal/handler/swipe_handler.go:48-58 | min_rank and max_rank are set only when they parse as integers |
| SwipeHandler.RealParam | internal/handler/swipe_handler.go:61-77 | a coordinate is set only when present and parsed |
| SwipeHandler.ProfileLimitParam | internal/handler/swipe_handler.go:80-86 | limit: absent gives 20, a positive integer gives itself, anything else stays 0 |
| SwipeHandler.OffsetParam | internal/handler/swipe_handler.go:88-92 | offset is set only from a non-negative integer, else 0 |
| SwipeHandler.FilterOf | internal/handler/swipe_handler.go:32-92 | the built filter has a non-negative limit and offset and only a valid gender |
| SwipeHandler.EffectiveLimit | internal/handler/swipe_handler.go:80-86 | the limit the query uses is positive and is 20 exactly when the parameter is not a positive integer or is 20 |
| SwipeHandler.ProfilesPageOf | internal/handler/swipe_handler.go:101-105 | count is the list length and has_more is true exactly when it equals the limit |
| SwipeHandler.InvalidLimitHasMore | internal/handler/swipe_handler.go:80-104 | a present but invalid limit leaves the limit 0, so has_more is true iff the deck is empty |
| SwipeHandler.GetProfiles | internal/handler/swipe_handler.go:24-106 | 401 without a caller; with one, a success iff a decodable deck is cached or the query and every row scan work; a cached deck is returned as cached, otherwise the deck is the queried rows and is cached (a cache failure ignored); a failure is 500 and writes nothing; has_more as above |
| SwipeHandler.DirectionOf | internal/handler/swipe_handler.go:123-126 | only "left" and "right" are directions |
| SwipeHandler.ValidateSwipe | internal/handler/swipe_handler.go:122-132 | a bad direction, then a swipe on oneself, are refused with their messages; otherwise the request is passed on unchanged |
| SwipeHandler.Swipe | internal/handler/swipe_handler.go:109-142 | validation failures are 400 and write nothing; the reply is a success iff there is a caller, the body parses, the swipe validates and the service's success condition holds; a success records exactly the validated swipe; the ledger holds |
| SwipeHandler.GetMatches | internal/handler/swipe_handler.go:145-162 | 401 without a caller; a cache hit returns the cached list; on a miss the reply is a success iff the query works, and then the list is the caller's matches newest first, each with the other user's profile, with its count |
| SwipeHandler.GetMatch | internal/handler/swipe_handler.go:165-191 | 401 without a caller, 400 "Invalid match ID" for a non-integer id, then the service's errors as 400; a success iff the id parses, both round trips work and the caller is in the match, and it is the match with both users' stored profiles; the 404 "Match not found" reply cannot happen, since a participant's match always exists |
| MessageRepository.Create | internal/repository/message_repository.go:19-37 | the insert succeeds iff the match and sender exist and the type is text, image or audio; the record gets the next id |
| MessageRepository.Joined | internal/repository/message_repository.go:41-44 | a joined row carries the message unchanged |
| MessageRepository.Page | internal/repository/message_repository.go:47 | LIMIT/OFFSET: at most limit rows, starting at offset, in order |
| MessageRepository.NewestFirstMembers | internal/repository/message_repository.go:39-70 | a listing holds exactly the selected messages whose sender exists |
| MessageRepository.NewestFirstLength | internal/repository/message_repository.go:39-70 | a listing is no longer than the table |
| MessageRepository.NewestFirstOrdered | internal/repository/message_repository.go:46 | listings are newest first: ids strictly decrease |
| MessageRepository.SelectPage | internal/repository/message_repository.go:56-67 | the scan loop returns exactly the page of the listing |
| MessageRepository.GetByMatchID | internal/repository/message_repository.go:39-70 | only that match's messages, newest first, skipping offset and at most limit |
| MessageRepository.GetMessagesByUserID | internal/repository/message_repository.go:144-175 | only messages of matches the user is a party to, paged the same way |
| MessageRepository.PageSelected | internal/repository/message_repository.go:39-70 | every paged row is a selected row of the table |
| MessageRepository.GetLatestMessageByMatchID | internal/repository/message_repository.go:90-114 | the newest message of the match, or absent when it has none |
| MessageRepository.UnreadCountSplit | internal/repository/message_repository.go:116-131 | a match's messages split into those sent by the user and the unread rest |
| MessageRepository.GetUnreadCount | internal/repository/message_repository.go:116-131 | counts the match's messages whose sender is not the user |
| MessageRepository.GetByID | internal/repository/message_repository.go:72-88 | the row with that id, or absent with no error |
| MessageRepository.WithoutId | internal/repository/message_repository.go:133-142 | deleting never lengthens the table |
| MessageRepository.WithoutIdMembers | internal/repository/message_repository.go:133-142 | exactly the rows with that id are removed and no other row is touched |
| MessageRepository.WithoutAbsentId | internal/repository/message_repository.go:133-142 | deleting an unknown id changes nothing |
| MessageRepository.WithoutIdOk | internal/repository/message_repository.go:133-142 | deleting keeps the table's constraints |
| MessageRepository.DeleteByID | internal/repository/message_repository.go:133-142 | removes the row with that id, succeeding also when none matches |
| MessageService.CheckAndInsert | internal/service/message_service.go:26-46 | a non-participant gets "user not part of this match" and nothing is written; otherwise the requested message is inserted |
| MessageService.SendMessage | internal/service/message_service.go:24-69 | the stored message has the caller as sender and the request's match, content, type and media; the match's message cache is dropped; a failed re-read leaves the row |
| MessageService.CachedPageIsPage | internal/service/message_service.go:88-96 | slicing the cached list is the window LIMIT limit OFFSET page*limit of that list |
| MessageService.GetMessages | internal/service/message_service.go:71-115 | as written: succeeds iff the participant check works, the user is in the match and either the cache hits or the query works; an error after a working check is "failed to get messages"; at most limit rows; a hit slices the cached list; a miss reads the page and caches it only for page 0 |
| MessageService.CachedFirstPageHidesLaterPages | internal/service/message_service.go:88-112 | after page 0 is cached, page 1 reads empty although the match has more messages |
| MessageService.GetMessagesCached | internal/service/message_service.go:71-115 | corrected: the same success condition and error message; a miss caches the whole history, so every hit is the true page |
| MessageService.DeleteMessage | internal/service/message_service.go:121-145 | unknown id: "message not found"; not the sender: "unauthorized to delete this message"; neither deletes; success removes the row and drops that match's message cache |
| MessageService.MarkUserOnline | internal/service/message_service.go:175-177 | adds the user to the presence set |
| MessageService.MarkUserOffline | internal/service/message_service.go:179-181 | removes the user from the presence set |
| MessageHandler.MatchIdParam | internal/handler/message_handler.go:33-43 | a missing match_id is "match_id is required", a non-integer is "Invalid match_id" |
| MessageHandler.PageParam | internal/handler/message_handler.go:46-51 | page defaults to 0 and takes only integers >= 0 |
| MessageHandler.LimitParam | internal/handler/message_handler.go:53-58 | limit defaults to 50 and takes only integers in 1..100 |
| MessageHandler.MessagesPageOf | internal/handler/message_handler.go:67-73 | has_more is true exactly when the page is full |
| MessageHandler.HasMoreOnExactFit | internal/handler/message_handler.go:72 | a history of exactly limit messages reports has_more on page 0 while page 1 is empty |
| MessageHandler.ReadPage | internal/handler/message_handler.go:61-65 | the service read through the corrected cache: a success iff the check works, the caller is a participant and the cache hits or the query works; a hit is the page of the cached history; at most limit rows, the true page on a miss |
| MessageHandler.GetMessages | internal/handler/message_handler.go:25-74 | 401 without a caller, 400 for a bad match_id; with both, a success iff the check works, the caller is a participant and the cache hits or the query works; a failed query is 400 "failed to get messages"; a success is the page with page, limit and has_more |
| MessageHandler.ValidMessage | internal/handler/message_handler.go:91-106 | an empty type becomes text, other types outside text/image/audio are refused, then content over 1000 bytes is refused |
| MessageHandler.ValidatedIsSendable | internal/handler/message_handler.go:91-110 | a validated message from a participant always passes the table's constraints |
| MessageHandler.WideByteLen | internal/handler/message_handler.go:103 | characters from U+0800 up take at least three bytes each |
| MessageHandler.WideMessageRefused | internal/handler/message_handler.go:103-106 | 334 such characters are refused as too long although the message speaks of 1000 characters |
| MessageHandler.AsciiLimit | internal/handler/message_handler.go:103-106 | for ASCII text the bound is 1000 characters |
| MessageHandler.SendMessage | internal/handler/message_handler.go:77-116 | 201 iff the body is valid, the caller is a participant and every round trip succeeds; the stored message is the validated request from the caller |
| MessageHandler.DeleteMessage | internal/handler/message_handler.go:119-140 | "Invalid message ID" for a non-integer; success iff the caller sent that message, and then only it is removed |
| MessageHandler.CheckParticipant | internal/handler/message_handler.go:158-168 | a failed check is 500, a non-participant is 403 "User not part of this match" |
| MessageHandler.GetLatestMessage | internal/handler/message_handler.go:143-177 | 403 for a non-participant; a success is the newest message of the match, or none when it has none |
| MessageHandler.GetUnreadCount | internal/handler/message_handler.go:180-214 | 403 for a non-participant; a success is the count of the match's messages from others |
| MessageHandler.SendTypingIndicator | internal/handler/message_handler.go:217-251 | 403 for a non-participant, else "Typing indicator sent" |
| WebSocketHandler.Registered | internal/handler/websocket_handler.go:202-212 | adds the connection to the user's set, creating it on first use, and touches no other user |
| WebSocketHandler.Unregistered | internal/handler/websocket_handler.go:214-226 | removes exactly that connection and drops an emptied entry, so no user maps to an empty set |
| WebSocketHandler.RegisterTwice | internal/handler/websocket_handler.go:202-212 | registering the same connection again changes nothing |
| WebSocketHandler.UnregisterUnknown | internal/handler/websocket_handler.go:218-223 | unregistering an unknown user or connection changes nothing |
| WebSocketHandler.RegisterThenUnregister | internal/handler/websocket_handler.go:202-226 | registering a new connection and unregistering it restores the registry |
| WebSocketHandler.UnregisteredAll | internal/handler/websocket_handler.go:257 | removing the failed connections of a user leaves the rest |
| WebSocketHandler.UnregisterOneMore | internal/handler/websocket_handler.go:257 | removals one at a time compose to removing the set |
| WebSocketHandler.UnregisteredAllKeepsLive | internal/handler/websocket_handler.go:254-258 | only connections whose write failed are removed |
| WebSocketHandler.OnceEachCount | internal/handler/websocket_handler.go:248-260 | one write per registered connection: as many writes as connections |
| WebSocketHandler.ChatRequest | internal/handler/websocket_handler.go:132-154 | a chat frame needs an object payload with non-empty string content; the message_type is the payload's string when it has one and text otherwise; no media |
| WebSocketHandler.ChatTypeUnchecked | internal/handler/websocket_handler.go:144-157 | an unknown message_type passes the frame check but the insert refuses it, so nothing is broadcast |
| WebSocketHandler.TypingFlag | internal/handler/websocket_handler.go:179-189 | a typing frame needs an object payload with a boolean is_typing |
| WebSocketHandler.ChatEventOf | internal/handler/websocket_handler.go:164-174 | the broadcast event carries the stored message's match, sender, content, type and media |
| WebSocketHandler.ParseQuery | internal/handler/websocket_handler.go:39-62 | user_id is checked first ("user_id is required", "Invalid user_id"), then match_id ("match_id is required", "Invalid match_id"); a success is the two parsed int64 values |
| WebSocketHandler.Hub.constructor | internal/handler/websocket_handler.go:24-35 | the hub starts with no clients and no writes |
| WebSocketHandler.Hub.RegisterClient | internal/handler/websocket_handler.go:202-212 | the registry becomes Registered(old, user, conn) and keeps its invariant |
| WebSocketHandler.Hub.UnregisterClient | internal/handler/websocket_handler.go:214-226 | the registry becomes Unregistered(old, user, conn) and keeps its invariant |
| WebSocketHandler.Hub.SendToUser | internal/handler/websocket_handler.go:268-278 | one write to each connection of the user and nothing else; the failed ones are reported |
| WebSocketHandler.Hub.RemoveFailed | internal/handler/websocket_handler.go:257 | the removals scheduled for failed writes, done after the loop |
| WebSocketHandler.Hub.BroadcastToUser | internal/handler/websocket_handler.go:264-279 | one write per connection of the user; only failed connections are removed |
| WebSocketHandler.Hub.BroadcastToMatch | internal/handler/websocket_handler.go:228-262 | nothing is sent when the lookup fails or the match is missing; otherwise one write per connection of both participants, the sender included; only failed connections are removed |
| WebSocketHandler.Hub.BroadcastMatch | internal/handler/websocket_handler.go:282-296 | user1 gets the match event once on each connection, then user2 on each connection still registered; the failed connections of each are removed and no live one is |
| WebSocketHandler.Hub.Fanout | internal/handler/websocket_handler.go:228-262 | a failed or empty lookup writes nothing; otherwise every live connection of each participant gets the event once, and the dead ones are unregistered |
| WebSocketHandler.Hub.Post | internal/handler/websocket_handler.go:156-161 | a message is stored iff the service accepts it; it is then appended with the next id and the counter advances, otherwise the table and counter are unchanged |
| WebSocketHandler.Hub.HandleChat | internal/handler/websocket_handler.go:130-175 | a valid payload that SendMessage accepts is stored as the next message with the frame's content and type; a broadcast happens iff that message is stored and read back, and then every live connection of both participants gets it as a chat event; otherwise nothing is written |
| WebSocketHandler.Hub.HandleTyping | internal/handler/websocket_handler.go:177-200 | a boolean is_typing is broadcast to every live connection of both participants; any other payload writes nothing and changes nothing |
| WebSocketHandler.Hub.HandleFrame | internal/handler/websocket_handler.go:118-126 | a chat frame is handled as HandleChat and a typing frame as HandleTyping; frames of other kinds change nothing |
| WebSocketHandler.Hub.ReadFrame | internal/handler/websocket_handler.go:110-126 | one pass of the read loop appends exactly the frame's stored rows (at most one chat message, with the next id) |
| WebSocketHandler.Hub.ReadLoop | internal/handler/websocket_handler.go:109-127 | the read loop appends exactly StoredFrames of the frames read, from the counter's value on entry |
| WebSocketHandler.StoredFramesFromSession | internal/handler/websocket_handler.go:130-175 | every message a session stores has the reading user as sender, the session's match, and consecutive ids from the counter's start; a session that stores anything is one whose user is in the match |
| WebSocketHandler.Hub.Converse | internal/handler/websocket_handler.go:93-127 | the welcome is the first new write; a failed welcome ends the session with nothing else written, stored or removed; otherwise the read loop stores exactly StoredFrames of the frames; only failed connections leave the registry |
| WebSocketHandler.Hub.Serve | internal/handler/websocket_handler.go:83-127 | the welcome goes first; if it reaches the client, the messages table grows by exactly the messages the session's chat frames store, in order and with consecutive ids; on any exit the connection is unregistered and the user marked offline; other live connections stay |
| WebSocketHandler.Hub.HandleWebSocket | internal/handler/websocket_handler.go:37-128 | 400 for bad ids, 500 on a failed check, 403 for a non-participant, none of which touches the registry; a participant is served unless the upgrade fails; a served session whose welcome is delivered stores exactly its chat frames' messages; a served session ends unregistered |
| WebSocketHandler.Open | internal/handler/websocket_handler.go:86-91 | opening registers the connection and marks the user online |
| WebSocketHandler.Close | internal/handler/websocket_handler.go:87-91 | closing unregisters the connection and marks the user offline |
| WebSocketHandler.CloseOneOfTwo | internal/handler/websocket_handler.go:86-91 | closing one of two connections marks the user offline while the other stays registered |
| UserRepository.Stored | internal/repository/user_repository.go:21-33 | the stored row keeps the inserted columns and gets the id |
| UserRepository.Create | internal/repository/user_repository.go:20-46 | the insert succeeds iff OAuth id and e-mail are unique and the gender is valid; the record gets the next id |
| UserRepository.GetByID | internal/repository/user_repository.go:48-66 | the row with that id, or absent with no error |
| UserRepository.GetByOAuthID | internal/repository/user_repository.go:68-86 | the row with that OAuth id and provider, or absent with no error |
| UserRepository.UpdateIgnoresUnstoredFields | internal/repository/user_repository.go:89-103 | first/last name, age, NTRP rating and timeslots never reach the table |
| UserRepository.UpdateKeepsIdentity | internal/repository/user_repository.go:89-103 | an update keeps the id and OAuth fields and writes name, e-mail, rank and gender |
| UserRepository.UpdatedTable | internal/repository/user_repository.go:88-109 | only the row with the record's id is rewritten |
| UserRepository.UpdatedTableOk | internal/repository/user_repository.go:88-109 | an admissible update keeps the table's constraints and its ids |
| UserRepository.UpdatedIdsOk | internal/repository/user_repository.go:88-109 | an update keeps ids unique |
| UserRepository.UpdateThenGet | internal/repository/user_repository.go:88-109 | reading after an update returns the written row |
| UserRepository.UpdateKeepsOthers | internal/repository/user_repository.go:95 | an update leaves every other user's row unchanged |
| UserRepository.Update | internal/repository/user_repository.go:88-109 | succeeds iff the new columns keep the constraints, and then rewrites only that row |
| UserRepository.Texts | internal/repository/user_repository.go:116-154 | each condition's SQL text, in order |
| UserRepository.TotalPlaceholdersAppend | internal/repository/user_repository.go:116-154 | placeholder counts add up over appended conditions |
| UserRepository.SumCountsFree | internal/repository/user_repository.go:161-168 | '?'-free pieces contribute no placeholders |
| UserRepository.TemplateCount | internal/repository/user_repository.go:116-154 | a condition's text holds as many '?' as its placeholders |
| UserRepository.TextsCount | internal/repository/user_repository.go:116-154 | the conditions' texts hold as many '?' as their placeholders together |
| UserRepository.TailFree | internal/repository/user_repository.go:161-168 | the fixed query text around the conditions holds only the LIMIT and OFFSET placeholders |
| UserRepository.WhereCount | internal/repository/user_repository.go:168 | joining with " AND " adds no placeholder |
| UserRepository.QueryTextCount | internal/repository/user_repository.go:161-168 | the whole query holds the conditions' placeholders plus LIMIT and OFFSET |
| UserRepository.DistanceNeedsAllThree | internal/repository/user_repository.go:145-154 | the distance condition is present exactly when latitude, longitude and radius all are |
| UserRepository.AppendFilters | internal/repository/user_repository.go:124-154 | each present filter adds one condition and its arguments in order; distance adds four |
| UserRepository.BuildProfileQuery | internal/repository/user_repository.go:112-170 | starts with the not-swiped and not-self conditions on [user, user], replaces a limit <= 0 by 20, ends with limit and offset; the query text holds exactly as many '?' as there are arguments |
| UserRepository.GetProfilesForSwipe | internal/repository/user_repository.go:111-194 | the conditions are the fixed two plus the present filters, and the query text's '?' count equals the argument count; a query error or a bad row fails with its message, else the rows are returned |
| UserRepository.SinglePlaceholders | internal/repository/user_repository.go:124-142 | one condition carries its own placeholders |
| UserRepository.WhenPlaceholders | internal/repository/user_repository.go:124-154 | a conditional condition and its arguments appear together or not at all |
| UserRepository.FilterPlaceholders | internal/repository/user_repository.go:124-154 | the filter conditions hold as many placeholders as the filter arguments |
| AuthService.FreshAccountStored | internal/service/auth_service.go:43-53 | storing a fresh account writes it unchanged apart from the id |
| AuthService.FindOrCreate | internal/service/auth_service.go:36-54 | an existing (OAuth id, provider) account is reused; otherwise a rank-1000 account is created |
| AuthService.SignIn | internal/service/auth_service.go:35-71 | succeeds iff the lookup works, a missing account is inserted and the token is signed; the account is the found one or a fresh one with the next id; the token is signed for its id and the verified e-mail; a signing failure alone is "failed to generate token"; a failed cache write does not fail the call |
| AuthService.AuthenticateOAuth | internal/service/auth_service.go:28-72 | a token that does not verify is "failed to verify OAuth token" and writes nothing; a verified one succeeds iff sign-in does with the verified identity, and the account is the sign-in account |
| AuthService.GetUserByID | internal/service/auth_service.go:78-102 | a decodable cached profile is returned; otherwise the row is read and cached only when found |
| AuthService.Merge | internal/service/auth_service.go:114-162 | id, OAuth fields, e-mail and rank never change |
| AuthService.MergeEmpty | internal/service/auth_service.go:114-162 | an all-absent request changes nothing |
| AuthService.MergeIdempotent | internal/service/auth_service.go:114-162 | applying a request twice equals applying it once |
| AuthService.MergeOverwrites | internal/service/auth_service.go:114-162 | each of the sixteen fields: a present request field overwrites and an absent one keeps the user's value |
| AuthService.ApplyUpdate | internal/service/auth_service.go:114-162 | the sixteen conditional assignments build exactly Merge |
| AuthService.ApplyNames | internal/service/auth_service.go:115-126 | name, first and last name and age as requested |
| AuthService.ApplyPlace | internal/service/auth_service.go:127-138 | gender, location and coordinates as requested |
| AuthService.ApplyProfile | internal/service/auth_service.go:139-150 | picture, bio, sport preferences and skill as requested |
| AuthService.ApplyPlay | internal/service/auth_service.go:151-162 | play style, timeslots, availability and NTRP rating as requested |
| AuthService.FetchUser | internal/service/auth_service.go:105-112 | a missing user fails with "user not found" |
| AuthService.Save | internal/service/auth_service.go:164-172 | the update is written, then cached; a cache failure is ignored |
| AuthService.UpdateUser | internal/service/auth_service.go:104-175 | succeeds iff the lookup works, the user is found, the merged record passes the table's constraints and the write works; "user not found" for a missing user; a success writes the merged record and caches it unless the cache write fails; an error writes nothing to the table or the cache |
| AuthService.IsOneOf | internal/service/auth_service.go:194-201 | the membership loop finds x iff it is listed |
| AuthService.OnboardingError | internal/service/auth_service.go:188-222 | gender, then skill, then play style, then timeslot are checked, each with its message; no error iff all four are valid |
| AuthService.ValidateOnboarding | internal/service/auth_service.go:188-222 | the loops compute exactly OnboardingError |
| AuthService.Onboard | internal/service/auth_service.go:224-246 | id, e-mail, rank and OAuth id stay; coordinates are defaulted only when one is missing |
| AuthService.OnboardOverwrites | internal/service/auth_service.go:224-246 | onboarding overwrites every listed field: users agreeing elsewhere end up equal |
| AuthService.UpdateProfileFromOnboarding | internal/service/auth_service.go:178-272 | an invalid request fails before any write; once saved, the onboarded user is written, cached unless the cache fails, and the call succeeds iff a token is signed for its e-mail, else "failed to generate token"; an unsaved request writes nothing |
| AuthHandler.AcceptedNarrowsSupported | internal/handler/auth_handler.go:41-44 | the whitelist accepts only verifiable providers, and refuses auth0 although the verifier supports it |
| AuthHandler.SignupOrLogin | internal/handler/auth_handler.go:33-78 | a provider other than google, apple or facebook is 400 before verification and writes nothing; a token that does not verify is 401 "failed to verify OAuth token" and writes nothing; otherwise a success iff sign-in succeeds, and the user is the sign-in account |
| AuthHandler.Logout | internal/handler/auth_handler.go:98-102 | always succeeds |
| AuthHandler.GetMyProfile | internal/handler/auth_handler.go:105-124 | 401 without a caller; a decodable cached profile is returned; on a miss a failed query is 500 "failed to get user", a missing user 404 "User not found", and a found user is returned as stored |
| AuthHandler.UpdateMyProfile | internal/handler/auth_handler.go:127-147 | with a caller and a parsed body, a success iff the service's update succeeds; a success is the merged record, written and cached (unless the cache write fails); every service error is 500 and writes nothing to the table or the cache |
| AuthHandler.PictureError | internal/handler/auth_handler.go:157-176 | no file, then a type other than JPEG/PNG/WebP, then more than 5 MiB are refused with their messages |
| AuthHandler.FiveMiBBoundary | internal/handler/auth_handler.go:173-176 | exactly 5 MiB passes and one byte more is refused |
| AuthHandler.PictureUrl | internal/handler/auth_handler.go:184 | the URL is the fixed prefix, the decimal id and ".jpg" |
| AuthHandler.PictureUrlNamesUser | internal/handler/auth_handler.go:184 | the id parses back from the URL, so two users never share a URL |
| AuthHandler.PictureUpdate | internal/handler/auth_handler.go:187-191 | the update changes the picture URL and nothing else |
| AuthHandler.UploadProfilePicture | internal/handler/auth_handler.go:150-201 | refusals write nothing; with an accepted file, a success iff the picture update succeeds; a success changes only the user's picture URL, to the placeholder URL, and caches the record (unless the cache write fails); a failure writes nothing to the table or the cache |
| OAuth.VerifyInfoReply | internal/auth/oauth.go:86-101 | user info is rejected when id or e-mail is empty |
| OAuth.VerifyGoogleToken | internal/auth/oauth.go:69-102 | Google info is accepted iff id and e-mail are non-empty |
| OAuth.VerifyFacebookToken | internal/auth/oauth.go:104-136 | Facebook info is accepted iff id and e-mail are non-empty |
| OAuth.Pad | internal/auth/oauth.go:153-155 | padding makes the length a multiple of 4 with 0 to 3 '=' added only when needed |
| OAuth.VerifyAppleToken | internal/auth/oauth.go:138-170 | accepted iff the token splits into exactly 3 parts, and then it is the fixed placeholder identity |
| OAuth.AppleAcceptsThreeParts | internal/auth/oauth.go:145-168 | every token of three dot-free parts yields the placeholder |
| OAuth.Wrap64 | internal/auth/oauth.go:185-188 | Go int arithmetic wraps into the int64 range and is exact inside it |
| OAuth.Pow256 | internal/auth/oauth.go:185-188 | powers of 256 are positive |
| OAuth.BigEndianBound | internal/auth/oauth.go:185-188 | k bytes read big-endian stay below 256^k |
| OAuth.Pow256Monotone | internal/auth/oauth.go:185-188 | 256^i <= 256^j for i <= j |
| OAuth.FoldShort | internal/auth/oauth.go:185-188 | for up to 7 bytes the wrapping fold is the exact big-endian value |
| OAuth.Encode | internal/auth/oauth.go:185-188 | k-byte big-endian encoding has k bytes |
| OAuth.BigEndianEncode | internal/auth/oauth.go:185-188 | decoding the encoding gives the number back |
| OAuth.CommonExponent | internal/auth/oauth.go:185-188 | the bytes AQAB decode to 65537 |
| OAuth.FoldExponent | internal/auth/oauth.go:185-188 | the loop e = e*256 + b computes the fold, the big-endian value for short inputs |
| OAuth.ParseRsaPublicKeyFromJwk | internal/auth/oauth.go:172-192 | n is the big-endian modulus and e the folded exponent; decoding failures give their messages |
| OAuth.FindKey | internal/auth/oauth.go:224-228 | the key found has the token's kid and kty RSA; none found means no key has |
| OAuth.FindKeyFirst | internal/auth/oauth.go:224-228 | the key found is the first matching one |
| OAuth.KeyFunc | internal/auth/oauth.go:211-231 | a non-RSA method, a missing kid and no matching key are refused with their messages |
| OAuth.VerifyAuth0Token | internal/auth/oauth.go:194-263 | a JWKS fetch failure, then a JWKS decode failure, then any parse failure (no header, a refused key, a bad signature or an expired token) are refused with their messages, then the issuer "https://" + domain + "/", then the first audience = client id; a success iff all pass, and it carries the claims' identity |
| OAuth.VerifyOAuthToken | internal/auth/oauth.go:265-278 | dispatches google, facebook, apple and auth0, and refuses every other provider as unsupported; a success iff the chosen verifier succeeds, and it returns that verifier's identity |
| MainSimple.GetEnv | main_simple.go:42-47 | a non-empty variable wins, otherwise the default |
| MainSimple.ConfigOf | main_simple.go:30-40 | every setting is non-empty, and PORT is taken when set |
| MainSimple.EmptyVariableIsUnset | main_simple.go:43 | an empty variable reads like an unset one |
| MainSimple.ParseBearer | main_simple.go:188-202 | an empty header is "Authorization header required"; any other refusal is "Invalid authorization header format"; a token has no space |
| MainSimple.ParseBearerExactly | main_simple.go:197-202 | the header is accepted with token t iff it is exactly "Bearer " + t and t has no space |
| MainSimple.StrictBearer | main_simple.go:197-202 | "Bearer" followed by two spaces, or a lower-case "bearer", is refused |
| MainSimple.Authenticate | main_simple.go:188-215 | a valid token sets user_id and e-mail from its claims; an invalid one is "Invalid or expired token" |
| MainSimple.Rewritten | main_simple.go:133-154 | the UPDATE writes every column of the record except id and OAuth fields |
| MainSimple.RewrittenTable | main_simple.go:133-154 | only the row with the record's id is rewritten |
| MainSimple.TableAppend | main_simple.go:65-91 | an admissible insert keeps the table's constraints |
| MainSimple.TableRewrite | main_simple.go:133-154 | an admissible update keeps the table's constraints |
| MainSimple.Users.constructor | main_simple.go:61-63 | the users table starts empty |
| MainSimple.Users.CreateUser | main_simple.go:65-91 | the insert succeeds iff it keeps the constraints; the record gets the next id |
| MainSimple.Users.GetUserByID | main_simple.go:93-111 | the row with that id, or absent with no error |
| MainSimple.Users.GetUserByOAuthID | main_simple.go:113-131 | the row with that OAuth id and provider, or absent with no error |
| MainSimple.Users.UpdateUser | main_simple.go:133-154 | succeeds iff the constraints hold, and then rewrites only that row |
| MainSimple.RewriteOwnRow | main_simple.go:133-154 | after rewriting a user's row a read returns the record, and other rows are unchanged |
| MainSimple.VerifyAuth0TokenAsWritten | main_simple.go:229-240 | as written: panics iff the token is shorter than 10, else the id is "auth0\|" + the token's first 10 characters |
| MainSimple.ShortTokenPanics | main_simple.go:235 | the token "abc" makes the slice panic |
| MainSimple.VerifyAuth0Token | main_simple.go:229-240 | corrected: a short token is an error, and otherwise the result agrees with the code as written |
| MainSimple.SharedPrefixSameAccount | main_simple.go:235 | two tokens with the same first 10 characters give the same identity |
| MainSimple.Auth0Account | main_simple.go:359-365 | the new account is a rank-1000 auth0 account with the placeholder identity |
| MainSimple.SecondAccountRefused | main_simple.go:359-374 | once one placeholder account exists, the UNIQUE e-mail refuses a second one |
| MainSimple.SignupOrLogin | main_simple.go:332-444 | providers other than auth0 are 400, a bad token 401, lookup and insert failures 500; a success iff the lookup works, a missing account is inserted and the token is signed; the user is the existing account or the new one |
| MainSimple.GetProfile | main_simple.go:454-469 | 500 "Database error" on failure, 404 "User not found", else the row |
| MainSimple.ProfileError | main_simple.go:492-526 | gender, skill, play style and timeslot are checked in order with capitalised messages |
| MainSimple.ProfileErrorIsOnboardingError | main_simple.go:492-526 | the same checks as the service's onboarding, differing only in the first letter of the message |
| MainSimple.ValidateProfile | main_simple.go:492-526 | the membership loops compute exactly ProfileError |
| MainSimple.Overwrite | main_simple.go:528-549 | identity, e-mail, rank and picture stay; the gender is the requested one; coordinates are always present |
| MainSimple.OverwriteIsOnboard | main_simple.go:528-549 | equals the service's onboarding except the default coordinates, which here are 44.6488, -63.5752 |
| MainSimple.OverwriteUpdatable | main_simple.go:528-551 | a validated overwrite always passes the table's constraints |
| MainSimple.UpdateProfile | main_simple.go:471-572 | refusals happen before any write; a success iff the body parses, the user is found, the profile validates, the write works and a token is signed for the new e-mail; a token failure after the write is "Failed to generate token" and leaves it |

## Left out

- Network and foreign libraries are inputs to the model. These are the Google, Facebook and JWKS HTTP fetches, base64 decoding, RSA signature checks, JWT signing and validation, and `strconv.ParseFloat`.
- Time is left out: `created_at` timestamps, token expiry instants, write deadlines and TTL units. The expiry 300 passed as a `time.Duration` means 300 ns; the model stores only the number.
- Floating point values (coordinates, radius, NTRP rating) are opaque reals. The distance formula is kept only as SQL text.
- Concurrency is left out: the registry mutex, the `go unregisterClient` goroutines (removals happen after the send loop) and concurrent double swipes.
- JSON encoding of cached blobs is not modelled: a blob holds its value. A blob of the wrong kind counts as an undecodable cache entry.
- Row order follows insertion order, so "newest first" is reverse table order. Ties in `created_at` are not modelled.
- `ORDER BY RAND()` and row scanning stay abstract: the profile deck rows come from the environment.
- `LastInsertId` failures are not modelled separately. They return an error after a successful insert, like the other no-rollback paths.
- Error texts are the outer `fmt.Errorf` message without the wrapped cause.
- The literal SQL of main_simple.go is not modelled. Its INSERT and UPDATE name the reserved word `rank` unquoted.
- `UserRepository.Delete`, `AuthService.RefreshToken` and the refresh-token route are left out: they are JWT and SQL plumbing with no domain logic.
- `MessageService.broadcastMessage` and `MessageService.HandleTyping` are left out because they only log and reach no connection.
- `MessageService.GetLatestMessage`, `GetUnreadCount`, `IsUserOnline` and `GetOnlineUsers` each delegate to one repository or cache call. The handlers call those calls directly.
- The health route, CORS, route wiring, process start-up, schema creation and gin's panic recovery are left out.
- MessageService.GetMessages: `page*limit` is computed on unbounded integers, so a Go int overflow for huge pages is not modelled.
- MainSimple.VerifyAuth0Token: the token is a sequence of characters while Go slices bytes. The two agree for the ASCII text of JWTs.
- MainSimple.VerifyAuth0TokenAsWritten: counts and slices characters where Go's `len(token)` and `token[0:10]` count and slice bytes. The two agree on ASCII tokens, which is what JWTs are. On other text they differ: "ééééé" is 5 characters and 10 bytes, so the model panics where Go does not, and Go's id can end in a partial UTF-8 sequence that the model cannot express.
- MessageHandler.ReadPage: calls the corrected `MessageService.GetMessagesCached`, while internal/handler/message_handler.go:61 calls the service as written (see Findings). A stale page 1 or later that the code would return from the page-0 cache is not promised.
- MessageHandler.GetMessages: reads through `MessageHandler.ReadPage`, so it too answers with the corrected cache, not the stale pages of the code as written.
- MainSimple.SignupOrLogin: verifies with the corrected `MainSimple.VerifyAuth0Token`, so a token shorter than 10 bytes is 401 "Invalid token". The code as written panics at main_simple.go:235, and the recovery middleware of `gin.Default` answers 500 instead. That reply is not promised.
- WebSocketHandler.Hub.Serve: the read loop consumes a finite sequence of frames given in advance, and a read error ends it.
- WebSocketHandler.Hub.ReadLoop: states the messages a session stores exactly, but its writes only as an extension of the write log that removes nothing but failed connections; the writes of each frame are stated by `WebSocketHandler.Hub.HandleFrame`.

Further observations about the code, not findings:

- The message length check counts bytes while its message says characters (`MessageHandler.WideMessageRefused`).
- Presence is one set per user while registration is per connection (`WebSocketHandler.CloseOneOfTwo`).
- On the websocket path `message_type` is not validated (`WebSocketHandler.ChatTypeUnchecked`).
- Real JWTs share the 10-character prefix `eyJhbGciOi`, so `MainSimple.SharedPrefixSameAccount` maps them to one account. `MainSimple.SecondAccountRefused` then refuses any second account.
- An invalid profile `limit` leaves `has_more` true iff the deck is empty (`SwipeHandler.InvalidLimitHasMore`).
- In `OAuth.VerifyAuth0Token` the "invalid token" branch (internal/auth/oauth.go:237-240) and the "token is expired" branch (internal/auth/oauth.go:252-255) cannot be reached. With golang-jwt v5 a successful parse already means a valid signature and an unexpired token, and an expired token fails as "failed to parse token".
- `UserRepository.Update` receives, and the service caches, fields that the table does not store (`UserRepository.UpdateIgnoresUnstoredFields`).
- The 404 "Match not found" branch of the match route (internal/handler/swipe_handler.go:185-188) cannot be reached. The service answers only after the participant check, and a match that holds the caller exists, so the fetch finds it (`SwipeHandler.GetMatch`).

## Findings

| source | as written | input that shows it | evidently intended | confidence | as-written member | corrected member |
|---|---|---|---|---|---|---|
| internal/service/message_service.go:88-112 | only page 0 is cached, and it holds at most `limit` rows, yet later pages are sliced from that cached list | a match with limit+1 messages: request page 0, then page 1 with the same limit; page 1 reads empty | the cache holds the whole history so that every page is sliced from it correctly | not executed | MessageService.GetMessages, MessageService.CachedFirstPageHidesLaterPages | MessageService.GetMessagesCached, MessageService.CachedPageIsPage |
| main_simple.go:235 | `token[0:10]` panics when the token is shorter than 10 bytes | the body {"provider": "auth0", "token": "abc"} passes the required-field binding and panics | a short token is an invalid token, answered with 401 "Invalid token" | not executed | MainSimple.VerifyAuth0TokenAsWritten, MainSimple.ShortTokenPanics | MainSimple.VerifyAuth0Token |
