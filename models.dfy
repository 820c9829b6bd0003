/** The records of the Go models package, as values. Timestamps (created_at,
    updated_at) are not fields: the model orders rows by insertion, which is
    the order of their AUTO_INCREMENT ids. */
module Models {
  import opened Wrappers

  /** A Go int64 row or user id. */
  type Id = int

  // ---------------------------------------------------------------- swipes

  datatype Direction = Left | Right

  datatype Swipe = Swipe(id: Id, swiperId: Id, swipeeId: Id, direction: Direction)

  datatype SwipeRequest = SwipeRequest(swipeeId: Id, direction: Direction)

  datatype SwipeResponse = SwipeResponse(isMatch: bool, newMatch: Option<Match>)

  // --------------------------------------------------------------- matches

  datatype Match = Match(id: Id, user1Id: Id, user2Id: Id)

  predicate InMatch(m: Match, u: Id) {
    m.user1Id == u || m.user2Id == u
  }

  // -------------------------------------------------------------- messages

  const TextType: string := "text"
  const ImageType: string := "image"
  const AudioType: string := "audio"

  /** The values the messages.message_type ENUM column admits. */
  predicate IsMessageType(t: string) {
    t == TextType || t == ImageType || t == AudioType
  }

  /** A messages row. The message type is a string because the websocket path
      stores whatever type the client sent. */
  datatype Message = Message(
    id: Id, matchId: Id, senderId: Id,
    content: string, messageType: string, mediaUrl: Option<string>)

  /** A message row joined with its sender's name. */
  datatype MessageWithSender = MessageWithSender(message: Message, senderName: string)

  datatype CreateMessageRequest = CreateMessageRequest(
    matchId: Id, content: string, messageType: string, mediaUrl: Option<string>)

  // ----------------------------------------------------------------- users

  const Male: string := "male"
  const Female: string := "female"
  const OtherGender: string := "other"

  predicate IsGender(g: string) {
    g == Male || g == Female || g == OtherGender
  }

  /** Rank given to every newly created account. */
  const DefaultRank: int := 1000

  /** A user record. Latitude, longitude and NTRP rating are Go float64 values,
      kept here as opaque reals. */
  datatype User = User(
    id: Id,
    oauthId: Option<string>,
    oauthProvider: Option<string>,
    name: string,
    firstName: Option<string>,
    lastName: Option<string>,
    age: Option<int>,
    email: Option<string>,
    gender: Option<string>,
    location: Option<string>,
    latitude: Option<real>,
    longitude: Option<real>,
    rank: int,
    profilePicUrl: Option<string>,
    bio: Option<string>,
    sportPreferences: map<string, bool>,
    skillLevel: Option<string>,
    ntrpRating: Option<real>,
    playStyle: Option<string>,
    preferredTimeslots: Option<string>,
    availability: map<string, seq<string>>)

  /** A fresh account as the OAuth sign-up paths build it: every optional
      field absent, rank 1000. */
  function NewOAuthUser(oauthId: string, provider: string, name: string, email: string): (u: User)
    ensures u.rank == DefaultRank && u.oauthId == Some(oauthId) && u.oauthProvider == Some(provider)
    ensures u.email == Some(email) && u.name == name
    ensures u.firstName.None? && u.lastName.None? && u.age.None? && u.gender.None? && u.location.None?
    ensures u.latitude.None? && u.longitude.None? && u.profilePicUrl.None? && u.bio.None?
    ensures u.skillLevel.None? && u.ntrpRating.None? && u.playStyle.None? && u.preferredTimeslots.None?
    ensures u.sportPreferences == map[] && u.availability == map[]
  {
    User(0, Some(oauthId), Some(provider), name, None, None, None, Some(email), None, None,
         None, None, DefaultRank, None, None, map[], None, None, None, None, map[])
  }

  /** The partial update of PUT /profile/me: a present field overwrites. */
  datatype UpdateUserRequest = UpdateUserRequest(
    name: Option<string>,
    firstName: Option<string>,
    lastName: Option<string>,
    age: Option<int>,
    gender: Option<string>,
    location: Option<string>,
    latitude: Option<real>,
    longitude: Option<real>,
    profilePicUrl: Option<string>,
    bio: Option<string>,
    sportPreferences: Option<map<string, bool>>,
    skillLevel: Option<string>,
    ntrpRating: Option<real>,
    playStyle: Option<string>,
    preferredTimeslots: Option<string>,
    availability: Option<map<string, seq<string>>>)

  const EmptyUpdate: UpdateUserRequest :=
    UpdateUserRequest(None, None, None, None, None, None, None, None,
                      None, None, None, None, None, None, None, None)

  /** The onboarding request: every field is required. */
  datatype ProfileUpdateRequest = ProfileUpdateRequest(
    name: string,
    firstName: string,
    lastName: string,
    age: int,
    location: string,
    gender: string,
    preferredTimeslots: string,
    sportPreferences: map<string, bool>,
    skillLevel: string,
    ntrpRating: real,
    playStyle: string,
    bio: string,
    availability: map<string, seq<string>>)

  /** The profile filter of GET /profiles. */
  datatype ProfileFilter = ProfileFilter(
    gender: Option<string>,
    location: Option<string>,
    minRank: Option<int>,
    maxRank: Option<int>,
    latitude: Option<real>,
    longitude: Option<real>,
    radius: Option<real>,
    limit: int,
    offset: int)

  const EmptyFilter: ProfileFilter :=
    ProfileFilter(None, None, None, None, None, None, None, 0, 0)

  /** The public part of a user shown in a match listing. */
  datatype UserProfile = UserProfile(
    id: Id,
    name: string,
    gender: Option<string>,
    location: Option<string>,
    rank: int,
    profilePicUrl: Option<string>,
    bio: Option<string>,
    sportPreferences: map<string, bool>,
    skillLevel: Option<string>,
    playStyle: Option<string>,
    availability: map<string, seq<string>>)

  /** The public part of a user: the OAuth identity, the e-mail, the names,
      age, coordinates, NTRP rating and timeslots are not shown. */
  function ProfileOf(u: User): (p: UserProfile)
    ensures p.id == u.id && p.name == u.name && p.rank == u.rank
    ensures p.gender == u.gender && p.location == u.location && p.profilePicUrl == u.profilePicUrl
    ensures p.bio == u.bio && p.sportPreferences == u.sportPreferences && p.skillLevel == u.skillLevel
    ensures p.playStyle == u.playStyle && p.availability == u.availability
  {
    UserProfile(u.id, u.name, u.gender, u.location, u.rank, u.profilePicUrl, u.bio,
                u.sportPreferences, u.skillLevel, u.playStyle, u.availability)
  }

  datatype MatchResponse = MatchResponse(id: Id, user: UserProfile)

  datatype MatchWithUsers = MatchWithUsers(id: Id, user1: UserProfile, user2: UserProfile)

  // ---------------------------------------------------------- websockets

  /** Untyped JSON, as a decoded websocket payload (interface{}) holds it. */
  datatype Json =
    | JNull
    | JBool(b: bool)
    | JNumber(n: int)
    | JString(s: string)
    | JArray(items: seq<Json>)
    | JObject(fields: map<string, Json>)

  /** A frame read from a client: the "type" tag and the raw payload. */
  datatype Frame = Frame(kind: string, payload: Json)

  const ChatKind: string := "chat"
  const TypingKind: string := "typing"

  /** A frame written to a client. */
  datatype Event =
    | Welcome(matchId: Id, userId: Id)
    | ChatEvent(matchId: Id, senderId: Id, content: string, messageType: string, mediaUrl: Option<string>)
    | TypingEvent(matchId: Id, userId: Id, isTyping: bool)
    | MatchEvent(matchId: Id, user1Id: Id, user2Id: Id)
}
