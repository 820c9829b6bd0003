/** AuthService (internal/service/auth_service.go): OAuth sign-in with
    find-or-create, the cache-aside user read, the partial profile update and
    the onboarding update. Token signing (auth.GenerateToken) uses a secret
    and the clock; `sign` stands for it. Each database or Redis round trip
    takes a failure flag from the environment. */
module AuthService {
  import opened Wrappers
  import opened Models
  import opened Database
  import Cache
  import UserRepository
  import OAuth

  /** Token and user returned by sign-in and onboarding. */
  datatype AuthResponse = AuthResponse(token: string, user: User)

  // ---------------------------------------------------------- sign-in

  /** Failures of the round trips AuthenticateOAuth makes. */
  datatype SignInIo = SignInIo(lookupFail: bool, createFail: bool, cacheFail: bool)

  /** The account a first sign-in creates: rank 1000, every optional field
      absent but the provider, its user id and the e-mail. */
  function FreshAccount(info: OAuth.OAuthUserInfo, provider: string): User {
    NewOAuthUser(info.id, provider, info.name, info.email)
  }

  /** The stored row of a fresh account is the account itself with its id. */
  lemma FreshAccountStored(info: OAuth.OAuthUserInfo, provider: string, id: Id)
    ensures UserRepository.Stored(FreshAccount(info, provider), id) == FreshAccount(info, provider).(id := id)
  {
  }

  /** The find-or-create step of AuthenticateOAuth. */
  method FindOrCreate(db: Db, info: OAuth.OAuthUserInfo, provider: string, io: SignInIo) returns (r: Result<User>)
    requires db.Valid()
    modifies db`users, db`nextUserId
    ensures db.Valid()
    ensures io.lookupFail ==> r == Err("failed to get user") && db.users == old(db.users)
    ensures !io.lookupFail && FindUserByOAuth(old(db.users), info.id, provider).Some? ==>
      r == Ok(FindUserByOAuth(old(db.users), info.id, provider).value) && db.users == old(db.users)
    ensures !io.lookupFail && FindUserByOAuth(old(db.users), info.id, provider).None? ==>
      (r.Ok? <==> !io.createFail && UserRepository.CanInsertUser(old(db.users), FreshAccount(info, provider))) &&
      (r.Ok? ==> r.value == FreshAccount(info, provider).(id := old(db.nextUserId)) &&
                 db.users == old(db.users) + [r.value]) &&
      (r.Err? ==> r.msg == "failed to create user" && db.users == old(db.users))
    ensures r.Ok? ==> r.value in db.users && r.value.oauthId == Some(info.id) && r.value.oauthProvider == Some(provider)
  {
    var existing := UserRepository.GetByOAuthID(db, info.id, provider, io.lookupFail);
    if existing.Err? {
      return Err("failed to get user");
    }
    if existing.value.Some? {
      return Ok(existing.value.value);
    }
    var created := UserRepository.Create(db, FreshAccount(info, provider), io.createFail);
    if created.Err? {
      return Err("failed to create user");
    }
    FreshAccountStored(info, provider, old(db.nextUserId));
    r := Ok(created.value);
  }

  /** The account a sign-in ends with: the stored one for this OAuth id and
      provider, or a fresh account with the next id. */
  function SignInAccount(users: seq<User>, nextId: Id, info: OAuth.OAuthUserInfo, provider: string): User {
    match FindUserByOAuth(users, info.id, provider)
    case Some(u) => u
    case None => FreshAccount(info, provider).(id := nextId)
  }

  /** Sign-in succeeds: the lookup works, a missing account can be created,
      and a token is signed. The profile cache plays no part. */
  predicate SignInSucceeds(users: seq<User>, nextId: Id, info: OAuth.OAuthUserInfo, provider: string,
                           sign: (Id, string) -> Option<string>, io: SignInIo) {
    !io.lookupFail &&
    (FindUserByOAuth(users, info.id, provider).None? ==>
      !io.createFail && UserRepository.CanInsertUser(users, FreshAccount(info, provider))) &&
    sign(SignInAccount(users, nextId, info, provider).id, info.email).Some?
  }

  /** The steps of AuthenticateOAuth after the provider has vouched for
      `info`: find or create the account, sign a token for its id and the
      provider's e-mail, and cache the profile (a cache failure is ignored). */
  method SignIn(db: Db, store: Cache.Store, info: OAuth.OAuthUserInfo, provider: string,
                sign: (Id, string) -> Option<string>, io: SignInIo)
    returns (r: Result<AuthResponse>)
    requires db.Valid()
    modifies db`users, db`nextUserId, store`kv, store`ttl
    ensures db.Valid()
    ensures io.lookupFail ==> r == Err("failed to get user") && db.users == old(db.users)
    ensures r.Ok? <==> SignInSucceeds(old(db.users), old(db.nextUserId), info, provider, sign, io)
    ensures r.Ok? ==> r.value == AuthResponse(
      sign(SignInAccount(old(db.users), old(db.nextUserId), info, provider).id, info.email).value,
      SignInAccount(old(db.users), old(db.nextUserId), info, provider))
    ensures !io.lookupFail && !SignInSucceeds(old(db.users), old(db.nextUserId), info, provider, sign, io) &&
            (FindUserByOAuth(old(db.users), info.id, provider).None? ==>
              !io.createFail && UserRepository.CanInsertUser(old(db.users), FreshAccount(info, provider))) ==>
      r == Err("failed to generate token")
    ensures r.Ok? ==> (r.value.user in db.users &&
      r.value.user.oauthId == Some(info.id) && r.value.user.oauthProvider == Some(provider) &&
      sign(r.value.user.id, info.email) == Some(r.value.token))
    ensures r.Ok? && FindUserByOAuth(old(db.users), info.id, provider).Some? ==>
      r.value.user == FindUserByOAuth(old(db.users), info.id, provider).value && db.users == old(db.users)
    ensures r.Ok? && FindUserByOAuth(old(db.users), info.id, provider).None? ==>
      r.value.user == FreshAccount(info, provider).(id := old(db.nextUserId)) && db.users == old(db.users) + [r.value.user]
    ensures r.Ok? && !io.cacheFail ==>
      store.kv == old(store.kv)[Cache.UserProfileKey(r.value.user.id) := Cache.UserBlob(r.value.user)]
    ensures !(r.Ok? && !io.cacheFail) ==> store.kv == old(store.kv)
  {
    var user := FindOrCreate(db, info, provider, io);
    if user.Err? {
      return Err(user.msg);
    }
    var jwt := sign(user.value.id, info.email);
    if jwt.None? {
      return Err("failed to generate token");
    }
    var _ := store.SetUserProfile(user.value.id, Cache.UserBlob(user.value), io.cacheFail);
    r := Ok(AuthResponse(jwt.value, user.value));
  }

  /** AuthenticateOAuth: verify the provider token, then sign in. */
  method AuthenticateOAuth(db: Db, store: Cache.Store, provider: string, token: string, domain: string,
                           clientId: string, net: OAuth.Net, sign: (Id, string) -> Option<string>, io: SignInIo)
    returns (r: Result<AuthResponse>)
    requires db.Valid()
    modifies db`users, db`nextUserId, store`kv, store`ttl
    ensures db.Valid()
    ensures !OAuth.Verifies(provider, token, domain, clientId, net) ==>
      r == Err("failed to verify OAuth token") && db.users == old(db.users) && store.kv == old(store.kv)
    ensures OAuth.Verifies(provider, token, domain, clientId, net) ==>
      (r.Ok? <==> SignInSucceeds(old(db.users), old(db.nextUserId),
                                 OAuth.VerifiedInfo(provider, token, domain, clientId, net), provider, sign, io)) &&
      (r.Ok? ==> r.value.user == SignInAccount(old(db.users), old(db.nextUserId),
                                               OAuth.VerifiedInfo(provider, token, domain, clientId, net), provider))
    ensures r.Ok? ==> OAuth.Supported(provider) && r.value.user in db.users && r.value.user.oauthProvider == Some(provider)
    ensures r.Err? ==> store.kv == old(store.kv)
  {
    var verified := OAuth.VerifyOAuthToken(provider, token, domain, clientId, net);
    if verified.Err? {
      return Err("failed to verify OAuth token");
    }
    r := SignIn(db, store, verified.value, provider, sign, io);
  }

  // ---------------------------------------------------------- user read

  /** Failures of the round trips GetUserByID makes. */
  datatype ReadIo = ReadIo(cacheGetFail: bool, queryFail: bool, cacheSetFail: bool)

  predicate CachedUser(kv: map<string, Cache.Blob>, userId: Id) {
    Cache.UserProfileKey(userId) in kv && kv[Cache.UserProfileKey(userId)].UserBlob?
  }

  /** GetUserByID: a decodable cached profile is returned as is; otherwise
      the user is read and, when found, cached. An unknown user is absent,
      not an error. */
  method GetUserByID(db: Db, store: Cache.Store, userId: Id, io: ReadIo) returns (r: Result<Option<User>>)
    requires db.Valid()
    modifies store`kv, store`ttl
    ensures !io.cacheGetFail && CachedUser(old(store.kv), userId) ==>
      r == Ok(Some(old(store.kv)[Cache.UserProfileKey(userId)].user)) && store.kv == old(store.kv)
    ensures !(!io.cacheGetFail && CachedUser(old(store.kv), userId)) ==>
      (r.Ok? <==> !io.queryFail) &&
      (r.Ok? ==> r.value == FindUser(db.users, userId)) &&
      (r.Ok? && r.value.Some? && !io.cacheSetFail ==>
        store.kv == old(store.kv)[Cache.UserProfileKey(userId) := Cache.UserBlob(r.value.value)]) &&
      (r.Ok? && r.value.None? ==> store.kv == old(store.kv)) &&
      (r.Err? ==> r.msg == "failed to get user" && store.kv == old(store.kv))
  {
    var cached := store.GetUserProfile(userId, io.cacheGetFail);
    if cached.Some? && cached.value.UserBlob? {
      return Ok(Some(cached.value.user));
    }
    var found := UserRepository.GetByID(db, userId, io.queryFail);
    if found.Err? {
      return Err("failed to get user");
    }
    if found.value.Some? {
      FindUserUnique(db.users, db.nextUserId, found.value.value);
      var _ := store.SetUserProfile(userId, Cache.UserBlob(found.value.value), io.cacheSetFail);
    } else {
      assert FindUser(db.users, userId).None?;
    }
    r := found;
  }

  // ------------------------------------------------------ partial update

  /** A present (non-nil) field overwrites, an absent one keeps the old value. */
  function Or<T>(given: Option<T>, old_: Option<T>): Option<T> {
    if given.Some? then given else old_
  }

  /** The record UpdateUser builds: each present request field overwrites the
      user's; id, OAuth fields, e-mail and rank are not in the request. */
  function Merge(u: User, req: UpdateUserRequest): (r: User)
    ensures r.id == u.id && r.oauthId == u.oauthId && r.oauthProvider == u.oauthProvider
    ensures r.email == u.email && r.rank == u.rank
  {
    u.(name := req.name.GetOr(u.name),
       firstName := Or(req.firstName, u.firstName),
       lastName := Or(req.lastName, u.lastName),
       age := Or(req.age, u.age),
       gender := Or(req.gender, u.gender),
       location := Or(req.location, u.location),
       latitude := Or(req.latitude, u.latitude),
       longitude := Or(req.longitude, u.longitude),
       profilePicUrl := Or(req.profilePicUrl, u.profilePicUrl),
       bio := Or(req.bio, u.bio),
       sportPreferences := req.sportPreferences.GetOr(u.sportPreferences),
       skillLevel := Or(req.skillLevel, u.skillLevel),
       playStyle := Or(req.playStyle, u.playStyle),
       preferredTimeslots := Or(req.preferredTimeslots, u.preferredTimeslots),
       availability := req.availability.GetOr(u.availability),
       ntrpRating := Or(req.ntrpRating, u.ntrpRating))
  }

  /** An all-absent request changes nothing. */
  lemma MergeEmpty(u: User)
    ensures Merge(u, EmptyUpdate) == u
  {
  }

  /** Applying the same request twice gives what applying it once gives. */
  lemma MergeIdempotent(u: User, req: UpdateUserRequest)
    ensures Merge(Merge(u, req), req) == Merge(u, req)
  {
  }

  /** Every present field ends up in the result; every absent one keeps the
      user's value. */
  lemma MergeOverwrites(u: User, req: UpdateUserRequest)
    ensures req.name.Some? ==> Merge(u, req).name == req.name.value
    ensures req.name.None? ==> Merge(u, req).name == u.name
    ensures req.sportPreferences.Some? ==> Merge(u, req).sportPreferences == req.sportPreferences.value
    ensures req.sportPreferences.None? ==> Merge(u, req).sportPreferences == u.sportPreferences
    ensures req.availability.Some? ==> Merge(u, req).availability == req.availability.value
    ensures req.availability.None? ==> Merge(u, req).availability == u.availability
    ensures req.firstName.Some? ==> Merge(u, req).firstName == req.firstName
    ensures req.firstName.None? ==> Merge(u, req).firstName == u.firstName
    ensures req.lastName.Some? ==> Merge(u, req).lastName == req.lastName
    ensures req.lastName.None? ==> Merge(u, req).lastName == u.lastName
    ensures req.age.Some? ==> Merge(u, req).age == req.age
    ensures req.age.None? ==> Merge(u, req).age == u.age
    ensures req.gender.Some? ==> Merge(u, req).gender == req.gender
    ensures req.gender.None? ==> Merge(u, req).gender == u.gender
    ensures req.location.Some? ==> Merge(u, req).location == req.location
    ensures req.location.None? ==> Merge(u, req).location == u.location
    ensures req.latitude.Some? ==> Merge(u, req).latitude == req.latitude
    ensures req.latitude.None? ==> Merge(u, req).latitude == u.latitude
    ensures req.longitude.Some? ==> Merge(u, req).longitude == req.longitude
    ensures req.longitude.None? ==> Merge(u, req).longitude == u.longitude
    ensures req.profilePicUrl.Some? ==> Merge(u, req).profilePicUrl == req.profilePicUrl
    ensures req.profilePicUrl.None? ==> Merge(u, req).profilePicUrl == u.profilePicUrl
    ensures req.bio.Some? ==> Merge(u, req).bio == req.bio
    ensures req.bio.None? ==> Merge(u, req).bio == u.bio
    ensures req.skillLevel.Some? ==> Merge(u, req).skillLevel == req.skillLevel
    ensures req.skillLevel.None? ==> Merge(u, req).skillLevel == u.skillLevel
    ensures req.playStyle.Some? ==> Merge(u, req).playStyle == req.playStyle
    ensures req.playStyle.None? ==> Merge(u, req).playStyle == u.playStyle
    ensures req.preferredTimeslots.Some? ==> Merge(u, req).preferredTimeslots == req.preferredTimeslots
    ensures req.preferredTimeslots.None? ==> Merge(u, req).preferredTimeslots == u.preferredTimeslots
    ensures req.ntrpRating.Some? ==> Merge(u, req).ntrpRating == req.ntrpRating
    ensures req.ntrpRating.None? ==> Merge(u, req).ntrpRating == u.ntrpRating
  {
  }

  /** The field-by-field overwrite of UpdateUser, in four runs of fields. */
  method ApplyUpdate(u: User, req: UpdateUserRequest) returns (user: User)
    ensures user == Merge(u, req)
  {
    user := ApplyNames(u, req);
    user := ApplyPlace(user, req);
    user := ApplyProfile(user, req);
    user := ApplyPlay(user, req);
  }

  method ApplyNames(u: User, req: UpdateUserRequest) returns (user: User)
    ensures user == u.(name := req.name.GetOr(u.name), firstName := Or(req.firstName, u.firstName),
                       lastName := Or(req.lastName, u.lastName), age := Or(req.age, u.age))
  {
    user := u;
    if req.name.Some? { user := user.(name := req.name.value); }
    if req.firstName.Some? { user := user.(firstName := req.firstName); }
    if req.lastName.Some? { user := user.(lastName := req.lastName); }
    if req.age.Some? { user := user.(age := req.age); }
  }

  method ApplyPlace(u: User, req: UpdateUserRequest) returns (user: User)
    ensures user == u.(gender := Or(req.gender, u.gender), location := Or(req.location, u.location),
                       latitude := Or(req.latitude, u.latitude), longitude := Or(req.longitude, u.longitude))
  {
    user := u;
    if req.gender.Some? { user := user.(gender := req.gender); }
    if req.location.Some? { user := user.(location := req.location); }
    if req.latitude.Some? { user := user.(latitude := req.latitude); }
    if req.longitude.Some? { user := user.(longitude := req.longitude); }
  }

  method ApplyProfile(u: User, req: UpdateUserRequest) returns (user: User)
    ensures user == u.(profilePicUrl := Or(req.profilePicUrl, u.profilePicUrl), bio := Or(req.bio, u.bio),
                       sportPreferences := req.sportPreferences.GetOr(u.sportPreferences),
                       skillLevel := Or(req.skillLevel, u.skillLevel))
  {
    user := u;
    if req.profilePicUrl.Some? { user := user.(profilePicUrl := req.profilePicUrl); }
    if req.bio.Some? { user := user.(bio := req.bio); }
    if req.sportPreferences.Some? { user := user.(sportPreferences := req.sportPreferences.value); }
    if req.skillLevel.Some? { user := user.(skillLevel := req.skillLevel); }
  }

  method ApplyPlay(u: User, req: UpdateUserRequest) returns (user: User)
    ensures user == u.(playStyle := Or(req.playStyle, u.playStyle),
                       preferredTimeslots := Or(req.preferredTimeslots, u.preferredTimeslots),
                       availability := req.availability.GetOr(u.availability),
                       ntrpRating := Or(req.ntrpRating, u.ntrpRating))
  {
    user := u;
    if req.playStyle.Some? { user := user.(playStyle := req.playStyle); }
    if req.preferredTimeslots.Some? { user := user.(preferredTimeslots := req.preferredTimeslots); }
    if req.availability.Some? { user := user.(availability := req.availability.value); }
    if req.ntrpRating.Some? { user := user.(ntrpRating := req.ntrpRating); }
  }

  /** Failures of the round trips an update makes. */
  datatype UpdateIo = UpdateIo(getFail: bool, updateFail: bool, cacheFail: bool)

  /** The read-then-write shared by UpdateUser and onboarding: fetch the
      user, or fail with "user not found". */
  method FetchUser(db: Db, userId: Id, getFail: bool) returns (r: Result<User>)
    requires db.Valid()
    ensures getFail ==> r == Err("failed to get user")
    ensures !getFail && FindUser(db.users, userId).None? ==> r == Err("user not found")
    ensures r.Ok? <==> !getFail && FindUser(db.users, userId).Some?
    ensures r.Ok? ==> r.value == FindUser(db.users, userId).value && r.value in db.users
  {
    var found := UserRepository.GetByID(db, userId, getFail);
    if found.Err? {
      return Err("failed to get user");
    }
    if found.value.None? {
      assert FindUser(db.users, userId).None?;
      return Err("user not found");
    }
    FindUserUnique(db.users, db.nextUserId, found.value.value);
    r := Ok(found.value.value);
  }

  /** Writes the new record, then caches it (a cache failure is ignored). */
  method Save(db: Db, store: Cache.Store, user: User, io: UpdateIo) returns (ok: bool)
    requires db.Valid()
    modifies db`users, store`kv, store`ttl
    ensures db.Valid()
    ensures ok <==> !io.updateFail && UserRepository.CanUpdateUser(old(db.users), user)
    ensures db.users == if ok then UserRepository.UpdatedTable(old(db.users), user) else old(db.users)
    ensures ok && !io.cacheFail ==> store.kv == old(store.kv)[Cache.UserProfileKey(user.id) := Cache.UserBlob(user)]
    ensures !(ok && !io.cacheFail) ==> store.kv == old(store.kv)
  {
    ok := UserRepository.Update(db, user, io.updateFail);
    if ok {
      var _ := store.SetUserProfile(user.id, Cache.UserBlob(user), io.cacheFail);
    }
  }

  /** UpdateUser succeeds: the user is found and the merged record passes
      the update. The profile cache plays no part. */
  predicate UpdateSucceeds(users: seq<User>, userId: Id, req: UpdateUserRequest, io: UpdateIo) {
    !io.getFail && FindUser(users, userId).Some? && !io.updateFail &&
    UserRepository.CanUpdateUser(users, Merge(FindUser(users, userId).value, req))
  }

  /** UpdateUser: merge the request into the stored user and save it. The
      returned and cached record carries the merged first and last name,
      age, NTRP rating and timeslots, which the table does not store. */
  method UpdateUser(db: Db, store: Cache.Store, userId: Id, req: UpdateUserRequest, io: UpdateIo)
    returns (r: Result<User>)
    requires db.Valid()
    modifies db`users, store`kv, store`ttl
    ensures db.Valid()
    ensures io.getFail ==> r == Err("failed to get user")
    ensures !io.getFail && FindUser(old(db.users), userId).None? ==> r == Err("user not found")
    ensures r.Ok? <==> UpdateSucceeds(old(db.users), userId, req, io)
    ensures r.Ok? ==> r.value == Merge(FindUser(old(db.users), userId).value, req) &&
                      db.users == UserRepository.UpdatedTable(old(db.users), r.value)
    ensures r.Err? ==> db.users == old(db.users)
    ensures r.Ok? ==> store.kv == if io.cacheFail then old(store.kv)
                                  else old(store.kv)[Cache.UserProfileKey(userId) := Cache.UserBlob(r.value)]
    ensures r.Err? ==> store.kv == old(store.kv)
  {
    var found := FetchUser(db, userId, io.getFail);
    if found.Err? {
      return Err(found.msg);
    }
    var user := ApplyUpdate(found.value, req);
    var ok := Save(db, store, user, io);
    if !ok {
      return Err("failed to update user");
    }
    r := Ok(user);
  }

  // ---------------------------------------------------------- onboarding

  const SkillLevels: seq<string> := ["beginner", "intermediate", "advanced"]
  const PlayStyles: seq<string> := ["ranked", "fun"]
  const Timeslots: seq<string> := ["weekends-evenings", "anytime-anywhere", "weekends-only", "weekdays-only"]

  /** The placeholder coordinates onboarding stores. */
  const DefaultLatitude: real := 43.6426
  const DefaultLongitude: real := -79.3871

  /** The membership loop of the onboarding validators. */
  method IsOneOf(values: seq<string>, x: string) returns (found: bool)
    ensures found <==> x in values
  {
    found := false;
    var i := 0;
    while i < |values|
      invariant 0 <= i <= |values|
      invariant x !in values[..i]
    {
      if values[i] == x {
        return true;
      }
      i := i + 1;
    }
    assert values[..i] == values;
  }

  /** The first validation onboarding fails, in the order the code checks:
      gender, skill level, play style, timeslot. */
  function OnboardingError(req: ProfileUpdateRequest): (e: Option<string>)
    ensures e.None? <==> IsGender(req.gender) && req.skillLevel in SkillLevels &&
                         req.playStyle in PlayStyles && req.preferredTimeslots in Timeslots
    ensures !IsGender(req.gender) ==> e == Some("invalid gender value")
    ensures IsGender(req.gender) && req.skillLevel !in SkillLevels ==> e == Some("invalid skill level")
  {
    if !IsGender(req.gender) then Some("invalid gender value")
    else if req.skillLevel !in SkillLevels then Some("invalid skill level")
    else if req.playStyle !in PlayStyles then Some("invalid play style")
    else if req.preferredTimeslots !in Timeslots then Some("invalid preferred timeslots")
    else None
  }

  /** The validation of UpdateProfileFromOnboarding, as the code runs it. */
  method ValidateOnboarding(req: ProfileUpdateRequest) returns (e: Option<string>)
    ensures e == OnboardingError(req)
  {
    if req.gender != Male && req.gender != Female && req.gender != OtherGender {
      return Some("invalid gender value");
    }
    var skill := IsOneOf(SkillLevels, req.skillLevel);
    if !skill {
      return Some("invalid skill level");
    }
    if req.playStyle != "ranked" && req.playStyle != "fun" {
      return Some("invalid play style");
    }
    var slot := IsOneOf(Timeslots, req.preferredTimeslots);
    if !slot {
      return Some("invalid preferred timeslots");
    }
    e := None;
  }

  /** The record onboarding builds: every listed field overwritten, and both
      coordinates replaced by the placeholder when either is missing. */
  function Onboard(u: User, req: ProfileUpdateRequest): (r: User)
    ensures r.id == u.id && r.email == u.email && r.rank == u.rank && r.oauthId == u.oauthId
    ensures r.latitude.Some? && r.longitude.Some?
    ensures u.latitude.Some? && u.longitude.Some? ==> r.latitude == u.latitude && r.longitude == u.longitude
  {
    var v := u.(name := req.name, firstName := Some(req.firstName), lastName := Some(req.lastName),
                age := Some(req.age), gender := Some(req.gender), location := Some(req.location),
                skillLevel := Some(req.skillLevel), ntrpRating := Some(req.ntrpRating),
                playStyle := Some(req.playStyle), preferredTimeslots := Some(req.preferredTimeslots),
                bio := Some(req.bio), sportPreferences := req.sportPreferences, availability := req.availability);
    if v.latitude.None? || v.longitude.None? then
      v.(latitude := Some(DefaultLatitude), longitude := Some(DefaultLongitude))
    else v
  }

  /** Onboarding does not depend on the record's earlier profile fields: two
      users with the same id, account fields and coordinates onboard alike. */
  lemma OnboardOverwrites(u: User, w: User, req: ProfileUpdateRequest)
    requires u.id == w.id && u.oauthId == w.oauthId && u.oauthProvider == w.oauthProvider
    requires u.email == w.email && u.rank == w.rank && u.profilePicUrl == w.profilePicUrl
    requires u.latitude == w.latitude && u.longitude == w.longitude
    ensures Onboard(u, req) == Onboard(w, req)
  {
  }

  /** Onboarding reaches the table and writes: the user is found, the request
      is valid and the update succeeds. */
  predicate OnboardingSaved(users: seq<User>, userId: Id, req: ProfileUpdateRequest, io: UpdateIo) {
    !io.getFail && FindUser(users, userId).Some? && OnboardingError(req).None? && !io.updateFail &&
    UserRepository.CanUpdateUser(users, Onboard(FindUser(users, userId).value, req))
  }

  /** UpdateProfileFromOnboarding: fetch, validate (nothing is written when a
      check fails), overwrite, save, cache and sign a new token. A signing
      failure comes after the write, which stays. */
  method UpdateProfileFromOnboarding(db: Db, store: Cache.Store, userId: Id, req: ProfileUpdateRequest,
                                     sign: (Id, string) -> Option<string>, io: UpdateIo)
    returns (r: Result<AuthResponse>)
    requires db.Valid()
    modifies db`users, store`kv, store`ttl
    ensures db.Valid()
    ensures io.getFail ==> r == Err("failed to get user")
    ensures !io.getFail && FindUser(old(db.users), userId).None? ==> r == Err("user not found")
    ensures !io.getFail && FindUser(old(db.users), userId).Some? && OnboardingError(req).Some? ==>
      r == Err(OnboardingError(req).value) && db.users == old(db.users) && store.kv == old(store.kv)
    ensures r.Ok? ==> (OnboardingError(req).None? && FindUser(old(db.users), userId).Some? &&
      r.value.user == Onboard(FindUser(old(db.users), userId).value, req) &&
      db.users == UserRepository.UpdatedTable(old(db.users), r.value.user) &&
      sign(r.value.user.id, r.value.user.email.GetOr("")) == Some(r.value.token))
    ensures OnboardingSaved(old(db.users), userId, req, io) ==>
      var u := Onboard(FindUser(old(db.users), userId).value, req);
      db.users == UserRepository.UpdatedTable(old(db.users), u) &&
      store.kv == (if io.cacheFail then old(store.kv) else old(store.kv)[Cache.UserProfileKey(u.id) := Cache.UserBlob(u)]) &&
      (r.Ok? <==> sign(u.id, u.email.GetOr("")).Some?) &&
      (r.Err? ==> r == Err("failed to generate token"))
    ensures !OnboardingSaved(old(db.users), userId, req, io) ==> r.Err? && db.users == old(db.users)
  {
    var found := FetchUser(db, userId, io.getFail);
    if found.Err? {
      return Err(found.msg);
    }
    var invalid := ValidateOnboarding(req);
    if invalid.Some? {
      return Err(invalid.value);
    }
    var user := Onboard(found.value, req);
    var ok := Save(db, store, user, io);
    if !ok {
      return Err("failed to update user");
    }
    var email := if user.email.Some? then user.email.value else "";
    var jwt := sign(user.id, email);
    if jwt.None? {
      return Err("failed to generate token");
    }
    r := Ok(AuthResponse(jwt.value, user));
  }
}
