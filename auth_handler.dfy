/** AuthHandler (internal/handler/auth_handler.go): the provider whitelist of
    sign-up and login, the profile routes, and the checks and placeholder URL
    of the profile-picture upload. */
module AuthHandler {
  import opened Wrappers
  import opened Models
  import opened Database
  import opened Http
  import Cache
  import Strconv
  import OAuth
  import UserRepository
  import AuthService

  // ------------------------------------------------------ sign-up, login

  /** The body of POST /auth/signup and /auth/login as bound. */
  datatype OAuthRequest = OAuthRequest(provider: string, token: string)

  /** The providers these routes accept. */
  predicate Accepted(provider: string) {
    provider == "google" || provider == "apple" || provider == "facebook"
  }

  /** The whitelist is narrower than the verifier's dispatch: auth0 tokens
      can be verified but these routes refuse them. */
  lemma AcceptedNarrowsSupported(provider: string)
    ensures Accepted(provider) ==> OAuth.Supported(provider)
    ensures OAuth.Supported("auth0") && !Accepted("auth0")
  {
  }

  /** POST /auth/signup and POST /auth/login, whose bodies are the same:
      400 for a binding error or a provider off the whitelist, 401 when
      authentication fails, else the token and the account. */
  method SignupOrLogin(db: Db, store: Cache.Store, body: Result<OAuthRequest>, domain: string, clientId: string,
                       net: OAuth.Net, sign: (Id, string) -> Option<string>, io: AuthService.SignInIo)
    returns (reply: Reply<AuthService.AuthResponse>)
    requires db.Valid()
    modifies db`users, db`nextUserId, store`kv, store`ttl
    ensures db.Valid()
    ensures body.Err? ==> reply == Failure(StatusBadRequest, body.msg)
    ensures body.Ok? && !Accepted(body.value.provider) ==> reply == Failure(StatusBadRequest, "unsupported OAuth provider")
    ensures body.Err? || !Accepted(body.value.provider) ==> db.users == old(db.users) && store.kv == old(store.kv)
    ensures body.Ok? && Accepted(body.value.provider) &&
            !OAuth.Verifies(body.value.provider, body.value.token, domain, clientId, net) ==>
      reply == Failure(StatusUnauthorized, "failed to verify OAuth token") &&
      db.users == old(db.users) && store.kv == old(store.kv)
    ensures reply.Success? <==> (body.Ok? && Accepted(body.value.provider) &&
      OAuth.Verifies(body.value.provider, body.value.token, domain, clientId, net) &&
      AuthService.SignInSucceeds(old(db.users), old(db.nextUserId),
        OAuth.VerifiedInfo(body.value.provider, body.value.token, domain, clientId, net), body.value.provider, sign, io))
    ensures reply.Success? ==> reply.body.user == AuthService.SignInAccount(old(db.users), old(db.nextUserId),
      OAuth.VerifiedInfo(body.value.provider, body.value.token, domain, clientId, net), body.value.provider)
    ensures reply.Success? ==> (reply.status == StatusOK && body.Ok? && Accepted(body.value.provider) &&
      reply.body.user in db.users && reply.body.user.oauthProvider == Some(body.value.provider))
    ensures reply.Failure? ==> reply.status in {StatusBadRequest, StatusUnauthorized}
  {
    if body.Err? {
      return Failure(StatusBadRequest, body.msg);
    }
    var req := body.value;
    if !Accepted(req.provider) {
      return Failure(StatusBadRequest, "unsupported OAuth provider");
    }
    var response := AuthService.AuthenticateOAuth(db, store, req.provider, req.token, domain, clientId, net, sign, io);
    if response.Err? {
      return Failure(StatusUnauthorized, response.msg);
    }
    reply := Success(StatusOK, response.value);
  }

  /** POST /auth/logout: tokens are not revoked, so it always succeeds. */
  function Logout(): (reply: Reply<string>)
    ensures reply.Success? && reply.status == StatusOK
  {
    Success(StatusOK, "Logged out successfully")
  }

  // ------------------------------------------------------------ profile

  /** GET /profile/me. */
  method GetMyProfile(db: Db, store: Cache.Store, caller: Option<Id>, io: AuthService.ReadIo)
    returns (reply: Reply<User>)
    requires db.Valid()
    modifies store`kv, store`ttl
    ensures caller.None? ==> reply == Failure(StatusUnauthorized, NotAuthenticated)
    ensures caller.Some? && !(!io.cacheGetFail && AuthService.CachedUser(old(store.kv), caller.value)) ==>
      (io.queryFail ==> reply == Failure(StatusInternalServerError, "failed to get user")) &&
      (!io.queryFail && FindUser(db.users, caller.value).None? ==> reply == Failure(StatusNotFound, "User not found")) &&
      (!io.queryFail && FindUser(db.users, caller.value).Some? ==>
        reply == Success(StatusOK, FindUser(db.users, caller.value).value)) &&
      (reply.Success? ==> Some(reply.body) == FindUser(db.users, caller.value))
    ensures caller.Some? && !io.cacheGetFail && AuthService.CachedUser(old(store.kv), caller.value) ==>
      reply == Success(StatusOK, old(store.kv)[Cache.UserProfileKey(caller.value)].user)
  {
    if caller.None? {
      return Failure(StatusUnauthorized, NotAuthenticated);
    }
    var user := AuthService.GetUserByID(db, store, caller.value, io);
    if user.Err? {
      return Failure(StatusInternalServerError, user.msg);
    }
    if user.value.None? {
      return Failure(StatusNotFound, "User not found");
    }
    reply := Success(StatusOK, user.value.value);
  }

  /** PUT /profile/me: the partial update; every service error is a 500. */
  method UpdateMyProfile(db: Db, store: Cache.Store, caller: Option<Id>, body: Result<UpdateUserRequest>,
                         io: AuthService.UpdateIo)
    returns (reply: Reply<User>)
    requires db.Valid()
    modifies db`users, store`kv, store`ttl
    ensures db.Valid()
    ensures caller.None? ==> reply == Failure(StatusUnauthorized, NotAuthenticated)
    ensures caller.Some? && body.Err? ==> reply == Failure(StatusBadRequest, body.msg)
    ensures caller.Some? && body.Ok? && !io.getFail && FindUser(old(db.users), caller.value).None? ==>
      reply == Failure(StatusInternalServerError, "user not found")
    ensures caller.Some? && body.Ok? ==>
      (reply.Success? <==> AuthService.UpdateSucceeds(old(db.users), caller.value, body.value, io)) &&
      (reply.Failure? ==> reply.status == StatusInternalServerError)
    ensures reply.Success? ==> (reply.status == StatusOK && caller.Some? && body.Ok? &&
      FindUser(old(db.users), caller.value).Some? &&
      reply.body == AuthService.Merge(FindUser(old(db.users), caller.value).value, body.value) &&
      db.users == UserRepository.UpdatedTable(old(db.users), reply.body))
    ensures reply.Success? ==> store.kv == if io.cacheFail then old(store.kv)
      else old(store.kv)[Cache.UserProfileKey(caller.value) := Cache.UserBlob(reply.body)]
    ensures reply.Failure? ==> db.users == old(db.users) && store.kv == old(store.kv)
  {
    if caller.None? {
      return Failure(StatusUnauthorized, NotAuthenticated);
    }
    if body.Err? {
      return Failure(StatusBadRequest, body.msg);
    }
    var user := AuthService.UpdateUser(db, store, caller.value, body.value, io);
    if user.Err? {
      return Failure(StatusInternalServerError, user.msg);
    }
    reply := Success(StatusOK, user.value);
  }

  // ----------------------------------------------------- picture upload

  /** The multipart file's Content-Type header and size in bytes. */
  datatype Upload = Upload(contentType: string, size: int)

  const MaxPictureBytes: int := 5 * 1024 * 1024

  predicate IsPictureType(t: string) {
    t == "image/jpeg" || t == "image/png" || t == "image/webp"
  }

  /** The upload checks, in order: a file, an accepted type, at most 5 MiB. */
  function PictureError(file: Option<Upload>): (r: Option<string>)
    ensures file.None? ==> r == Some("No file uploaded")
    ensures file.Some? && !IsPictureType(file.value.contentType) ==>
      r == Some("Invalid file type. Only JPEG, PNG, and WebP are allowed")
    ensures file.Some? && IsPictureType(file.value.contentType) && file.value.size > MaxPictureBytes ==>
      r == Some("File too large. Maximum size is 5MB")
    ensures r.None? <==> file.Some? && IsPictureType(file.value.contentType) && file.value.size <= MaxPictureBytes
  {
    if file.None? then Some("No file uploaded")
    else if !IsPictureType(file.value.contentType) then Some("Invalid file type. Only JPEG, PNG, and WebP are allowed")
    else if file.value.size > MaxPictureBytes then Some("File too large. Maximum size is 5MB")
    else None
  }

  /** The bound is inclusive: exactly 5 MiB passes, one byte more does not. */
  lemma FiveMiBBoundary(t: string)
    requires IsPictureType(t)
    ensures PictureError(Some(Upload(t, 5242880))).None?
    ensures PictureError(Some(Upload(t, 5242881))) == Some("File too large. Maximum size is 5MB")
  {
  }

  const PicturePrefix: string := "https://example.com/profile-pictures/"
  const PictureSuffix: string := ".jpg"

  /** The placeholder URL of a user's picture. */
  function PictureUrl(userId: Id): (url: string)
    ensures |url| > |PicturePrefix| + |PictureSuffix|
    ensures url[..|PicturePrefix|] == PicturePrefix && url[|url| - |PictureSuffix|..] == PictureSuffix
    ensures url[|PicturePrefix|..|url| - |PictureSuffix|] == Strconv.FormatInt(userId)
  {
    var url := PicturePrefix + Strconv.FormatInt(userId) + PictureSuffix;
    assert url[|PicturePrefix|..|url| - |PictureSuffix|] == Strconv.FormatInt(userId);
    url
  }

  /** The URL names its user: the text between prefix and suffix parses
      back to the id, so two users never share a URL. */
  lemma PictureUrlNamesUser(a: Id, b: Id)
    requires Strconv.MinInt64 <= a <= Strconv.MaxInt64
    ensures var url := PictureUrl(a);
      Strconv.ParseInt(url[|PicturePrefix|..|url| - |PictureSuffix|]) == Some(a)
    ensures PictureUrl(a) == PictureUrl(b) ==> a == b
  {
    Strconv.ParseFormatRoundTrip(a);
    if PictureUrl(a) == PictureUrl(b) {
      Strconv.FormatIntInjective(a, b);
    }
  }

  /** The update the upload asks for: the picture URL and nothing else. */
  function PictureUpdate(userId: Id): (req: UpdateUserRequest)
    ensures forall u: User :: AuthService.Merge(u, req) == u.(profilePicUrl := Some(PictureUrl(userId)))
  {
    EmptyUpdate.(profilePicUrl := Some(PictureUrl(userId)))
  }

  datatype PictureReply = PictureReply(profilePicUrl: string, user: User)

  /** POST /profile/picture: after the checks only the user's picture URL
      changes, to the placeholder URL. */
  method UploadProfilePicture(db: Db, store: Cache.Store, caller: Option<Id>, file: Option<Upload>,
                              io: AuthService.UpdateIo)
    returns (reply: Reply<PictureReply>)
    requires db.Valid()
    modifies db`users, store`kv, store`ttl
    ensures db.Valid()
    ensures caller.None? ==> reply == Failure(StatusUnauthorized, NotAuthenticated)
    ensures caller.Some? && PictureError(file).Some? ==>
      reply == Failure(StatusBadRequest, PictureError(file).value) && store.kv == old(store.kv)
    ensures caller.None? || PictureError(file).Some? ==> db.users == old(db.users)
    ensures caller.Some? && PictureError(file).None? ==>
      (reply.Success? <==> AuthService.UpdateSucceeds(old(db.users), caller.value, PictureUpdate(caller.value), io)) &&
      (reply.Failure? ==> reply.status == StatusInternalServerError)
    ensures reply.Success? ==> (reply.status == StatusOK && caller.Some? && PictureError(file).None? &&
      FindUser(old(db.users), caller.value).Some? &&
      reply.body.profilePicUrl == PictureUrl(caller.value) &&
      reply.body.user == FindUser(old(db.users), caller.value).value.(profilePicUrl := Some(PictureUrl(caller.value))) &&
      db.users == UserRepository.UpdatedTable(old(db.users), reply.body.user))
    ensures reply.Success? ==> store.kv == if io.cacheFail then old(store.kv)
      else old(store.kv)[Cache.UserProfileKey(caller.value) := Cache.UserBlob(reply.body.user)]
    ensures reply.Failure? ==> db.users == old(db.users) && store.kv == old(store.kv)
    ensures reply.Failure? ==> reply.status in {StatusUnauthorized, StatusBadRequest, StatusInternalServerError}
  {
    if caller.None? {
      return Failure(StatusUnauthorized, NotAuthenticated);
    }
    var refusal := PictureError(file);
    if refusal.Some? {
      return Failure(StatusBadRequest, refusal.value);
    }
    var url := PictureUrl(caller.value);
    var user := AuthService.UpdateUser(db, store, caller.value, PictureUpdate(caller.value), io);
    if user.Err? {
      return Failure(StatusInternalServerError, user.msg);
    }
    reply := Success(StatusOK, PictureReply(url, user.value));
  }
}
