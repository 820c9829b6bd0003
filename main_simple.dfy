/** The stand-alone server of main_simple.go: configuration from the
    environment, the bearer-token middleware, the Auth0-only sign-up and
    login with a placeholder token reader, and the profile routes over its
    own users table, which stores every column of the User record. */
module MainSimple {
  import opened Wrappers
  import opened Models
  import opened Database
  import opened Http
  import Strs
  import UserRepository
  import AuthService

  // ------------------------------------------------------ configuration

  /** getEnv: the variable's value when it is set and non-empty, else the
      default. */
  function GetEnv(env: map<string, string>, key: string, default: string): (v: string)
    ensures key in env && env[key] != "" ==> v == env[key]
    ensures !(key in env && env[key] != "") ==> v == default
    ensures v == "" ==> default == ""
  {
    if key in env && env[key] != "" then env[key] else default
  }

  datatype Config = Config(dbHost: string, dbPort: string, dbUser: string, dbPassword: string,
                           dbName: string, jwtSecret: string, port: string)

  /** getConfig. */
  function ConfigOf(env: map<string, string>): (c: Config)
    ensures c.port != "" && c.dbHost != "" && c.jwtSecret != ""
    ensures "PORT" in env && env["PORT"] != "" ==> c.port == env["PORT"]
  {
    Config(GetEnv(env, "DB_HOST", "localhost"), GetEnv(env, "DB_PORT", "3306"), GetEnv(env, "DB_USER", "root"),
           GetEnv(env, "DB_PASSWORD", "password"), GetEnv(env, "DB_NAME", "swipe_sports"),
           GetEnv(env, "JWT_SECRET", "your-super-secret-jwt-key-change-in-production"), GetEnv(env, "PORT", "8080"))
  }

  /** A variable set to the empty string counts as unset. */
  lemma EmptyVariableIsUnset(env: map<string, string>, key: string, default: string)
    ensures GetEnv(env[key := ""], key, default) == GetEnv(env - {key}, key, default) == default
  {
  }

  // --------------------------------------------------------- middleware

  const BearerScheme: string := "Bearer"

  /** The header checks of authMiddleware: present, and split on single
      spaces into exactly "Bearer" and the token. */
  function ParseBearer(header: string): (r: Result<string>)
    ensures header == "" ==> r == Err("Authorization header required")
    ensures header != "" && r.Err? ==> r == Err("Invalid authorization header format")
    ensures r.Ok? ==> ' ' !in r.value
  {
    if header == "" then Err("Authorization header required")
    else
      var parts := Strs.Split(header, ' ');
      if |parts| != 2 || parts[0] != BearerScheme then Err("Invalid authorization header format")
      else
        Strs.SplitPiecesFree(header, ' ');
        Ok(parts[1])
  }

  /** A header is accepted exactly when it is "Bearer", one space and a
      token holding no space; the token is what follows that space. */
  lemma ParseBearerExactly(header: string, token: string)
    ensures ParseBearer(header) == Ok(token) <==> header == BearerScheme + " " + token && ' ' !in token
  {
    if header == BearerScheme + " " + token && ' ' !in token {
      assert header == BearerScheme + [' '] + token;
      Strs.SplitOfJoined(BearerScheme, token, ' ');
    }
    if ParseBearer(header) == Ok(token) {
      Strs.SplitTwo(header, ' ');
    }
  }

  /** The scheme is matched case-sensitively and the separator is one
      space: a doubled space or a lower-case scheme is refused. */
  lemma StrictBearer(token: string)
    ensures ParseBearer("Bearer  " + token) == Err("Invalid authorization header format")
    ensures ParseBearer("bearer " + token) == Err("Invalid authorization header format")
  {
    var h := "Bearer  " + token;
    var v := if ParseBearer(h).Ok? then ParseBearer(h).value else "";
    ParseBearerExactly(h, v);
    assert (BearerScheme + " " + v)[7..] == v;
    assert h[7..] == " " + token;
    assert (" " + token)[0] == ' ';
    var g := "bearer " + token;
    var w := if ParseBearer(g).Ok? then ParseBearer(g).value else "";
    ParseBearerExactly(g, w);
    assert (BearerScheme + " " + w)[0] == 'B';
    assert g[0] == 'b';
  }

  /** The claims the middleware puts into the request context. */
  datatype Claims = Claims(userId: Id, email: string)

  /** authMiddleware: 401 for a missing or malformed header or a token that
      does not validate; otherwise the token's claims identify the caller.
      Token validation (JWT signature and expiry) comes in as `validate`. */
  function Authenticate(header: string, validate: string -> Option<Claims>): (r: Result<Claims>)
    ensures r.Ok? <==> ParseBearer(header).Ok? && validate(ParseBearer(header).value).Some?
    ensures r.Ok? ==> Some(r.value) == validate(ParseBearer(header).value)
    ensures ParseBearer(header).Err? ==> r == Err(ParseBearer(header).msg)
    ensures ParseBearer(header).Ok? && r.Err? ==> r == Err("Invalid or expired token")
  {
    match ParseBearer(header)
    case Err(e) => Err(e)
    case Ok(token) =>
      match validate(token)
      case None => Err("Invalid or expired token")
      case Some(claims) => Ok(claims)
  }

  // ---------------------------------------------------------- the table

  /** UPDATE users SET every column but id and the OAuth pair WHERE id = ?. */
  function Rewritten(row: User, u: User): (r: User)
    ensures r.id == row.id && r.oauthId == row.oauthId && r.oauthProvider == row.oauthProvider
    ensures r.(id := u.id, oauthId := u.oauthId, oauthProvider := u.oauthProvider) == u
  {
    u.(id := row.id, oauthId := row.oauthId, oauthProvider := row.oauthProvider)
  }

  function RewrittenTable(t: seq<User>, u: User): (r: seq<User>)
    ensures |r| == |t|
    ensures forall i :: 0 <= i < |t| ==> r[i] == if t[i].id == u.id then Rewritten(t[i], u) else t[i]
  {
    seq(|t|, i requires 0 <= i < |t| => if t[i].id == u.id then Rewritten(t[i], u) else t[i])
  }

  /** The constraints of this server's users table: ascending ids, unique
      oauth_id and email, and the gender ENUM. */
  ghost predicate TableOk(t: seq<User>, next: Id) {
    UserIdsOk(t, next) && UsersUnique(t) && forall i :: 0 <= i < |t| ==> GenderColumnOk(t[i])
  }

  lemma {:induction false} TableAppend(t: seq<User>, next: Id, u: User)
    requires TableOk(t, next) && u.id == next && UserRepository.CanInsertUser(t, u)
    ensures TableOk(t + [u], next + 1)
  {
    var t' := t + [u];
    forall i, j | 0 <= i < j < |t'|
      ensures t'[i].id < t'[j].id
      ensures t'[i].oauthId.Some? ==> t'[i].oauthId != t'[j].oauthId
      ensures t'[i].email.Some? ==> t'[i].email != t'[j].email
    {
      assert t'[i] == t[i];
      if j == |t| { assert t[i] in t; } else { assert t'[j] == t[j]; }
    }
    forall i | 0 <= i < |t'| ensures 0 < t'[i].id < next + 1 && GenderColumnOk(t'[i]) {
      if i < |t| { assert t'[i] == t[i]; }
    }
  }

  lemma {:induction false} TableRewrite(t: seq<User>, next: Id, u: User)
    requires TableOk(t, next) && UserRepository.CanUpdateUser(t, u)
    ensures TableOk(RewrittenTable(t, u), next)
  {
    var r := RewrittenTable(t, u);
    forall i, j | 0 <= i < j < |r|
      ensures r[i].id < r[j].id
      ensures r[i].oauthId.Some? ==> r[i].oauthId != r[j].oauthId
      ensures r[i].email.Some? ==> r[i].email != r[j].email
    {
      if t[i].id == u.id {
        assert t[j] in t;
      } else if t[j].id == u.id {
        assert t[i] in t;
      }
    }
  }

  /** The users table of this server. */
  class Users {
    var rows: seq<User>
    var nextId: Id

    ghost predicate Valid()
      reads this
    {
      TableOk(rows, nextId)
    }

    constructor ()
      ensures Valid() && rows == []
    {
      rows, nextId := [], 1;
    }

    /** CreateUser: every column is inserted, and the record gets the id. */
    method CreateUser(u: User, fail: bool) returns (r: Result<User>)
      requires Valid()
      modifies this
      ensures Valid()
      ensures r.Ok? <==> !fail && UserRepository.CanInsertUser(old(rows), u)
      ensures r.Ok? ==> r.value == u.(id := old(nextId)) && rows == old(rows) + [r.value] && nextId == old(nextId) + 1
      ensures r.Err? ==> r == Err("failed to create user") && rows == old(rows) && nextId == old(nextId)
    {
      if fail || !UserRepository.CanInsertUser(rows, u) {
        return Err("failed to create user");
      }
      var row := u.(id := nextId);
      TableAppend(rows, nextId, row);
      rows := rows + [row];
      nextId := nextId + 1;
      r := Ok(row);
    }

    /** GetUserByID: absent, not an error, when no row has the id. */
    method GetUserByID(id: Id, fail: bool) returns (r: Result<Option<User>>)
      ensures fail ==> r == Err("failed to get user by id")
      ensures r.Ok? <==> !fail
      ensures r.Ok? ==> r.value == FindUser(rows, id)
    {
      if fail {
        return Err("failed to get user by id");
      }
      r := Ok(FindUser(rows, id));
    }

    /** GetUserByOAuthID: absent when no row has that (oauth id, provider). */
    method GetUserByOAuthID(oauthId: string, provider: string, fail: bool) returns (r: Result<Option<User>>)
      ensures fail ==> r == Err("failed to get user by oauth id")
      ensures r.Ok? <==> !fail
      ensures r.Ok? ==> r.value == FindUserByOAuth(rows, oauthId, provider)
    {
      if fail {
        return Err("failed to get user by oauth id");
      }
      r := Ok(FindUserByOAuth(rows, oauthId, provider));
    }

    /** UpdateUser: every column but id and the OAuth pair is written; no row
      with the id means nothing changes. */
    method UpdateUser(u: User, fail: bool) returns (ok: bool)
      requires Valid()
      modifies this`rows
      ensures Valid()
      ensures ok <==> !fail && UserRepository.CanUpdateUser(old(rows), u)
      ensures rows == if ok then RewrittenTable(old(rows), u) else old(rows)
    {
      if fail || !UserRepository.CanUpdateUser(rows, u) {
        return false;
      }
      TableRewrite(rows, nextId, u);
      rows := RewrittenTable(rows, u);
      ok := true;
    }
  }

  /** Writing back a row's own record with new profile fields changes that
      row and only it. */
  lemma {:induction false} RewriteOwnRow(t: seq<User>, next: Id, row: User, u: User)
    requires UserIdsOk(t, next) && row in t
    requires u.id == row.id && u.oauthId == row.oauthId && u.oauthProvider == row.oauthProvider
    ensures FindUser(RewrittenTable(t, u), u.id) == Some(u)
    ensures forall other :: other != u.id ==> FindUser(RewrittenTable(t, u), other) == FindUser(t, other)
  {
    var r := RewrittenTable(t, u);
    var k :| 0 <= k < |t| && t[k] == row;
    assert r[k] == u;
    assert UserIdsOk(r, next) by {
      assert forall i :: 0 <= i < |r| ==> r[i].id == t[i].id;
    }
    FindUserUnique(r, next, r[k]);
    forall other | other != u.id ensures FindUser(r, other) == FindUser(t, other) {
      var f := FindUser(t, other);
      if f.Some? {
        var m :| 0 <= m < |t| && t[m] == f.value;
        assert r[m] == t[m];
        FindUserUnique(r, next, r[m]);
      } else {
        forall x | x in r ensures x.id != other {
          var m :| 0 <= m < |r| && r[m] == x;
          assert t[m] in t;
        }
      }
    }
  }

  // ----------------------------------------------- the Auth0 placeholder

  /** What the placeholder token reader returns. */
  datatype Auth0Identity = Auth0Identity(oauthId: string, email: string, name: string)

  const Auth0Prefix: string := "auth0|"
  const PlaceholderEmail: string := "user@example.com"
  const PlaceholderName: string := "Test User"
  /** How much of the token the placeholder keeps. */
  const TokenPrefixLength: nat := 10

  /** A Go call that either returns or panics at run time. */
  datatype Run<T> = Returns(value: T) | Panics

  /** verifyAuth0Token as written: token[0:10] is sliced without a length
      check, which panics on a token shorter than ten bytes. */
  function VerifyAuth0TokenAsWritten(token: string): (r: Run<Auth0Identity>)
    ensures r.Panics? <==> |token| < TokenPrefixLength
    ensures r.Returns? ==> (|r.value.oauthId| == |Auth0Prefix| + TokenPrefixLength &&
      r.value.oauthId[..|Auth0Prefix|] == Auth0Prefix &&
      r.value.oauthId[|Auth0Prefix|..] == token[..TokenPrefixLength])
  {
    if |token| < TokenPrefixLength then Panics
    else Returns(Auth0Identity(Auth0Prefix + token[..TokenPrefixLength], PlaceholderEmail, PlaceholderName))
  }

  /** A three-character token passes the binding (the field is only
      required to be non-empty) and reaches the slice, which panics. */
  lemma ShortTokenPanics()
    ensures VerifyAuth0TokenAsWritten("abc") == Panics
  {
  }

  /** verifyAuth0Token corrected: a token too short to slice is an invalid
      token, reported through the error result the handlers already map to
      401; every other token reads as before. */
  function VerifyAuth0Token(token: string): (r: Result<Auth0Identity>)
    ensures r.Err? <==> |token| < TokenPrefixLength
    ensures r.Ok? ==> VerifyAuth0TokenAsWritten(token) == Returns(r.value)
    ensures r.Ok? ==> (|r.value.oauthId| == |Auth0Prefix| + TokenPrefixLength &&
      r.value.email == PlaceholderEmail && r.value.name == PlaceholderName)
  {
    if |token| < TokenPrefixLength then Err("token too short")
    else Ok(Auth0Identity(Auth0Prefix + token[..TokenPrefixLength], PlaceholderEmail, PlaceholderName))
  }

  /** The placeholder identity depends on the first ten characters only:
      tokens that share them sign in as the same account. */
  lemma SharedPrefixSameAccount(t1: string, t2: string)
    requires |t1| >= TokenPrefixLength && |t2| >= TokenPrefixLength
    requires t1[..TokenPrefixLength] == t2[..TokenPrefixLength]
    ensures VerifyAuth0Token(t1) == VerifyAuth0Token(t2)
    ensures VerifyAuth0Token(t1).Ok?
  {
  }

  // ---------------------------------------------------- sign-up, login

  datatype AuthRequest = AuthRequest(provider: string, token: string)

  /** Failures of the two database round trips of sign-up and login. */
  datatype SignInIo = SignInIo(lookupFail: bool, createFail: bool)

  /** The account a first sign-in creates. */
  function Auth0Account(id: Auth0Identity): (u: User)
    ensures u.rank == DefaultRank && u.oauthId == Some(id.oauthId) && u.oauthProvider == Some("auth0")
    ensures u.email == Some(id.email) && u.name == id.name
  {
    NewOAuthUser(id.oauthId, "auth0", id.name, id.email)
  }

  /** Every placeholder identity carries the same e-mail, which the table
      keeps unique: once one account exists, a sign-in under any other
      oauth id cannot create its account. */
  lemma SecondAccountRefused(t: seq<User>, existing: User, token: string)
    requires existing in t && existing.email == Some(PlaceholderEmail)
    requires VerifyAuth0Token(token).Ok?
    ensures !UserRepository.CanInsertUser(t, Auth0Account(VerifyAuth0Token(token).value))
  {
  }

  /** The account a sign-in ends with: the stored auth0 account of the
      identity, or a fresh one with the next id. */
  function Auth0SignInAccount(rows: seq<User>, nextId: Id, ident: Auth0Identity): User {
    match FindUserByOAuth(rows, ident.oauthId, "auth0")
    case Some(u) => u
    case None => Auth0Account(ident).(id := nextId)
  }

  /** Sign-in of a verified identity succeeds: the lookup works, a missing
      account can be created, and a token is signed. */
  predicate Auth0SignInSucceeds(rows: seq<User>, nextId: Id, ident: Auth0Identity,
                                sign: (Id, string) -> Option<string>, io: SignInIo) {
    !io.lookupFail &&
    (FindUserByOAuth(rows, ident.oauthId, "auth0").None? ==>
      !io.createFail && UserRepository.CanInsertUser(rows, Auth0Account(ident))) &&
    sign(Auth0SignInAccount(rows, nextId, ident).id, ident.email).Some?
  }

  /** POST /auth/signup and POST /auth/login, whose bodies are the same: the
      Auth0 identity is looked up by (oauth id, "auth0") and created when
      absent; the token is signed for the account's id and the placeholder
      e-mail. */
  method SignupOrLogin(users: Users, body: Result<AuthRequest>, sign: (Id, string) -> Option<string>, io: SignInIo)
    returns (reply: Reply<AuthService.AuthResponse>)
    requires users.Valid()
    modifies users
    ensures users.Valid()
    ensures body.Err? ==> reply == Failure(StatusBadRequest, body.msg)
    ensures body.Ok? && body.value.provider != "auth0" ==> reply == Failure(StatusBadRequest, "Only auth0 provider supported")
    ensures body.Ok? && body.value.provider == "auth0" && VerifyAuth0Token(body.value.token).Err? ==>
      reply == Failure(StatusUnauthorized, "Invalid token")
    ensures body.Ok? && body.value.provider == "auth0" && VerifyAuth0Token(body.value.token).Ok? && io.lookupFail ==>
      reply == Failure(StatusInternalServerError, "Database error")
    ensures body.Ok? && body.value.provider == "auth0" && VerifyAuth0Token(body.value.token).Ok? && !io.lookupFail &&
            FindUserByOAuth(old(users.rows), VerifyAuth0Token(body.value.token).value.oauthId, "auth0").None? &&
            !UserRepository.CanInsertUser(old(users.rows), Auth0Account(VerifyAuth0Token(body.value.token).value)) ==>
      reply == Failure(StatusInternalServerError, "Failed to create user")
    ensures reply.Success? <==> (body.Ok? && body.value.provider == "auth0" && VerifyAuth0Token(body.value.token).Ok? &&
      Auth0SignInSucceeds(old(users.rows), old(users.nextId), VerifyAuth0Token(body.value.token).value, sign, io))
    ensures reply.Success? ==>
      reply.body.user == Auth0SignInAccount(old(users.rows), old(users.nextId), VerifyAuth0Token(body.value.token).value)
    ensures reply.Success? ==> (reply.status == StatusOK && body.Ok? && body.value.provider == "auth0" &&
      VerifyAuth0Token(body.value.token).Ok? &&
      reply.body.user in users.rows &&
      reply.body.user.oauthId == Some(VerifyAuth0Token(body.value.token).value.oauthId) &&
      reply.body.user.oauthProvider == Some("auth0") &&
      sign(reply.body.user.id, PlaceholderEmail) == Some(reply.body.token))
    ensures reply.Success? && FindUserByOAuth(old(users.rows), VerifyAuth0Token(body.value.token).value.oauthId, "auth0").Some? ==>
      reply.body.user == FindUserByOAuth(old(users.rows), VerifyAuth0Token(body.value.token).value.oauthId, "auth0").value &&
      users.rows == old(users.rows)
    ensures reply.Success? && FindUserByOAuth(old(users.rows), VerifyAuth0Token(body.value.token).value.oauthId, "auth0").None? ==>
      reply.body.user == Auth0Account(VerifyAuth0Token(body.value.token).value).(id := old(users.nextId)) &&
      users.rows == old(users.rows) + [reply.body.user]
    ensures reply.Failure? && reply.error != "Failed to generate token" ==> users.rows == old(users.rows)
  {
    if body.Err? {
      return Failure(StatusBadRequest, body.msg);
    }
    var req := body.value;
    if req.provider != "auth0" {
      return Failure(StatusBadRequest, "Only auth0 provider supported");
    }
    var identity := VerifyAuth0Token(req.token);
    if identity.Err? {
      return Failure(StatusUnauthorized, "Invalid token");
    }
    var found := users.GetUserByOAuthID(identity.value.oauthId, req.provider, io.lookupFail);
    if found.Err? {
      return Failure(StatusInternalServerError, "Database error");
    }
    var user: User;
    if found.value.Some? {
      user := found.value.value;
    } else {
      var created := users.CreateUser(Auth0Account(identity.value), io.createFail);
      if created.Err? {
        return Failure(StatusInternalServerError, "Failed to create user");
      }
      user := created.value;
      assert user == users.rows[|users.rows| - 1];
    }
    var jwt := sign(user.id, identity.value.email);
    if jwt.None? {
      return Failure(StatusInternalServerError, "Failed to generate token");
    }
    reply := Success(StatusOK, AuthService.AuthResponse(jwt.value, user));
  }

  // ------------------------------------------------------------ profile

  /** GET /profile/me: the caller comes from the middleware's claims. */
  method GetProfile(users: Users, caller: Id, fail: bool) returns (reply: Reply<User>)
    ensures fail ==> reply == Failure(StatusInternalServerError, "Database error")
    ensures !fail && FindUser(users.rows, caller).None? ==> reply == Failure(StatusNotFound, "User not found")
    ensures reply.Success? <==> !fail && FindUser(users.rows, caller).Some?
    ensures reply.Success? ==> reply == Success(StatusOK, FindUser(users.rows, caller).value)
  {
    var found := users.GetUserByID(caller, fail);
    if found.Err? {
      return Failure(StatusInternalServerError, "Database error");
    }
    if found.value.None? {
      return Failure(StatusNotFound, "User not found");
    }
    reply := Success(StatusOK, found.value.value);
  }

  /** The first profile check that fails, in the order of the handler:
      gender, skill level, play style, timeslot. */
  function ProfileError(req: ProfileUpdateRequest): (e: Option<string>)
    ensures e.None? <==> IsGender(req.gender) && req.skillLevel in AuthService.SkillLevels &&
                         req.playStyle in AuthService.PlayStyles && req.preferredTimeslots in AuthService.Timeslots
    ensures !IsGender(req.gender) ==> e == Some("Invalid gender value")
  {
    if !IsGender(req.gender) then Some("Invalid gender value")
    else if req.skillLevel !in AuthService.SkillLevels then Some("Invalid skill level")
    else if req.playStyle !in AuthService.PlayStyles then Some("Invalid play style")
    else if req.preferredTimeslots !in AuthService.Timeslots then Some("Invalid preferred timeslots")
    else None
  }

  /** The same checks as onboarding in the main server, in the same order;
      only the first letter of each message differs. */
  lemma ProfileErrorIsOnboardingError(req: ProfileUpdateRequest)
    ensures ProfileError(req).Some? <==> AuthService.OnboardingError(req).Some?
    ensures ProfileError(req).Some? ==> ProfileError(req).value[1..] == AuthService.OnboardingError(req).value[1..]
  {
  }

  /** The handler's validation as it runs: the skill level and the timeslot
      are membership loops. */
  method ValidateProfile(req: ProfileUpdateRequest) returns (e: Option<string>)
    ensures e == ProfileError(req)
  {
    if req.gender != Male && req.gender != Female && req.gender != OtherGender {
      return Some("Invalid gender value");
    }
    var skill := AuthService.IsOneOf(AuthService.SkillLevels, req.skillLevel);
    if !skill {
      return Some("Invalid skill level");
    }
    if req.playStyle != "ranked" && req.playStyle != "fun" {
      return Some("Invalid play style");
    }
    var slot := AuthService.IsOneOf(AuthService.Timeslots, req.preferredTimeslots);
    if !slot {
      return Some("Invalid preferred timeslots");
    }
    e := None;
  }

  /** The placeholder coordinates this server stores. */
  const HalifaxLatitude: real := 44.6488
  const HalifaxLongitude: real := -63.5752

  /** The record the profile update builds: the listed fields overwritten
      and both coordinates set to the placeholder when either is missing. */
  function Overwrite(u: User, req: ProfileUpdateRequest): (r: User)
    ensures r.id == u.id && r.oauthId == u.oauthId && r.oauthProvider == u.oauthProvider
    ensures r.email == u.email && r.rank == u.rank && r.profilePicUrl == u.profilePicUrl
    ensures r.gender == Some(req.gender)
    ensures r.latitude.Some? && r.longitude.Some?
  {
    var v := u.(name := req.name, firstName := Some(req.firstName), lastName := Some(req.lastName),
                age := Some(req.age), gender := Some(req.gender), location := Some(req.location),
                skillLevel := Some(req.skillLevel), ntrpRating := Some(req.ntrpRating),
                playStyle := Some(req.playStyle), preferredTimeslots := Some(req.preferredTimeslots),
                bio := Some(req.bio), sportPreferences := req.sportPreferences, availability := req.availability);
    if v.latitude == None || v.longitude == None then
      v.(latitude := Some(HalifaxLatitude), longitude := Some(HalifaxLongitude))
    else v
  }

  /** The overwrite is the main server's onboarding record but for the
      placeholder coordinates: equal when the user has both coordinates,
      and differing only in them otherwise. */
  lemma OverwriteIsOnboard(u: User, req: ProfileUpdateRequest)
    ensures u.latitude.Some? && u.longitude.Some? ==> Overwrite(u, req) == AuthService.Onboard(u, req)
    ensures Overwrite(u, req).(latitude := None, longitude := None) ==
            AuthService.Onboard(u, req).(latitude := None, longitude := None)
    ensures !(u.latitude.Some? && u.longitude.Some?) ==>
      Overwrite(u, req).latitude == Some(HalifaxLatitude) && Overwrite(u, req).longitude == Some(HalifaxLongitude)
  {
  }

  /** A validated overwrite of a stored row always satisfies the table's
      constraints: its gender passed the check and its e-mail is the row's. */
  lemma {:induction false} OverwriteUpdatable(t: seq<User>, next: Id, row: User, req: ProfileUpdateRequest)
    requires TableOk(t, next) && row in t && ProfileError(req).None?
    ensures UserRepository.CanUpdateUser(t, Overwrite(row, req))
  {
    var u := Overwrite(row, req);
    if u.email.Some? {
      forall x | x in t && x.id != u.id ensures x.email != u.email {
        var i :| 0 <= i < |t| && t[i] == x;
        var k :| 0 <= k < |t| && t[k] == row;
        assert i != k;
        if i < k {
          assert t[i].email.Some? ==> t[i].email != t[k].email;
        } else {
          assert t[k].email.Some? ==> t[k].email != t[i].email;
        }
      }
    }
  }

  /** Failures of the two database round trips of the profile update. */
  datatype UpdateIo = UpdateIo(getFail: bool, updateFail: bool)

  /** PUT /profile/update: nothing is written unless every check passes;
      a signing failure comes after the write, which stays. */
  method UpdateProfile(users: Users, caller: Id, body: Result<ProfileUpdateRequest>,
                       sign: (Id, string) -> Option<string>, io: UpdateIo)
    returns (reply: Reply<AuthService.AuthResponse>)
    requires users.Valid()
    modifies users`rows
    ensures users.Valid()
    ensures body.Err? ==> reply == Failure(StatusBadRequest, body.msg)
    ensures body.Ok? && io.getFail ==> reply == Failure(StatusInternalServerError, "Database error")
    ensures body.Ok? && !io.getFail && FindUser(old(users.rows), caller).None? ==>
      reply == Failure(StatusNotFound, "User not found")
    ensures body.Ok? && !io.getFail && FindUser(old(users.rows), caller).Some? && ProfileError(body.value).Some? ==>
      reply == Failure(StatusBadRequest, ProfileError(body.value).value)
    ensures body.Ok? && !io.getFail && FindUser(old(users.rows), caller).Some? && ProfileError(body.value).None? ==>
      (io.updateFail <==> reply == Failure(StatusInternalServerError, "Failed to update user"))
    ensures reply.Failure? && reply.error != "Failed to generate token" ==> users.rows == old(users.rows)
    ensures reply.Success? || reply == Failure(StatusInternalServerError, "Failed to generate token") ==>
      body.Ok? && FindUser(old(users.rows), caller).Some? && ProfileError(body.value).None? &&
      users.rows == RewrittenTable(old(users.rows), Overwrite(FindUser(old(users.rows), caller).value, body.value)) &&
      FindUser(users.rows, caller) == Some(Overwrite(FindUser(old(users.rows), caller).value, body.value))
    ensures reply.Success? <==> (body.Ok? && !io.getFail && FindUser(old(users.rows), caller).Some? &&
      ProfileError(body.value).None? && !io.updateFail &&
      sign(caller, Overwrite(FindUser(old(users.rows), caller).value, body.value).email.GetOr("")).Some?)
    ensures body.Ok? && !io.getFail && FindUser(old(users.rows), caller).Some? && ProfileError(body.value).None? &&
            !io.updateFail && reply.Failure? ==>
      reply == Failure(StatusInternalServerError, "Failed to generate token")
    ensures reply.Success? ==> (reply.status == StatusOK &&
      reply.body.user == Overwrite(FindUser(old(users.rows), caller).value, body.value) &&
      sign(reply.body.user.id, reply.body.user.email.GetOr("")) == Some(reply.body.token))
  {
    if body.Err? {
      return Failure(StatusBadRequest, body.msg);
    }
    var found := users.GetUserByID(caller, io.getFail);
    if found.Err? {
      return Failure(StatusInternalServerError, "Database error");
    }
    if found.value.None? {
      return Failure(StatusNotFound, "User not found");
    }
    var row := found.value.value;
    var invalid := ValidateProfile(body.value);
    if invalid.Some? {
      return Failure(StatusBadRequest, invalid.value);
    }
    var user := Overwrite(row, body.value);
    OverwriteUpdatable(users.rows, users.nextId, row, body.value);
    RewriteOwnRow(users.rows, users.nextId, row, user);
    var ok := users.UpdateUser(user, io.updateFail);
    if !ok {
      return Failure(StatusInternalServerError, "Failed to update user");
    }
    var email := if user.email.Some? then user.email.value else "";
    var jwt := sign(user.id, email);
    if jwt.None? {
      return Failure(StatusInternalServerError, "Failed to generate token");
    }
    reply := Success(StatusOK, AuthService.AuthResponse(jwt.value, user));
  }
}
