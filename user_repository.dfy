/** UserRepository (internal/repository/user_repository.go): inserts,
    lookups and updates of the users table, and the query builder of
    GetProfilesForSwipe. */
module UserRepository {
  import opened Wrappers
  import opened Models
  import opened Database
  import Strs

  // -------------------------------------------------------------- insert

  /** The row an INSERT INTO users writes: the table has no columns for first
      and last name, age, NTRP rating or timeslots. */
  function Stored(u: User, id: Id): (row: User)
    ensures row.id == id && StoredColumnsOnly(row)
    ensures row.name == u.name && row.email == u.email && row.oauthId == u.oauthId && row.rank == u.rank
  {
    u.(id := id, firstName := None, lastName := None, age := None, ntrpRating := None, preferredTimeslots := None)
  }

  /** The constraints an insert must satisfy: gender in its ENUM, oauth_id and
      email not held by another row. */
  predicate CanInsertUser(t: seq<User>, u: User) {
    GenderColumnOk(u) &&
    (u.oauthId.Some? ==> forall x :: x in t ==> x.oauthId != u.oauthId) &&
    (u.email.Some? ==> forall x :: x in t ==> x.email != u.email)
  }

  /** Create: inserts the row and writes the new id into the record; the
      record keeps the fields the table does not store. */
  method Create(db: Db, u: User, fail: bool) returns (r: Result<User>)
    requires db.Valid()
    modifies db`users, db`nextUserId
    ensures db.Valid()
    ensures r.Ok? <==> !fail && CanInsertUser(old(db.users), u)
    ensures r.Ok? ==> r.value == u.(id := old(db.nextUserId))
    ensures r.Ok? ==> db.users == old(db.users) + [Stored(u, old(db.nextUserId))] && db.nextUserId == old(db.nextUserId) + 1
    ensures r.Err? ==> r.msg == "failed to create user" && db.users == old(db.users) && db.nextUserId == old(db.nextUserId)
  {
    if fail || !CanInsertUser(db.users, u) {
      return Err("failed to create user");
    }
    var row := Stored(u, db.nextUserId);
    UsersAppend(db.users, db.nextUserId, row);
    UserIdSetAppend(db.users, row);
    SwipesWiden(db.swipes, db.nextSwipeId, UserIdSet(db.users), UserIdSet(db.users + [row]));
    MatchesWiden(db.matches, db.nextMatchId, UserIdSet(db.users), UserIdSet(db.users + [row]));
    MessagesWiden(db.messages, db.nextMessageId, MatchIdSet(db.matches), UserIdSet(db.users),
                  MatchIdSet(db.matches), UserIdSet(db.users + [row]));
    db.users := db.users + [row];
    db.nextUserId := db.nextUserId + 1;
    r := Ok(u.(id := row.id));
  }

  // ------------------------------------------------------------- lookups

  /** GetByID: absent (no error) for an unknown id. */
  method GetByID(db: Db, id: Id, fail: bool) returns (r: Result<Option<User>>)
    ensures r.Ok? <==> !fail
    ensures r.Ok? ==> r.value == FindUser(db.users, id)
    ensures r.Ok? && r.value.Some? ==> r.value.value in db.users && r.value.value.id == id
    ensures r.Ok? && r.value.None? ==> forall u :: u in db.users ==> u.id != id
  {
    if fail {
      return Err("failed to get user by id");
    }
    r := Ok(FindUser(db.users, id));
  }

  /** GetByOAuthID: the account of that provider's user id, if any. */
  method GetByOAuthID(db: Db, oauthId: string, provider: string, fail: bool) returns (r: Result<Option<User>>)
    ensures r.Ok? <==> !fail
    ensures r.Ok? ==> r.value == FindUserByOAuth(db.users, oauthId, provider)
    ensures r.Ok? && r.value.Some? ==>
      r.value.value in db.users && r.value.value.oauthId == Some(oauthId) && r.value.value.oauthProvider == Some(provider)
    ensures r.Ok? && r.value.None? ==>
      forall u :: u in db.users ==> !(u.oauthId == Some(oauthId) && u.oauthProvider == Some(provider))
  {
    if fail {
      return Err("failed to get user by oauth id");
    }
    r := Ok(FindUserByOAuth(db.users, oauthId, provider));
  }

  // -------------------------------------------------------------- update

  /** The columns UPDATE users SET ... WHERE id = ? writes into a row: name,
      email, gender, location, coordinates, rank, picture, bio, sport
      preferences, skill level, play style and availability. */
  function WriteColumns(row: User, u: User): User {
    row.(name := u.name, email := u.email, gender := u.gender, location := u.location,
         latitude := u.latitude, longitude := u.longitude, rank := u.rank,
         profilePicUrl := u.profilePicUrl, bio := u.bio, sportPreferences := u.sportPreferences,
         skillLevel := u.skillLevel, playStyle := u.playStyle, availability := u.availability)
  }

  /** First and last name, age, NTRP rating, timeslots and the OAuth fields of
      the record handed to Update never reach the table: two records that
      differ only there write the same row. */
  lemma UpdateIgnoresUnstoredFields(row: User, u: User, v: User)
    requires v == u.(firstName := v.firstName, lastName := v.lastName, age := v.age, ntrpRating := v.ntrpRating,
                     preferredTimeslots := v.preferredTimeslots, oauthId := v.oauthId,
                     oauthProvider := v.oauthProvider, id := v.id)
    ensures WriteColumns(row, u) == WriteColumns(row, v)
  {
  }

  /** What a stored row keeps through an update: its id, OAuth fields and the
      columns the table lacks. */
  lemma UpdateKeepsIdentity(row: User, u: User)
    ensures var r := WriteColumns(row, u);
      r.id == row.id && r.oauthId == row.oauthId && r.oauthProvider == row.oauthProvider &&
      (StoredColumnsOnly(row) ==> StoredColumnsOnly(r)) &&
      r.name == u.name && r.email == u.email && r.rank == u.rank && r.gender == u.gender
  {
  }

  predicate CanUpdateUser(t: seq<User>, u: User) {
    GenderColumnOk(u) &&
    (u.email.Some? ==> forall x :: x in t && x.id != u.id ==> x.email != u.email)
  }

  function UpdatedTable(t: seq<User>, u: User): (r: seq<User>)
    ensures |r| == |t|
    ensures forall i :: 0 <= i < |t| ==> r[i] == if t[i].id == u.id then WriteColumns(t[i], u) else t[i]
  {
    seq(|t|, i requires 0 <= i < |t| => if t[i].id == u.id then WriteColumns(t[i], u) else t[i])
  }

  lemma UpdatedTableOk(t: seq<User>, next: Id, u: User)
    requires UsersOk(t, next) && CanUpdateUser(t, u)
    ensures UsersOk(UpdatedTable(t, u), next)
    ensures UserIdSet(UpdatedTable(t, u)) == UserIdSet(t)
  {
    UpdatedIdsOk(t, next, u);
    UpdatedUnique(t, next, u);
    UpdatedRowsOk(t, u);
    UpdatedIdSet(t, u);
  }

  /** oauth_id and email stay unique: the updated row keeps its OAuth id and
      takes an e-mail no other row holds. */
  lemma UpdatedUnique(t: seq<User>, next: Id, u: User)
    requires UserIdsOk(t, next) && UsersUnique(t) && CanUpdateUser(t, u)
    ensures UsersUnique(UpdatedTable(t, u))
  {
    var r := UpdatedTable(t, u);
    forall i, j | 0 <= i < j < |r|
      ensures r[i].oauthId.Some? ==> r[i].oauthId != r[j].oauthId
      ensures r[i].email.Some? ==> r[i].email != r[j].email
    {
      if t[i].id == u.id {
        assert t[j] in t;
      } else if t[j].id == u.id {
        assert t[i] in t;
      }
    }
  }

  lemma UpdatedRowsOk(t: seq<User>, u: User)
    requires (forall i :: 0 <= i < |t| ==> UserRowOk(t[i])) && GenderColumnOk(u)
    ensures forall i :: 0 <= i < |UpdatedTable(t, u)| ==> UserRowOk(UpdatedTable(t, u)[i])
  {
    var r := UpdatedTable(t, u);
    forall i | 0 <= i < |r| ensures UserRowOk(r[i]) {
      assert UserRowOk(t[i]);
    }
  }

  lemma UpdatedIdSet(t: seq<User>, u: User)
    ensures UserIdSet(UpdatedTable(t, u)) == UserIdSet(t)
  {
    var r := UpdatedTable(t, u);
    forall id | id in UserIdSet(t) ensures id in UserIdSet(r) {
      var i :| 0 <= i < |t| && t[i].id == id;
      assert r[i].id == id;
    }
  }

  /** An update keeps every row's id in place. */
  lemma UpdatedIdsOk(t: seq<User>, next: Id, u: User)
    requires UserIdsOk(t, next)
    ensures UserIdsOk(UpdatedTable(t, u), next)
  {
    var r := UpdatedTable(t, u);
    assert forall i :: 0 <= i < |r| ==> r[i].id == t[i].id;
  }

  /** After an update, looking the user up gives the old row with the written
      columns replaced. */
  lemma UpdateThenGet(t: seq<User>, next: Id, u: User, row: User)
    requires UserIdsOk(t, next) && row in t && row.id == u.id
    ensures FindUser(UpdatedTable(t, u), u.id) == Some(WriteColumns(row, u))
  {
    var r := UpdatedTable(t, u);
    var k :| 0 <= k < |t| && t[k] == row;
    assert r[k] == WriteColumns(row, u);
    UpdatedIdsOk(t, next, u);
    FindUserUnique(r, next, r[k]);
  }

  /** Every other user reads back as before the update. */
  lemma UpdateKeepsOthers(t: seq<User>, next: Id, u: User, other: Id)
    requires UserIdsOk(t, next) && other != u.id
    ensures FindUser(UpdatedTable(t, u), other) == FindUser(t, other)
  {
    var r := UpdatedTable(t, u);
    UpdatedIdsOk(t, next, u);
    var f := FindUser(t, other);
    if f.Some? {
      var m :| 0 <= m < |t| && t[m] == f.value;
      assert r[m] == t[m];
      FindUserUnique(r, next, r[m]);
    } else {
      forall x | x in r ensures x.id != other {
        var m :| 0 <= m < |r| && r[m] == x;
        assert t[m] in t;
      }
    }
  }

  method Update(db: Db, u: User, fail: bool) returns (ok: bool)
    requires db.Valid()
    modifies db`users
    ensures db.Valid()
    ensures ok <==> !fail && CanUpdateUser(old(db.users), u)
    ensures db.users == if ok then UpdatedTable(old(db.users), u) else old(db.users)
  {
    if fail || !CanUpdateUser(db.users, u) {
      return false;
    }
    UpdatedTableOk(db.users, db.nextUserId, u);
    db.users := UpdatedTable(db.users, u);
    ok := true;
  }

  // ------------------------------------------------------- profile query

  /** A piece of SQL text split at its `?` placeholders: the text is the
      pieces joined with "?". */
  type Template = seq<string>

  function Placeholders(t: Template): nat {
    if |t| == 0 then 0 else |t| - 1
  }

  function TemplateText(t: Template): string {
    Strs.Join(t, "?")
  }

  const NotSwipedCond: Template := ["id NOT IN (" + "SELECT swipee_id " + "FROM swipes " + "WHERE swiper_id = ", ")"]
  const NotSelfCond: Template := ["id != ", ""]
  const GenderCond: Template := ["gender = ", ""]
  const LocationCond: Template := ["location = ", ""]
  const MinRankCond: Template := ["rank >= ", ""]
  const MaxRankCond: Template := ["rank <= ", ""]
  const DistanceCond: Template := [
    "\n\t\t\t(6371 * " + "acos(cos(radians(",
    ")) * cos(" + "radians(latitude)) " + "* \n\t\t\tcos(" + "radians(longitude) " + "- radians(",
    ")) + sin(radians(",
    ")) * \n\t\t\t" + "sin(radians(" + "latitude)))) <= ",
    "\n\t\t"]
  const SelectHead: string :=
    "\n\t\tSELECT id, name, " + "gender, location, " + "rank, " + "profile_pic_url, " + "bio, \n\t\t       " + "sport_preferences, " + "skill_level, " + "play_style, " + "availability, " + "created_at\n\t\t" + "FROM users \n\t\t" + "WHERE "
  const SelectTail: Template := ["\n\t\tORDER BY " + "RAND()\n\t\t" + "LIMIT ", " OFFSET ", "\n\t"]

  /** The page size used when the filter gives none. */
  const DefaultProfileLimit: int := 20

  datatype Arg = IntArg(i: int) | TextArg(s: string) | RealArg(r: real)

  function Texts(conds: seq<Template>): (r: seq<string>)
    ensures |r| == |conds|
    ensures forall i :: 0 <= i < |conds| ==> r[i] == TemplateText(conds[i])
  {
    if conds == [] then [] else [TemplateText(conds[0])] + Texts(conds[1..])
  }

  /** The full query text: the conditions joined with AND between the fixed
      SELECT head and the ORDER BY / LIMIT / OFFSET tail. */
  function QueryText(conds: seq<Template>): string {
    SelectHead + Strs.Join(Texts(conds), " AND ") + TemplateText(SelectTail)
  }

  function TotalPlaceholders(conds: seq<Template>): nat {
    if conds == [] then 0 else Placeholders(conds[0]) + TotalPlaceholders(conds[1..])
  }

  lemma {:induction false} TotalPlaceholdersAppend(a: seq<Template>, b: seq<Template>)
    ensures TotalPlaceholders(a + b) == TotalPlaceholders(a) + TotalPlaceholders(b)
  {
    if a == [] {
      assert a + b == b;
    } else {
      assert (a + b)[1..] == a[1..] + b;
      TotalPlaceholdersAppend(a[1..], b);
    }
  }

  /** No piece of any template holds a '?' of its own. */
  predicate PiecesFree(conds: seq<Template>) {
    forall i, j :: 0 <= i < |conds| && 0 <= j < |conds[i]| ==> '?' !in conds[i][j]
  }

  lemma {:induction false} SumCountsFree(parts: seq<string>)
    requires forall j :: 0 <= j < |parts| ==> '?' !in parts[j]
    ensures Strs.SumCounts(parts, '?') == 0
  {
    if parts != [] {
      Strs.CountZero(parts[0], '?');
      SumCountsFree(parts[1..]);
    }
  }

  /** A template's text holds exactly its placeholders. */
  lemma TemplateCount(t: Template)
    requires |t| > 0 && forall j :: 0 <= j < |t| ==> '?' !in t[j]
    ensures Strs.Count(TemplateText(t), '?') == Placeholders(t)
  {
    Strs.JoinCount(t, "?", '?');
    SumCountsFree(t);
    assert Strs.Count("?", '?') == 1;
  }

  lemma {:induction false} TextsCount(conds: seq<Template>)
    requires PiecesFree(conds) && forall i :: 0 <= i < |conds| ==> |conds[i]| > 0
    ensures Strs.SumCounts(Texts(conds), '?') == TotalPlaceholders(conds)
  {
    if conds != [] {
      TemplateCount(conds[0]);
      assert PiecesFree(conds[1..]) by {
        forall i, j | 0 <= i < |conds[1..]| && 0 <= j < |conds[1..][i]| ensures '?' !in conds[1..][i][j] {
          assert conds[1..][i] == conds[i + 1];
        }
      }
      TextsCount(conds[1..]);
      assert Texts(conds)[1..] == Texts(conds[1..]);
    }
  }

  lemma TailFree(conds: seq<Template>)
    requires PiecesFree(conds + [SelectTail])
    ensures PiecesFree(conds)
    ensures forall j :: 0 <= j < |SelectTail| ==> '?' !in SelectTail[j]
  {
    forall i, j | 0 <= i < |conds| && 0 <= j < |conds[i]| ensures '?' !in conds[i][j] {
      assert (conds + [SelectTail])[i] == conds[i];
    }
    forall j | 0 <= j < |SelectTail| ensures '?' !in SelectTail[j] {
      assert (conds + [SelectTail])[|conds|] == SelectTail;
    }
  }

  /** The conditions joined with AND hold exactly their placeholders. */
  lemma WhereCount(conds: seq<Template>)
    requires |conds| > 0 && PiecesFree(conds)
    requires forall i :: 0 <= i < |conds| ==> |conds[i]| > 0
    ensures Strs.Count(Strs.Join(Texts(conds), " AND "), '?') == TotalPlaceholders(conds)
  {
    TextsCount(conds);
    Strs.JoinCount(Texts(conds), " AND ", '?');
    assert Strs.Count(" AND ", '?') == 0;
  }

  /** When the fixed SQL text holds no '?', the number of '?' in the query is
      the number of placeholders of its conditions plus LIMIT's and
      OFFSET's. */
  lemma QueryTextCount(conds: seq<Template>)
    requires |conds| > 0
    requires PiecesFree(conds + [SelectTail]) && '?' !in SelectHead
    requires forall i :: 0 <= i < |conds| ==> |conds[i]| > 0
    ensures Strs.Count(QueryText(conds), '?') == TotalPlaceholders(conds) + Placeholders(SelectTail)
  {
    TailFree(conds);
    WhereCount(conds);
    TemplateCount(SelectTail);
    var w := Strs.Join(Texts(conds), " AND ");
    Strs.CountZero(SelectHead, '?');
    Strs.CountAppend(SelectHead, w, '?');
    Strs.CountAppend(SelectHead + w, TemplateText(SelectTail), '?');
  }

  /** The condition c when its filter b is present. */
  function When<T>(b: bool, c: seq<T>): seq<T> {
    if b then c else []
  }

  predicate HasDistance(f: ProfileFilter) {
    f.latitude.Some? && f.longitude.Some? && f.radius.Some?
  }

  /** The conditions the present filters contribute, in the order the
      builder appends them. */
  function FilterConds(f: ProfileFilter): seq<Template> {
    When(f.gender.Some?, [GenderCond]) + When(f.location.Some?, [LocationCond]) +
    When(f.minRank.Some?, [MinRankCond]) + When(f.maxRank.Some?, [MaxRankCond]) +
    When(HasDistance(f), [DistanceCond])
  }

  /** The arguments those conditions bind, in order; the distance formula
      binds latitude, longitude, latitude, radius. */
  function FilterArgs(f: ProfileFilter): seq<Arg> {
    When(f.gender.Some?, [TextArg(f.gender.GetOr(""))]) +
    When(f.location.Some?, [TextArg(f.location.GetOr(""))]) +
    When(f.minRank.Some?, [IntArg(f.minRank.GetOr(0))]) +
    When(f.maxRank.Some?, [IntArg(f.maxRank.GetOr(0))]) +
    When(HasDistance(f), [RealArg(f.latitude.GetOr(0.0)), RealArg(f.longitude.GetOr(0.0)),
                          RealArg(f.latitude.GetOr(0.0)), RealArg(f.radius.GetOr(0.0))])
  }

  /** The distance condition is present exactly when latitude, longitude and
      radius all are. */
  lemma DistanceNeedsAllThree(f: ProfileFilter)
    ensures DistanceCond in FilterConds(f) <==> HasDistance(f)
  {
    assert |DistanceCond| == 5;
    assert |GenderCond| == |LocationCond| == |MinRankCond| == |MaxRankCond| == 2;
  }

  /** One of the fixed SQL pieces the builder puts into a query. */
  predicate KnownTemplate(t: Template) {
    t == NotSwipedCond || t == NotSelfCond || t == GenderCond || t == LocationCond ||
    t == MinRankCond || t == MaxRankCond || t == DistanceCond || t == SelectTail
  }

  /** None of the fixed SQL text holds a '?' of its own, and no template is
      empty. */
  lemma KnownTemplateFree(t: Template)
    requires KnownTemplate(t)
    ensures |t| > 0 && forall j :: 0 <= j < |t| ==> '?' !in t[j]
  {
    if t == NotSwipedCond {
      NotSwipedFree();
    } else if t == DistanceCond {
      DistanceFree();
    } else if t == SelectTail {
      TailPiecesFree();
    }
  }

  // The literal pieces are checked one at a time: '?' is in a concatenation
  // only if it is in one of its parts.

  lemma NotSwipedFree()
    ensures forall j :: 0 <= j < |NotSwipedCond| ==> '?' !in NotSwipedCond[j]
  {
    var p := ["id NOT IN (", "SELECT swipee_id ", "FROM swipes ", "WHERE swiper_id = "];
    assert '?' !in p[0];
    assert '?' !in p[1];
    assert '?' !in p[2];
    assert '?' !in p[3];
  }

  lemma DistanceFree()
    ensures forall j :: 0 <= j < |DistanceCond| ==> '?' !in DistanceCond[j]
  {
    var p := ["\n\t\t\t(6371 * ", "acos(cos(radians(", ")) * cos(", "radians(latitude)) ", "* \n\t\t\tcos(", "radians(longitude) ", "- radians(", ")) + sin(radians(", ")) * \n\t\t\t", "sin(radians(", "latitude)))) <= ", "\n\t\t"];
    assert '?' !in p[0];
    assert '?' !in p[1];
    assert '?' !in p[2];
    assert '?' !in p[3];
    assert '?' !in p[4];
    assert '?' !in p[5];
    assert '?' !in p[6];
    assert '?' !in p[7];
    assert '?' !in p[8];
    assert '?' !in p[9];
    assert '?' !in p[10];
    assert '?' !in p[11];
  }

  lemma TailPiecesFree()
    ensures forall j :: 0 <= j < |SelectTail| ==> '?' !in SelectTail[j]
  {
  }

  lemma SelectHeadFree()
    ensures '?' !in SelectHead
  {
    var p := ["\n\t\tSELECT id, name, ", "gender, location, ", "rank, ", "profile_pic_url, ", "bio, \n\t\t       ", "sport_preferences, ", "skill_level, ", "play_style, ", "availability, ", "created_at\n\t\t", "FROM users \n\t\t", "WHERE "];
    assert '?' !in p[0];
    assert '?' !in p[1];
    assert '?' !in p[2];
    assert '?' !in p[3];
    assert '?' !in p[4];
    assert '?' !in p[5];
    assert '?' !in p[6];
    assert '?' !in p[7];
    assert '?' !in p[8];
    assert '?' !in p[9];
    assert '?' !in p[10];
    assert '?' !in p[11];
  }

  /** Every piece of every condition GetProfilesForSwipe's query can hold,
      and of its tail, is free of '?'. */
  lemma ProfileQueryFree(f: ProfileFilter)
    ensures PiecesFree([NotSwipedCond, NotSelfCond] + FilterConds(f) + [SelectTail])
    ensures forall i :: 0 <= i < |[NotSwipedCond, NotSelfCond] + FilterConds(f)| ==>
              |([NotSwipedCond, NotSelfCond] + FilterConds(f))[i]| > 0
  {
    var cs := [NotSwipedCond, NotSelfCond] + FilterConds(f) + [SelectTail];
    forall i | 0 <= i < |cs| ensures KnownTemplate(cs[i]) {
      assert cs[i] in cs;
    }
    forall i, j | 0 <= i < |cs| && 0 <= j < |cs[i]| ensures '?' !in cs[i][j] {
      KnownTemplateFree(cs[i]);
    }
    forall i | 0 <= i < |cs| - 1 ensures |cs[i]| > 0 {
      KnownTemplateFree(cs[i]);
    }
    assert cs[..|cs| - 1] == [NotSwipedCond, NotSelfCond] + FilterConds(f);
  }

  /** The filter part of GetProfilesForSwipe's builder: one condition and
      its arguments per present filter, the distance formula only when
      latitude, longitude and radius are all given. */
  method AppendFilters(filter: ProfileFilter) returns (conds: seq<Template>, args: seq<Arg>)
    ensures conds == FilterConds(filter)
    ensures args == FilterArgs(filter)
  {
    conds, args := [], [];
    if filter.gender.Some? {
      conds := conds + [GenderCond];
      args := args + [TextArg(filter.gender.value)];
    }
    ghost var c1, a1 := conds, args;
    assert c1 == When(filter.gender.Some?, [GenderCond]);
    assert a1 == When(filter.gender.Some?, [TextArg(filter.gender.GetOr(""))]);
    if filter.location.Some? {
      conds := conds + [LocationCond];
      args := args + [TextArg(filter.location.value)];
    }
    ghost var c2, a2 := conds, args;
    assert c2 == c1 + When(filter.location.Some?, [LocationCond]);
    assert a2 == a1 + When(filter.location.Some?, [TextArg(filter.location.GetOr(""))]);
    if filter.minRank.Some? {
      conds := conds + [MinRankCond];
      args := args + [IntArg(filter.minRank.value)];
    }
    ghost var c3, a3 := conds, args;
    assert c3 == c2 + When(filter.minRank.Some?, [MinRankCond]);
    assert a3 == a2 + When(filter.minRank.Some?, [IntArg(filter.minRank.GetOr(0))]);
    if filter.maxRank.Some? {
      conds := conds + [MaxRankCond];
      args := args + [IntArg(filter.maxRank.value)];
    }
    ghost var c4, a4 := conds, args;
    assert c4 == c3 + When(filter.maxRank.Some?, [MaxRankCond]);
    assert a4 == a3 + When(filter.maxRank.Some?, [IntArg(filter.maxRank.GetOr(0))]);
    if filter.latitude.Some? && filter.longitude.Some? && filter.radius.Some? {
      conds := conds + [DistanceCond];
      args := args + [RealArg(filter.latitude.value), RealArg(filter.longitude.value),
                      RealArg(filter.latitude.value), RealArg(filter.radius.value)];
    }
    assert conds == c4 + When(HasDistance(filter), [DistanceCond]);
    assert args == a4 + When(HasDistance(filter), [RealArg(filter.latitude.GetOr(0.0)), RealArg(filter.longitude.GetOr(0.0)),
                                                    RealArg(filter.latitude.GetOr(0.0)), RealArg(filter.radius.GetOr(0.0))]);
  }

  /** GetProfilesForSwipe's builder: the "not yet swiped" and "not me"
      conditions with [userId, userId], then one condition per present
      filter, then LIMIT and OFFSET, a non-positive limit becoming 20. Every
      '?' of the query gets exactly one argument. */
  method BuildProfileQuery(userId: Id, filter: ProfileFilter) returns (conds: seq<Template>, args: seq<Arg>, limit: int)
    ensures conds == [NotSwipedCond, NotSelfCond] + FilterConds(filter)
    ensures args == [IntArg(userId), IntArg(userId)] + FilterArgs(filter) + [IntArg(limit), IntArg(filter.offset)]
    ensures limit == if filter.limit <= 0 then DefaultProfileLimit else filter.limit
    ensures TotalPlaceholders(conds) + Placeholders(SelectTail) == |args|
    ensures Strs.Count(QueryText(conds), '?') == |args|
  {
    var fc, fa := AppendFilters(filter);
    conds := [NotSwipedCond, NotSelfCond] + fc;
    args := [IntArg(userId), IntArg(userId)] + fa;
    limit := filter.limit;
    if limit <= 0 {
      limit := DefaultProfileLimit;
    }
    args := args + [IntArg(limit), IntArg(filter.offset)];
    FilterPlaceholders(filter);
    TotalPlaceholdersAppend([NotSwipedCond, NotSelfCond], fc);
    TotalPlaceholdersAppend([NotSwipedCond], [NotSelfCond]);
    SinglePlaceholders(NotSwipedCond);
    SinglePlaceholders(NotSelfCond);
    assert [NotSwipedCond] + [NotSelfCond] == [NotSwipedCond, NotSelfCond];
    assert |SelectTail| == 3;
    ProfileQueryFree(filter);
    SelectHeadFree();
    QueryTextCount(conds);
  }

  /** GetProfilesForSwipe: builds the query, runs it and scans the rows it
      returns in order. What MySQL returns for the query is an input (`rows`),
      as are a failing query and the first row whose scan fails. */
  method GetProfilesForSwipe(userId: Id, filter: ProfileFilter, queryFail: bool, rows: seq<UserProfile>, badRow: Option<nat>)
    returns (conds: seq<Template>, args: seq<Arg>, r: Result<seq<UserProfile>>)
    ensures TotalPlaceholders(conds) + Placeholders(SelectTail) == |args|
    ensures conds == [NotSwipedCond, NotSelfCond] + FilterConds(filter)
    ensures Strs.Count(QueryText(conds), '?') == |args|
    ensures args[|args| - 2] == IntArg(if filter.limit <= 0 then DefaultProfileLimit else filter.limit)
    ensures queryFail ==> r == Err("failed to get profiles for swipe")
    ensures !queryFail && badRow.Some? && badRow.value < |rows| ==> r == Err("failed to scan profile")
    ensures !queryFail && !(badRow.Some? && badRow.value < |rows|) ==> r == Ok(rows)
  {
    var limit;
    conds, args, limit := BuildProfileQuery(userId, filter);
    if queryFail {
      return conds, args, Err("failed to get profiles for swipe");
    }
    var profiles: seq<UserProfile> := [];
    var i := 0;
    while i < |rows|
      invariant 0 <= i <= |rows|
      invariant profiles == rows[..i]
      invariant badRow.Some? ==> badRow.value >= i
    {
      if badRow == Some(i) {
        return conds, args, Err("failed to scan profile");
      }
      profiles := profiles + [rows[i]];
      i := i + 1;
    }
    assert rows[..i] == rows;
    r := Ok(profiles);
  }

  lemma SinglePlaceholders(c: Template)
    ensures TotalPlaceholders([c]) == Placeholders(c)
  {
    assert [c][1..] == [];
  }

  lemma WhenPlaceholders(b: bool, c: Template, a: seq<Arg>)
    requires Placeholders(c) == |a|
    ensures TotalPlaceholders(When(b, [c])) == |When(b, a)|
  {
    SinglePlaceholders(c);
  }

  /** The filter conditions bind exactly as many arguments as they have
      placeholders. */
  lemma FilterPlaceholders(f: ProfileFilter)
    ensures TotalPlaceholders(FilterConds(f)) == |FilterArgs(f)|
  {
    WhenPlaceholders(f.gender.Some?, GenderCond, [TextArg(f.gender.GetOr(""))]);
    WhenPlaceholders(f.location.Some?, LocationCond, [TextArg(f.location.GetOr(""))]);
    WhenPlaceholders(f.minRank.Some?, MinRankCond, [IntArg(f.minRank.GetOr(0))]);
    WhenPlaceholders(f.maxRank.Some?, MaxRankCond, [IntArg(f.maxRank.GetOr(0))]);
    WhenPlaceholders(HasDistance(f), DistanceCond,
                     [RealArg(f.latitude.GetOr(0.0)), RealArg(f.longitude.GetOr(0.0)),
                      RealArg(f.latitude.GetOr(0.0)), RealArg(f.radius.GetOr(0.0))]);
    ConcatPlaceholders(
      When(f.gender.Some?, [GenderCond]), When(f.location.Some?, [LocationCond]),
      When(f.minRank.Some?, [MinRankCond]), When(f.maxRank.Some?, [MaxRankCond]),
      When(HasDistance(f), [DistanceCond]));
  }

  /** Placeholders add up over the five groups of filter conditions. */
  lemma ConcatPlaceholders(g: seq<Template>, l: seq<Template>, mn: seq<Template>, mx: seq<Template>, d: seq<Template>)
    ensures TotalPlaceholders(g + l + mn + mx + d) ==
            TotalPlaceholders(g) + TotalPlaceholders(l) + TotalPlaceholders(mn) + TotalPlaceholders(mx) + TotalPlaceholders(d)
  {
    TotalPlaceholdersAppend(g, l);
    TotalPlaceholdersAppend(g + l, mn);
    TotalPlaceholdersAppend(g + l + mn, mx);
    TotalPlaceholdersAppend(g + l + mn + mx, d);
  }
}
