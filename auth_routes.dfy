/** The account routes over the single `users` table: registration of buyer and
    pro accounts, login, and the signed-in user's own update (`PUT /me`).
    Password hashing and comparison (bcrypt) and token signing (jwt) are
    parameters; the table is a sequence of records in insertion order. */
module AuthRoutes {
  import opened Js
  import opened UserModel
  import AuthMiddleware

  datatype RegisterBody = RegisterBody(
    name: Input, email: Input, password: Input, phone: Input, address: Input,
    role: Input, businessName: Input, businessId: Input)

  datatype MeBody = MeBody(
    name: Input, address: Input, email: Input, phone: Input,
    currentPassword: Input, newPassword: Input, avatarUrl: Input)

  /** A row of `users` with its serial id. */
  datatype UserRecord = UserRecord(id: nat, row: Row)

  /** A user as sent to the client: the id and the returned columns. */
  datatype PublicUser = PublicUser(id: nat, fields: Row)

  /** The signed token payload `{ id, role }`. */
  datatype Claims = Claims(id: nat, role: SqlValue)

  datatype Response =
    | Failure(code: int, message: string)
    | Authenticated(code: int, user: PublicUser, token: string)
    | UserOnly(user: PublicUser)

  const RoleInvalid := "Role invalide"
  const EmailUsed := "Email déjà utilisé"
  const ServerError := "Erreur serveur"
  const BadCredentials := "Identifiants invalides"
  const UserNotFound := "Utilisateur introuvable"
  const CurrentRequired := "Le mot de passe actuel est requis pour la modification."
  const CurrentWrong := "Mot de passe actuel incorrect"

  /** The columns of `RETURNING id, name, email, phone, avatar_url, address, role`,
      which are also the stored user minus `password_hash`. */
  const PublicColumns: set<string> := {"name", "email", "phone", "avatar_url", "address", "role"}

  /** A body field that is truthy: non-empty text. */
  predicate Given(v: Input) {
    v.Text? && v.s != ""
  }

  function Public(rec: UserRecord): (p: PublicUser)
    ensures p.id == rec.id && "password_hash" !in p.fields
    ensures forall c :: c in p.fields <==> c in rec.row && c in PublicColumns
    ensures forall c :: c in p.fields ==> p.fields[c] == rec.row[c]
  {
    PublicUser(rec.id, map c | c in rec.row && c in PublicColumns :: rec.row[c])
  }

  predicate Has(rec: UserRecord, column: string, v: SqlValue) {
    column in rec.row && rec.row[column] == v
  }

  function Column(rec: UserRecord, column: string): SqlValue {
    if column in rec.row then rec.row[column] else SqlNull
  }

  /** The first record whose `column` holds `v` (`... WHERE column = $1`, `rows[0]`). */
  function IndexWhere(users: seq<UserRecord>, column: string, v: SqlValue): (r: Option<nat>)
    ensures r.Some? ==>
      && r.value < |users| && Has(users[r.value], column, v)
      && (forall j :: 0 <= j < r.value ==> !Has(users[j], column, v))
    ensures r.None? ==> forall j :: 0 <= j < |users| ==> !Has(users[j], column, v)
  {
    if |users| == 0 then None
    else if Has(users[0], column, v) then Some(0)
    else
      var r := IndexWhere(users[1..], column, v);
      if r.None? then None else Some(r.value + 1)
  }

  /** The record with a given id (`... WHERE id = $1`). */
  function IndexOfId(users: seq<UserRecord>, id: nat): (r: Option<nat>)
    ensures r.Some? ==>
      && r.value < |users| && users[r.value].id == id
      && (forall j :: 0 <= j < r.value ==> users[j].id != id)
    ensures r.None? ==> forall j :: 0 <= j < |users| ==> users[j].id != id
  {
    if |users| == 0 then None
    else if users[0].id == id then Some(0)
    else
      var r := IndexOfId(users[1..], id);
      if r.None? then None else Some(r.value + 1)
  }

  /** The unique constraint on `email`: a text value another record already holds.
      A null e-mail never conflicts. */
  predicate EmailTaken(users: seq<UserRecord>, except: int, v: SqlValue) {
    v.SqlText? && exists j :: 0 <= j < |users| && j != except && Has(users[j], "email", v)
  }

  /** No two records share an id or a text e-mail; ids come from the serial. */
  predicate WellFormed(users: seq<UserRecord>, nextId: nat) {
    && (forall i :: 0 <= i < |users| ==> users[i].id < nextId)
    && (forall i, j :: 0 <= i < j < |users| ==> users[i].id != users[j].id)
    && (forall i :: 0 <= i < |users| ==> !EmailTaken(users, i, Column(users[i], "email")))
  }

  // ---------------------------------------------------------------- register

  predicate RoleAccepted(role: Input) {
    role == Text("buyer") || role == Text("pro")
  }

  /** The inserted row: `avatar_url` null, optional fields `|| null`. */
  function RegisterRow(body: RegisterBody, hashed: string): Row {
    map["name" := AsGiven(body.name), "email" := AsGiven(body.email), "password_hash" := SqlText(hashed),
        "phone" := AsGiven(body.phone), "avatar_url" := SqlNull, "address" := TextOrNull(body.address),
        "role" := AsGiven(body.role), "business_name" := TextOrNull(body.businessName),
        "business_id" := TextOrNull(body.businessId)]
  }

  function NewRecord(nextId: nat, body: RegisterBody, hash: string -> string): UserRecord
    requires body.password.Text?
  {
    UserRecord(nextId, RegisterRow(body, hash(body.password.s)))
  }

  /** `POST /register`: the role must be buyer or pro; `bcrypt.hash` fails on a
      missing password; a taken e-mail violates the unique constraint; otherwise
      201 with the returned user and a token for its id and role. */
  function RegisterOutcome(users: seq<UserRecord>, nextId: nat, body: RegisterBody,
                           hash: string -> string, sign: Claims -> string): (r: Response)
    ensures r == Failure(400, RoleInvalid) <==> !RoleAccepted(body.role)
    ensures r == Failure(500, ServerError) <==> RoleAccepted(body.role) && !body.password.Text?
    ensures r == Failure(400, EmailUsed) <==>
      RoleAccepted(body.role) && body.password.Text? && EmailTaken(users, -1, AsGiven(body.email))
    ensures r.Authenticated? <==>
      RoleAccepted(body.role) && body.password.Text? && !EmailTaken(users, -1, AsGiven(body.email))
    ensures r.Authenticated? ==>
      && r.code == 201
      && r.user == Public(NewRecord(nextId, body, hash))
      && r.token == sign(Claims(nextId, AsGiven(body.role)))
      && "password_hash" !in r.user.fields
  {
    if !RoleAccepted(body.role) then Failure(400, RoleInvalid)
    else if !body.password.Text? then Failure(500, ServerError)
    else if EmailTaken(users, -1, AsGiven(body.email)) then Failure(400, EmailUsed)
    else
      var rec := NewRecord(nextId, body, hash);
      Authenticated(201, Public(rec), sign(Claims(rec.id, AsGiven(body.role))))
  }

  // ---------------------------------------------------------------- login

  /** The record `WHERE email = $1` finds; a missing or null e-mail matches nothing. */
  function EmailIndex(users: seq<UserRecord>, email: Input): Option<nat> {
    if email.Text? then IndexWhere(users, "email", SqlText(email.s)) else None
  }

  /** `POST /login`: an unknown e-mail and a wrong password get the same 401; a
      missing password or stored hash makes `bcrypt.compare` fail (500); success
      returns the user without its hash and a token for its id and role. */
  function LoginOutcome(users: seq<UserRecord>, email: Input, password: Input,
                        compare: (string, string) -> bool, sign: Claims -> string): (r: Response)
    ensures r == Failure(401, BadCredentials) <==>
      || EmailIndex(users, email).None?
      || (var rec := users[EmailIndex(users, email).value];
          password.Text? && Column(rec, "password_hash").SqlText?
          && !compare(password.s, Column(rec, "password_hash").s))
    ensures r.Authenticated? ==>
      && EmailIndex(users, email).Some?
      && var rec := users[EmailIndex(users, email).value];
      && password.Text? && Column(rec, "password_hash").SqlText?
      && compare(password.s, Column(rec, "password_hash").s)
      && r == Authenticated(200, Public(rec), sign(Claims(rec.id, Column(rec, "role"))))
    ensures r.Failure? && r.code != 401 ==> r == Failure(500, ServerError)
    ensures r == Failure(500, ServerError) <==>
      && EmailIndex(users, email).Some?
      && (!password.Text? || !Column(users[EmailIndex(users, email).value], "password_hash").SqlText?)
    ensures EmailIndex(users, email).Some? ==>
      var rec := users[EmailIndex(users, email).value];
      (password.Text? && Column(rec, "password_hash").SqlText? && compare(password.s, Column(rec, "password_hash").s))
      ==> r == Authenticated(200, Public(rec), sign(Claims(rec.id, Column(rec, "role"))))
  {
    match EmailIndex(users, email)
    case None => Failure(401, BadCredentials)
    case Some(i) =>
      var rec := users[i];
      var stored := Column(rec, "password_hash");
      if !password.Text? || !stored.SqlText? then Failure(500, ServerError)
      else if !compare(password.s, stored.s) then Failure(401, BadCredentials)
      else Authenticated(200, Public(rec), sign(Claims(rec.id, Column(rec, "role"))))
  }

  lemma {:induction false} IndexWhereAfter(users: seq<UserRecord>, rec: UserRecord, column: string, v: SqlValue)
    requires forall j :: 0 <= j < |users| ==> !Has(users[j], column, v)
    requires Has(rec, column, v)
    ensures IndexWhere(users + [rec], column, v) == Some(|users|)
  {
    if |users| > 0 {
      assert (users + [rec])[1..] == users[1..] + [rec];
      IndexWhereAfter(users[1..], rec, column, v);
    }
  }

  /** Logging in with the e-mail and password just registered returns the same user
      and token as the registration, when `compare` accepts a password against its
      own hash. */
  lemma RegisterThenLogin(users: seq<UserRecord>, nextId: nat, body: RegisterBody,
                          hash: string -> string, compare: (string, string) -> bool, sign: Claims -> string)
    requires RegisterOutcome(users, nextId, body, hash, sign).Authenticated?
    requires body.email.Text?
    requires compare(body.password.s, hash(body.password.s))
    ensures var r := RegisterOutcome(users, nextId, body, hash, sign);
      LoginOutcome(users + [NewRecord(nextId, body, hash)], body.email, body.password, compare, sign)
        == Authenticated(200, r.user, r.token)
  {
    var rec := NewRecord(nextId, body, hash);
    var v := SqlText(body.email.s);
    assert Has(rec, "email", v);
    IndexWhereAfter(users, rec, "email", v);
  }

  /** A registered account gets a buyer or pro token, which `authRequired` refuses:
      when verification gives back what was signed, the new account cannot pass
      the guard in front of `PUT /me`. */
  lemma RegisteredTokenRefusedByAuthRequired(users: seq<UserRecord>, nextId: nat, body: RegisterBody,
                                             hash: string -> string, sign: Claims -> string,
                                             verify: string -> Option<AuthMiddleware.Payload>)
    requires RegisterOutcome(users, nextId, body, hash, sign).Authenticated?
    requires forall c: Claims :: c.role.SqlText? ==> verify(sign(c)) == Some(AuthMiddleware.Payload(c.id, c.role.s))
    ensures var r := RegisterOutcome(users, nextId, body, hash, sign);
      AuthMiddleware.AuthRequired(Some(AuthMiddleware.BearerPrefix + r.token), verify) == AuthMiddleware.Reject(403, "Accès refusé")
  {
    var c := Claims(nextId, AsGiven(body.role));
    assert verify(sign(c)) == Some(AuthMiddleware.Payload(nextId, body.role.s));
    AuthMiddleware.RegisteredRolesRefused(sign(c), verify, nextId, body.role.s);
  }

  // ---------------------------------------------------------------- PUT /me

  /** The guarded pushes of `PUT /me` in order; `newHash` is the new password's hash,
      or undefined when no new password is given. */
  function MeCandidates(body: MeBody, newHash: Input): seq<Candidate> {
    [Candidate("name", body.name, AsIs), Candidate("address", body.address, OrNull),
     Candidate("email", body.email, AsIs), Candidate("phone", body.phone, OrNull),
     Candidate("avatar_url", body.avatarUrl, OrNull), Candidate("password_hash", newHash, AsIs)]
  }

  /** What `PUT /me` decides before it writes. */
  datatype MePlan = Refuse(code: int, message: string) | Unchanged(index: nat) | Apply(index: nat, assignments: seq<Assignment>)

  function NewHash(body: MeBody, hash: string -> string): Input {
    if Given(body.newPassword) then Text(hash(body.newPassword.s)) else Input.Undefined
  }

  /** The stored hash is text and `compare` accepts the current password against it. */
  predicate CurrentAccepted(rec: UserRecord, current: string, compare: (string, string) -> bool) {
    Column(rec, "password_hash").SqlText? && compare(current, Column(rec, "password_hash").s)
  }

  /** The stored hash is text and `compare` rejects the current password. */
  predicate CurrentRejected(rec: UserRecord, current: string, compare: (string, string) -> bool) {
    Column(rec, "password_hash").SqlText? && !compare(current, Column(rec, "password_hash").s)
  }

  /** The user is looked up by the token's id; a new password needs the current one,
      checked against the stored hash; then the defined fields are assigned. */
  function PlanMe(users: seq<UserRecord>, userId: nat, body: MeBody,
                  compare: (string, string) -> bool, hash: string -> string): (p: MePlan)
    ensures p == Refuse(404, UserNotFound) <==> IndexOfId(users, userId).None?
    ensures p == Refuse(400, CurrentRequired) <==>
      IndexOfId(users, userId).Some? && Given(body.newPassword) && !Given(body.currentPassword)
    ensures p.Refuse? && p.code != 404 ==> Given(body.newPassword)
    ensures p == Refuse(500, ServerError) <==>
      IndexOfId(users, userId).Some? && Given(body.newPassword) && Given(body.currentPassword)
      && !Column(users[IndexOfId(users, userId).value], "password_hash").SqlText?
    ensures p == Refuse(400, CurrentWrong) <==>
      IndexOfId(users, userId).Some? && Given(body.newPassword) && Given(body.currentPassword)
      && CurrentRejected(users[IndexOfId(users, userId).value], body.currentPassword.s, compare)
    ensures IndexOfId(users, userId).Some? ==>
      (Given(body.newPassword) ==>
         Given(body.currentPassword) && CurrentAccepted(users[IndexOfId(users, userId).value], body.currentPassword.s, compare))
      ==> !p.Refuse?
    ensures !p.Refuse? ==>
      && IndexOfId(users, userId) == Some(p.index)
      && (Given(body.newPassword) ==>
            var stored := Column(users[p.index], "password_hash");
            Given(body.currentPassword) && stored.SqlText? && compare(body.currentPassword.s, stored.s))
    ensures p.Apply? ==> p.assignments != [] && p.assignments == Supplied(MeCandidates(body, NewHash(body, hash)))
    ensures p.Unchanged? ==> Supplied(MeCandidates(body, NewHash(body, hash))) == []
  {
    match IndexOfId(users, userId)
    case None => Refuse(404, UserNotFound)
    case Some(i) =>
      var stored := Column(users[i], "password_hash");
      if Given(body.newPassword) && !Given(body.currentPassword) then Refuse(400, CurrentRequired)
      else if Given(body.newPassword) && !stored.SqlText? then Refuse(500, ServerError)
      else if Given(body.newPassword) && !compare(body.currentPassword.s, stored.s) then Refuse(400, CurrentWrong)
      else
        var as_ := Supplied(MeCandidates(body, NewHash(body, hash)));
        if as_ == [] then Unchanged(i) else Apply(i, as_)
  }

  /** Nothing is written exactly when every field is undefined and no new password
      is given. */
  lemma UnchangedIffNothingGiven(body: MeBody, hash: string -> string)
    ensures Supplied(MeCandidates(body, NewHash(body, hash))) == [] <==>
      && body.name.Undefined? && body.address.Undefined? && body.email.Undefined?
      && body.phone.Undefined? && body.avatarUrl.Undefined? && !Given(body.newPassword)
  {
    var cs := MeCandidates(body, NewHash(body, hash));
    var as_ := Supplied(cs);
    if as_ == [] {
      forall i | 0 <= i < |cs|
        ensures cs[i].input.Undefined?
      {
        assert !cs[i].input.Undefined? ==> Assignment(cs[i].column, Coerce(cs[i].coercion, cs[i].input)) in as_;
      }
      assert cs[0].input.Undefined? && cs[1].input.Undefined? && cs[2].input.Undefined?;
      assert cs[3].input.Undefined? && cs[4].input.Undefined? && cs[5].input.Undefined?;
    }
    if && body.name.Undefined? && body.address.Undefined? && body.email.Undefined?
       && body.phone.Undefined? && body.avatarUrl.Undefined? && !Given(body.newPassword)
    {
      NoneDefinedNoneSupplied(cs);
    }
  }

  /** The statement as the route writes it: the id placeholder is `$$n`. */
  function MeStatementAsWritten(as_: seq<Assignment>, userId: nat): UpdateStatement {
    UpdateStatement("users",
      "UPDATE users SET " + Join(NumberedClauses(Columns(as_)), ", ") + " WHERE id = "
        + IdPlaceholderAsWritten(|as_| + 1) + MeReturning,
      BoundValues(as_) + [SqlId(userId)])
  }

  const MeReturning := " RETURNING id, name, email, phone, avatar_url, address, role"

  /** `$$${index}` in a template literal: two dollar signs, then the number. */
  function IdPlaceholderAsWritten(n: nat): string {
    "$$" + NatToString(n)
  }

  /** The statement with the id bound through an ordinary placeholder `$n`. */
  function MeStatement(as_: seq<Assignment>, userId: nat): UpdateStatement {
    UpdateStatement("users",
      "UPDATE users SET " + Join(NumberedClauses(Columns(as_)), ", ") + " WHERE id = "
        + Placeholder(|as_| + 1) + MeReturning,
      BoundValues(as_) + [SqlId(userId)])
  }

  /** A positional parameter: a dollar sign followed by decimal digits only. */
  predicate IsPlaceholder(p: string) {
    |p| >= 2 && p[0] == '$' && AllDigits(p[1..])
  }

  /** As written, the id is never a positional parameter: the text after `id = `
      begins with `$$`, which PostgreSQL reads as the start of a dollar-quoted
      string, so every update that assigns anything fails. */
  lemma AsWrittenIdIsNotAPlaceholder(as_: seq<Assignment>, userId: nat)
    ensures var p := IdPlaceholderAsWritten(|as_| + 1);
      !IsPlaceholder(p) && p[..2] == "$$"
  {
    var p := IdPlaceholderAsWritten(|as_| + 1);
    assert p[1..][0] == '$';
  }

  /** The smallest input that shows it: `{ name: "x" }` from user 7. */
  lemma AsWrittenExample()
    ensures MeStatementAsWritten([Assignment("name", SqlText("x"))], 7).text ==
      "UPDATE users SET name = $1 WHERE id = $$2" + MeReturning
  {
    var as_ := [Assignment("name", SqlText("x"))];
    assert Columns(as_) == ["name"];
    assert NatToString(1) == "1" && NatToString(2) == "2";
    assert Placeholder(1) == "$1";
    assert SetClause("name", 1) == "name = $1";
    assert NumberedClauses(["name"]) == ["name = $1"];
    assert Join(["name = $1"], ", ") == "name = $1";
    assert IdPlaceholderAsWritten(2) == "$$2";
    assert "UPDATE users SET " + "name = $1" + " WHERE id = " + "$$2" == "UPDATE users SET name = $1 WHERE id = $$2";
  }

  /** Corrected, the id placeholder is `$n` with `n` the number of bound values, and
      it binds the user's id; each `column = $k` binds the k-th supplied value. */
  lemma IdPlaceholderBindsUser(as_: seq<Assignment>, userId: nat)
    ensures var s := MeStatement(as_, userId);
      var p := Placeholder(|as_| + 1);
      && IsPlaceholder(p)
      && DigitsValue(p[1..]) == |s.values|
      && s.values[DigitsValue(p[1..]) - 1] == SqlId(userId)
      && (forall k :: 1 <= k <= |as_| ==>
            NumberedClauses(Columns(as_))[k - 1] == as_[k - 1].column + " = " + Placeholder(k)
            && s.values[k - 1] == as_[k - 1].value)
  {
  }

  /** The `PUT /me` columns are distinct, so an update assigns each supplied column
      its coerced value and keeps every other column. */
  lemma MeUpdateAssigns(row: Row, body: MeBody, newHash: Input)
    ensures var as_ := Supplied(MeCandidates(body, newHash));
      var r := ApplySet(row, as_);
      && (forall c :: c in row && c !in Columns(as_) ==> r[c] == row[c])
      && (forall i :: 0 <= i < |as_| ==> r[as_[i].column] == as_[i].value)
      && (forall c :: c in Columns(as_) ==> c in ["name", "address", "email", "phone", "avatar_url", "password_hash"])
  {
    var cs := MeCandidates(body, newHash);
    assert ColumnsOf(cs) == ["name", "address", "email", "phone", "avatar_url", "password_hash"];
    SuppliedColumnsDistinct(cs);
    var as_ := Supplied(cs);
    forall i | 0 <= i < |as_|
      ensures ApplySet(row, as_)[as_[i].column] == as_[i].value
    {
      ApplySetAssigns(row, as_, i);
    }
  }

  // ---------------------------------------------------------------- the table

  class UserTable {
    var users: seq<UserRecord>
    var nextId: nat

    ghost predicate Valid()
      reads this
    {
      WellFormed(users, nextId)
    }

    constructor ()
      ensures Valid() && users == []
    {
      users := [];
      nextId := 1;
    }

    /** `POST /register`: inserts the new record only on success. */
    method Register(body: RegisterBody, hash: string -> string, sign: Claims -> string) returns (res: Response)
      requires Valid()
      modifies this
      ensures Valid()
      ensures res == RegisterOutcome(old(users), old(nextId), body, hash, sign)
      ensures res.Authenticated? ==> users == old(users) + [NewRecord(old(nextId), body, hash)] && nextId == old(nextId) + 1
      ensures !res.Authenticated? ==> users == old(users) && nextId == old(nextId)
    {
      res := RegisterOutcome(users, nextId, body, hash, sign);
      if res.Authenticated? {
        var rec := NewRecord(nextId, body, hash);
        ghost var before := users;
        users := users + [rec];
        nextId := nextId + 1;
        forall i | 0 <= i < |users|
          ensures !EmailTaken(users, i, Column(users[i], "email"))
        {
          if i < |before| {
            assert !EmailTaken(before, i, Column(before[i], "email"));
            if Column(users[i], "email").SqlText? {
              assert !Has(rec, "email", Column(users[i], "email"));
            }
          }
        }
      }
    }

    /** `PUT /me` as the route is written: refusals and an update that assigns
        nothing answer without a write, and every update that assigns something
        sends the statement with `WHERE id = $$n`, which the database refuses as a
        syntax error; that is not a unique violation, so the catch answers 500 and
        nothing is written. */
    method UpdateMe(userId: nat, body: MeBody, compare: (string, string) -> bool, hash: string -> string)
      returns (res: Response)
      requires Valid()
      modifies this
      ensures Valid() && nextId == old(nextId) && users == old(users)
      ensures var p := PlanMe(old(users), userId, body, compare, hash);
        && (p.Refuse? ==> res == Failure(p.code, p.message))
        && (p.Unchanged? ==> res == UserOnly(Public(old(users)[p.index])))
        && (p.Apply? ==> res == Failure(500, ServerError))
    {
      var p := PlanMe(users, userId, body, compare, hash);
      match p
      case Refuse(code, message) =>
        res := Failure(code, message);
      case Unchanged(i) =>
        res := UserOnly(Public(users[i]));
      case Apply(i, as_) =>
        AsWrittenIdIsNotAPlaceholder(as_, userId);
        res := Failure(500, ServerError);
    }

    /** `PUT /me` with the id bound through `$n`: refusals and an update that assigns
        nothing leave the table as it was; an e-mail another user holds is refused
        by the unique constraint; otherwise the row is updated and returned. */
    method UpdateMeCorrected(userId: nat, body: MeBody, compare: (string, string) -> bool, hash: string -> string)
      returns (res: Response)
      requires Valid()
      modifies this
      ensures Valid() && nextId == old(nextId)
      ensures var p := PlanMe(old(users), userId, body, compare, hash);
        && (p.Refuse? ==> res == Failure(p.code, p.message) && users == old(users))
        && (p.Unchanged? ==> res == UserOnly(Public(old(users)[p.index])) && users == old(users))
        && (p.Apply? ==>
              var rec := old(users)[p.index];
              var updated := UserRecord(rec.id, ApplySet(rec.row, p.assignments));
              && (EmailTaken(old(users), p.index, Column(updated, "email")) ==>
                    res == Failure(400, EmailUsed) && users == old(users))
              && (!EmailTaken(old(users), p.index, Column(updated, "email")) ==>
                    res == UserOnly(Public(updated)) && users == old(users)[p.index := updated]))
    {
      var p := PlanMe(users, userId, body, compare, hash);
      match p
      case Refuse(code, message) =>
        res := Failure(code, message);
      case Unchanged(i) =>
        res := UserOnly(Public(users[i]));
      case Apply(i, as_) =>
        var rec := users[i];
        var updated := UserRecord(rec.id, ApplySet(rec.row, as_));
        if EmailTaken(users, i, Column(updated, "email")) {
          res := Failure(400, EmailUsed);
        } else {
          ghost var before := users;
          users := users[i := updated];
          res := UserOnly(Public(updated));
          forall j | 0 <= j < |users|
            ensures !EmailTaken(users, j, Column(users[j], "email"))
          {
            if j != i {
              assert !EmailTaken(before, j, Column(before[j], "email"));
              if Column(users[j], "email").SqlText? {
                assert !Has(updated, "email", Column(users[j], "email"));
              }
            }
          }
        }
    }
  }
}
