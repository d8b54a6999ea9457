/**
 * Sign-in (src/app/api/auth/login/route.ts): the typed access code is
 * upper-cased and trimmed, the user is looked up by it, the password is
 * compared with the stored hash, and one message answers both an unknown
 * code and a wrong password. On success the session token carries the
 * stored user, and the reply the public part of it.
 */
module Login {
  import opened Wrappers
  import opened Schema
  import opened Text
  import opened Http
  import opened Db
  import opened LoginIds
  import Registrar

  const MsgFieldsRequired := "ID de acesso e senha são obrigatórios"
  const MsgBadCredentials := "ID ou senha incorretos"
  const MsgInternal := "Erro interno do servidor"

  /** The JSON body of a sign-in. */
  datatype LoginRequest = LoginRequest(loginId: Option<string>, password: Option<string>)

  /** The user as the reply shows it: no email, no password hash. */
  datatype PublicUser = PublicUser(id: Id, loginId: string, name: string, role: Role)

  datatype LoginBody = LoginError(error: string) | LoggedIn(user: PublicUser)

  /** The reply, and the record given to `createToken` for the session cookie (None: no cookie). */
  datatype Outcome = Outcome(reply: Reply<LoginBody>, session: Option<AuthUser>)

  /**
   * The key the route looks the user up by: upper-case, with no white
   * space at its ends, and empty exactly when the typed id is blank.
   */
  function LookupKey(typed: string): (r: string)
    ensures Upper(r) == r
    ensures r == [] || (!IsSpace(r[0]) && !IsSpace(r[|r| - 1]))
    ensures r == [] <==> AllSpace(typed)
  {
    TrimOfUpperIsUpper(typed);
    TrimEmptyIffAllSpace(Upper(typed));
    UpperBlankIffBlank(typed);
    Trim(Upper(typed))
  }

  /** Trimming an upper-cased string leaves an upper-cased string. */
  lemma TrimOfUpperIsUpper(typed: string)
    ensures Upper(Trim(Upper(typed))) == Trim(Upper(typed))
  {
    var u := Upper(typed);
    var r := Trim(u);
    var k :| 0 <= k <= |u| - |r| && r == u[k..][..|r|] && AllSpace(u[..k]) && AllSpace(u[k + |r|..]);
    forall i | 0 <= i < |r| ensures Upper(r)[i] == r[i] {
      assert r[i] == u[k + i];
    }
  }

  /** Upper-casing neither makes nor removes white space. */
  lemma UpperBlankIffBlank(typed: string)
    ensures AllSpace(Upper(typed)) <==> AllSpace(typed)
  {
    assert forall i :: 0 <= i < |typed| ==> (IsSpace(Upper(typed)[i]) <==> IsSpace(typed[i]));
  }

  /** The user holding access code `key`, when one does. */
  ghost function Holder(users: map<Id, User>, key: string): (r: Option<Id>)
    ensures r.Some? <==> LoginIdInUse(users, key)
    ensures r.Some? ==> r.value in users && users[r.value].loginId == key
  {
    if LoginIdInUse(users, key) then
      var id :| id in users && users[id].loginId == key;
      Some(id)
    else None
  }

  /** Access codes are unique, so the holder is the only user with the code. */
  lemma HolderIsUnique(users: map<Id, User>, key: string, id: Id)
    requires LoginIdsUnique(users)
    requires id in users && users[id].loginId == key
    ensures Holder(users, key) == Some(id)
  {
  }

  /** The session claims: `createToken` is given the stored record. */
  function Claims(id: Id, u: User): AuthUser {
    AuthUser(id, u.loginId, u.name, u.email, u.role)
  }

  /** POST `/api/auth/login`; `compare` is bcrypt's password check. */
  ghost function SignIn(users: map<Id, User>, body: Result<LoginRequest>, compare: (string, string) -> bool): (o: Outcome)
    ensures o.session.Some? <==> o.reply.status == 200
    ensures o.reply.status == 200 ==>
      && body.Ok? && Truthy(body.value.loginId) && Truthy(body.value.password)
      && Holder(users, LookupKey(body.value.loginId.value)).Some?
    ensures o.reply.status == 400 <==>
      body.Ok? && (!Truthy(body.value.loginId) || !Truthy(body.value.password))
  {
    if body.Err? then Outcome(Reply(500, LoginError(MsgInternal)), None)
    else if !Truthy(body.value.loginId) || !Truthy(body.value.password) then
      Outcome(Reply(400, LoginError(MsgFieldsRequired)), None)
    else
      match Holder(users, LookupKey(body.value.loginId.value))
      case None => Outcome(Reply(401, LoginError(MsgBadCredentials)), None)
      case Some(id) =>
        var u := users[id];
        if !compare(body.value.password.value, u.passwordHash) then Outcome(Reply(401, LoginError(MsgBadCredentials)), None)
        else Outcome(Reply(200, LoggedIn(PublicUser(id, u.loginId, u.name, u.role))), Some(Claims(id, u)))
  }

  /**
   * An unknown code and a wrong password cannot be told apart: both give
   * the same 401 reply and no cookie.
   */
  lemma UniformRejection(users: map<Id, User>, req: LoginRequest, compare: (string, string) -> bool)
    requires Truthy(req.loginId) && Truthy(req.password)
    requires var h := Holder(users, LookupKey(req.loginId.value));
      h.None? || !compare(req.password.value, users[h.value].passwordHash)
    ensures SignIn(users, Ok(req), compare) == Outcome(Reply(401, LoginError(MsgBadCredentials)), None)
  {
  }

  /**
   * On success the session carries the stored record of the user holding the
   * normalised code, and the reply only that user's id, code, name and role.
   */
  lemma SuccessUsesStoredRecord(users: map<Id, User>, req: LoginRequest, compare: (string, string) -> bool)
    requires SignIn(users, Ok(req), compare).reply.status == 200
    ensures var o := SignIn(users, Ok(req), compare);
      var id := Holder(users, LookupKey(req.loginId.value)).value;
      && id in users && users[id].loginId == Trim(Upper(req.loginId.value))
      && compare(req.password.value, users[id].passwordHash)
      && o.session == Some(AuthUser(id, users[id].loginId, users[id].name, users[id].email, users[id].role))
      && o.reply == Reply(200, LoggedIn(PublicUser(id, users[id].loginId, users[id].name, users[id].role)))
  {
  }

  /**
   * A freshly registered account can sign in with the code it was given,
   * typed in any letter case and with white space around it.
   */
  lemma RegisteredAccountCanSignIn(t: Tables, reg: Registrar.RegistrationRequest, candidates: seq<string>,
                                   passwordHash: string, db: DbReply, typed: string, pre: string, post: string,
                                   password: string, compare: (string, string) -> bool)
    requires Consistent(t)
    requires |candidates| == Registrar.Attempts && Registrar.Drawn(candidates)
    requires Registrar.Registration(t, Ok(reg), candidates, passwordHash, db).reply.status == 201
    requires Upper(typed) == Registrar.Registration(t, Ok(reg), candidates, passwordHash, db).reply.body.loginId
    requires AllSpace(pre) && AllSpace(post)
    requires password != "" && compare(password, passwordHash)
    ensures var o := Registrar.Registration(t, Ok(reg), candidates, passwordHash, db);
      SignIn(o.tables.users, Ok(LoginRequest(Some(pre + typed + post), Some(password))), compare).session ==
        Some(Claims(t.nextId, o.tables.users[t.nextId]))
  {
    var o := Registrar.Registration(t, Ok(reg), candidates, passwordHash, db);
    Registrar.RegisteredAccount(t, reg, candidates, passwordHash, db);
    var users := o.tables.users;
    var id := o.reply.body.loginId;
    assert t.nextId in users && users[t.nextId].loginId == id && users[t.nextId].passwordHash == passwordHash;
    TypedLoginIdNormalises(id, typed, pre, post);
    assert LoginIdsUnique(users);
    HolderSignsIn(users, t.nextId, pre + typed + post, password, compare);
  }

  /** The holder of the normalised code with a matching password signs in, with its stored record. */
  lemma HolderSignsIn(users: map<Id, User>, id: Id, typed: string, password: string, compare: (string, string) -> bool)
    requires LoginIdsUnique(users)
    requires id in users && users[id].loginId == LookupKey(typed) && users[id].loginId != ""
    requires password != "" && compare(password, users[id].passwordHash)
    ensures SignIn(users, Ok(LoginRequest(Some(typed), Some(password))), compare).session == Some(Claims(id, users[id]))
  {
    HolderIsUnique(users, LookupKey(typed), id);
  }

  /** POST `/api/auth/login` on the store, which it only reads. */
  method Post(s: Store, body: Result<LoginRequest>, compare: (string, string) -> bool)
    returns (r: Reply<LoginBody>, session: Option<AuthUser>)
    requires s.Valid()
    ensures Outcome(r, session) == SignIn(s.users, body, compare)
  {
    if body.Err? {
      return Reply(500, LoginError(MsgInternal)), None;
    }
    var loginId := body.value.loginId;
    var password := body.value.password;
    if !Truthy(loginId) || !Truthy(password) {
      return Reply(400, LoginError(MsgFieldsRequired)), None;
    }
    var key := LookupKey(loginId.value);
    if !LoginIdInUse(s.users, key) {
      return Reply(401, LoginError(MsgBadCredentials)), None;
    }
    var id :| id in s.users && s.users[id].loginId == key;
    HolderIsUnique(s.users, key, id);
    var user := s.users[id];
    if !compare(password.value, user.passwordHash) {
      return Reply(401, LoginError(MsgBadCredentials)), None;
    }
    // the cookie's token is built from the stored record
    session := Some(Claims(id, user));
    r := Reply(200, LoggedIn(PublicUser(id, user.loginId, user.name, user.role)));
  }
}
