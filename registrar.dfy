/**
 * Account registration (src/app/api/auth/registrar/route.ts): a chain of
 * field checks, a duplicate-email check, at most three login-id draws of
 * which the first free one is taken, then the user insert.
 */
module Registrar {
  import opened Wrappers
  import opened Schema
  import opened Text
  import opened Http
  import opened Db
  import opened LoginIds

  const MsgFieldsRequired := "Todos os campos são obrigatórios"
  const MsgPasswordShort := "A senha deve ter no mínimo 6 caracteres"
  const MsgBadRole := "Tipo de conta inválido"
  const MsgEmailTaken := "Este email já está cadastrado"
  const MsgLoginIdExhausted := "Erro ao gerar ID de acesso. Tente novamente."
  const MsgCreateAccountFailed := "Erro ao criar conta: "
  const MsgInternal := "Erro interno: "
  const MsgWelcome := "Conta criada com sucesso! Anote seu ID de acesso."
  const MinPasswordLength: nat := 6
  const Attempts: nat := 3

  /** What the three `generateLoginId()` calls return: access codes, none empty. */
  predicate Drawn(candidates: seq<string>) {
    forall i :: 0 <= i < |candidates| ==> IsLoginId(candidates[i])
  }

  /** The JSON body of a registration. */
  datatype RegistrationRequest = RegistrationRequest(
    name: Option<string>, email: Option<string>, password: Option<string>, role: Option<string>)

  /** The reply body: an error, or the new account's login id and a notice. */
  datatype RegistrationBody = RegistrationError(error: string) | Registered(loginId: string, message: string)

  /** The email as the route stores it: lower-cased, then trimmed. */
  function StoredEmail(email: string): string {
    Trim(Lower(email))
  }

  predicate EmailInUse(users: map<Id, User>, email: string) {
    exists id :: id in users && users[id].email == email
  }

  /** The users whose stored email is exactly `email`. */
  function UsersWithEmail(users: map<Id, User>, email: string): set<Id> {
    set id | id in users && users[id].email == email
  }

  /**
   * The duplicate check as written: it looks up the lower-cased email,
   * untrimmed, and `.single()` yields a row only when exactly one user holds it.
   */
  predicate EmailTakenAsWritten(users: map<Id, User>, email: string) {
    |UsersWithEmail(users, Lower(email))| == 1
  }

  /** The duplicate check on the email the route stores, against any holder. */
  predicate EmailTaken(users: map<Id, User>, email: string) {
    EmailInUse(users, StoredEmail(email))
  }

  /** No two users share an email. */
  ghost predicate EmailsUnique(users: map<Id, User>) {
    forall a, b :: a in users && b in users && users[a].email == users[b].email ==> a == b
  }

  /**
   * The as-written check lets a padded spelling of a registered email
   * through, although the row it leads to would repeat that email.
   */
  lemma PaddedEmailPassesAsWrittenCheck()
    ensures var users := map[0 := User("ABCDEF", "Ana", "x", "h", Cliente)];
      !EmailTakenAsWritten(users, " x") && StoredEmail(" x") == users[0].email
  {
    var users := map[0 := User("ABCDEF", "Ana", "x", "h", Cliente)];
    var padded := Lower(" x");
    assert padded[0] == ' ' && padded[1] == 'x';
    assert padded == " x";
    assert padded != users[0].email by {
      assert |padded| != |users[0].email|;
    }
    assert UsersWithEmail(users, padded) == {};
    assert TrimEnd(" x") == " x";
    assert " x"[1..] == "x";
    assert TrimStart("x") == "x";
    assert StoredEmail(" x") == "x";
  }

  /**
   * The corrected check keeps emails unique: a user stored with an email
   * that passed it repeats no email already registered.
   */
  lemma EmailCheckKeepsEmailsUnique(users: map<Id, User>, id: Id, u: User, email: string)
    requires EmailsUnique(users) && id !in users
    requires !EmailTaken(users, email) && u.email == StoredEmail(email)
    ensures EmailsUnique(users[id := u])
  {
  }

  /** A user whose login id is free can be inserted. */
  lemma InsertUserConsistent(t: Tables, u: User)
    requires Consistent(t)
    requires !LoginIdInUse(t.users, u.loginId)
    ensures Consistent(t.(users := t.users[t.nextId := u], nextId := t.nextId + 1))
  {
    LoginIdKeepsLoginIdsUnique(t.users, t.nextId, u);
  }

  /** A user stored with a free login id repeats no login id. */
  lemma LoginIdKeepsLoginIdsUnique(users: map<Id, User>, id: Id, u: User)
    requires LoginIdsUnique(users) && id !in users && !LoginIdInUse(users, u.loginId)
    ensures LoginIdsUnique(users[id := u])
  {
  }

  /**
   * The login-id draws in order, the first that no user holds; None when
   * every draw is taken.
   */
  function FirstFree(users: map<Id, User>, candidates: seq<string>): (r: Option<string>)
    ensures r.None? <==> forall i :: 0 <= i < |candidates| ==> LoginIdInUse(users, candidates[i])
    ensures r.Some? ==> r.value in candidates && !LoginIdInUse(users, r.value)
    ensures r.Some? ==>
      exists k :: 0 <= k < |candidates| && candidates[k] == r.value && !LoginIdInUse(users, candidates[k]) &&
        forall j :: 0 <= j < k ==> LoginIdInUse(users, candidates[j])
  {
    if candidates == [] then None
    else if !LoginIdInUse(users, candidates[0]) then Some(candidates[0])
    else
      var r := FirstFree(users, candidates[1..]);
      if r.Some? then
        var k :| 0 <= k < |candidates[1..]| && candidates[1..][k] == r.value && !LoginIdInUse(users, candidates[1..][k]) &&
          forall j :: 0 <= j < k ==> LoginIdInUse(users, candidates[1..][j]);
        assert candidates[k + 1] == r.value;
        r
      else r
  }

  /** The route's checks on the body, in order; None when every field is acceptable. */
  function FieldError(req: RegistrationRequest): (r: Option<string>)
    ensures r.None? <==>
      Truthy(req.name) && Truthy(req.email) && Truthy(req.password) && Truthy(req.role) &&
      |req.password.value| >= MinPasswordLength && ParseRole(req.role.value).Some?
  {
    if !Truthy(req.name) || !Truthy(req.email) || !Truthy(req.password) || !Truthy(req.role) then Some(MsgFieldsRequired)
    else if |req.password.value| < MinPasswordLength then Some(MsgPasswordShort)
    else if ParseRole(req.role.value).None? then Some(MsgBadRole)
    else None
  }

  /** The user row a valid request inserts. */
  function NewUser(req: RegistrationRequest, loginId: string, passwordHash: string): (u: User)
    requires FieldError(req).None?
    ensures u.loginId == loginId && u.passwordHash == passwordHash
    ensures u.name == Trim(req.name.value) && u.email == Trim(Lower(req.email.value))
    ensures RoleName(u.role) == req.role.value
  {
    User(loginId, Trim(req.name.value), StoredEmail(req.email.value), passwordHash, ParseRole(req.role.value).value)
  }

  /** Every check before the duplicate-email lookup passes. */
  predicate FieldsValid(body: Result<RegistrationRequest>) {
    body.Ok? && FieldError(body.value).None?
  }

  /**
   * POST `/api/auth/registrar` on the tables, for a given duplicate-email
   * check `emailTaken` on the users and the typed email. `candidates` are
   * the login-id draws, `passwordHash` the bcrypt hash, `db` the insert's
   * reply, which carries any refusal by the database.
   */
  ghost function Register(t: Tables, body: Result<RegistrationRequest>, candidates: seq<string>,
                          passwordHash: string, db: DbReply, emailTaken: (map<Id, User>, string) -> bool): (o: Step<RegistrationBody>)
    requires Consistent(t)
    requires |candidates| == Attempts && Drawn(candidates)
    ensures Consistent(o.tables)
    // the replies before the insert, each writing nothing
    ensures body.Err? ==> o == Step(t, Reply(500, RegistrationError(MsgInternal + body.message)))
    ensures body.Ok? && FieldError(body.value).Some? ==> o == Step(t, Reply(400, RegistrationError(FieldError(body.value).value)))
    ensures o.reply.status == 409 <==> FieldsValid(body) && emailTaken(t.users, body.value.email.value)
    ensures o.reply.status == 409 ==> o == Step(t, Reply(409, RegistrationError(MsgEmailTaken)))
    ensures FieldsValid(body) && !emailTaken(t.users, body.value.email.value) && FirstFree(t.users, candidates).None? ==>
      o == Step(t, Reply(500, RegistrationError(MsgLoginIdExhausted)))
    ensures FieldsValid(body) && !emailTaken(t.users, body.value.email.value) && FirstFree(t.users, candidates).Some? && db.DbError? ==>
      o == Step(t, Reply(500, RegistrationError(MsgCreateAccountFailed + db.message)))
    // a registered account is the only write, exactly one user row
    ensures o.reply.status == 201 <==>
      FieldsValid(body) && !emailTaken(t.users, body.value.email.value) && FirstFree(t.users, candidates).Some? && db.DbOk?
    ensures o.reply.status != 201 ==> o.tables == t
    ensures o.reply.status == 201 ==>
      && o.reply.body == Registered(FirstFree(t.users, candidates).value, MsgWelcome)
      && o.tables == t.(users := t.users[t.nextId := NewUser(body.value, FirstFree(t.users, candidates).value, passwordHash)],
                        nextId := t.nextId + 1)
  {
    if body.Err? then Step(t, Reply(500, RegistrationError(MsgInternal + body.message)))
    else if FieldError(body.value).Some? then Step(t, Reply(400, RegistrationError(FieldError(body.value).value)))
    else if emailTaken(t.users, body.value.email.value) then Step(t, Reply(409, RegistrationError(MsgEmailTaken)))
    else
      match FirstFree(t.users, candidates)
      case None => Step(t, Reply(500, RegistrationError(MsgLoginIdExhausted)))
      case Some(loginId) =>
        if db.DbError? then Step(t, Reply(500, RegistrationError(MsgCreateAccountFailed + db.message)))
        else
          var u := NewUser(body.value, loginId, passwordHash);
          InsertUserConsistent(t, u);
          Step(t.(users := t.users[t.nextId := u], nextId := t.nextId + 1), Reply(201, Registered(loginId, MsgWelcome)))
  }

  /** The route as written: its duplicate check is `EmailTakenAsWritten`. */
  ghost function Registration(t: Tables, body: Result<RegistrationRequest>, candidates: seq<string>,
                              passwordHash: string, db: DbReply): (o: Step<RegistrationBody>)
    requires Consistent(t)
    requires |candidates| == Attempts && Drawn(candidates)
    ensures Consistent(o.tables)
    ensures o.reply.status == 409 <==> FieldsValid(body) && EmailTakenAsWritten(t.users, body.value.email.value)
    ensures o.reply.status == 201 <==>
      FieldsValid(body) && !EmailTakenAsWritten(t.users, body.value.email.value) && FirstFree(t.users, candidates).Some? && db.DbOk?
    ensures o.reply.status != 201 ==> o.tables == t
  {
    Register(t, body, candidates, passwordHash, db, EmailTakenAsWritten)
  }

  /**
   * As written, a request whose email differs from a stored one only by
   * surrounding white space registers, and the users then share an email.
   */
  lemma PaddedDuplicateIsStored(t: Tables, req: RegistrationRequest, candidates: seq<string>, passwordHash: string, holder: Id)
    requires Consistent(t)
    requires |candidates| == Attempts && Drawn(candidates)
    requires FieldError(req).None? && FirstFree(t.users, candidates).Some?
    requires holder in t.users && t.users[holder].email == StoredEmail(req.email.value)
    requires !EmailTakenAsWritten(t.users, req.email.value)
    ensures var o := Registration(t, Ok(req), candidates, passwordHash, DbOk);
      && o.reply.status == 201
      && holder in o.tables.users && t.nextId in o.tables.users && holder != t.nextId
      && o.tables.users[holder].email == o.tables.users[t.nextId].email
      && !EmailsUnique(o.tables.users)
  {
    var o := Registration(t, Ok(req), candidates, passwordHash, DbOk);
    var u := NewUser(req, FirstFree(t.users, candidates).value, passwordHash);
    assert o.tables.users == t.users[t.nextId := u];
    SharedEmailAfterInsert(t.users, t.nextId, u, holder);
  }

  /** Inserting a user whose email a stored user holds breaks email uniqueness. */
  lemma SharedEmailAfterInsert(users: map<Id, User>, id: Id, u: User, holder: Id)
    requires id !in users && holder in users && users[holder].email == u.email
    ensures var after := users[id := u];
      holder in after && id in after && holder != id && after[holder].email == after[id].email && !EmailsUnique(after)
  {
  }

  /** The corrected route: the duplicate check looks up the email in the form it is stored. */
  ghost function RegistrationCheckingStoredEmail(t: Tables, body: Result<RegistrationRequest>, candidates: seq<string>,
                                                 passwordHash: string, db: DbReply): (o: Step<RegistrationBody>)
    requires Consistent(t)
    requires |candidates| == Attempts && Drawn(candidates)
    ensures Consistent(o.tables)
    ensures o.reply.status == 409 <==> FieldsValid(body) && EmailTaken(t.users, body.value.email.value)
    // registered emails stay unique
    ensures EmailsUnique(t.users) ==> EmailsUnique(o.tables.users)
  {
    var o := Register(t, body, candidates, passwordHash, db, EmailTaken);
    if o.reply.status == 201 && EmailsUnique(t.users) then
      EmailCheckKeepsEmailsUnique(t.users, t.nextId, NewUser(body.value, FirstFree(t.users, candidates).value, passwordHash),
                                  body.value.email.value);
      o
    else
      o
  }

  /** The body checks answer in order, each with its own message, before any lookup. */
  lemma ChecksInOrder(t: Tables, req: RegistrationRequest, candidates: seq<string>, passwordHash: string, db: DbReply)
    requires Consistent(t)
    requires |candidates| == Attempts && Drawn(candidates)
    ensures var r := Registration(t, Ok(req), candidates, passwordHash, db).reply;
      && (!Truthy(req.name) || !Truthy(req.email) || !Truthy(req.password) || !Truthy(req.role) ==>
            r == Reply(400, RegistrationError(MsgFieldsRequired)))
      && (Truthy(req.name) && Truthy(req.email) && Truthy(req.password) && Truthy(req.role) ==>
            && (|req.password.value| < MinPasswordLength ==> r == Reply(400, RegistrationError(MsgPasswordShort)))
            && (|req.password.value| >= MinPasswordLength && req.role.value != "cliente" && req.role.value != "validador" ==>
                  r == Reply(400, RegistrationError(MsgBadRole))))
  {
  }

  /** A registered email gives 409 and no user is inserted. */
  lemma DuplicateEmailConflicts(t: Tables, req: RegistrationRequest, candidates: seq<string>, passwordHash: string, db: DbReply)
    requires Consistent(t)
    requires |candidates| == Attempts && Drawn(candidates)
    requires FieldError(req).None? && EmailTakenAsWritten(t.users, req.email.value)
    ensures Registration(t, Ok(req), candidates, passwordHash, db) == Step(t, Reply(409, RegistrationError(MsgEmailTaken)))
  {
  }

  /** When all three draws are taken the reply is 500 and nothing is inserted. */
  lemma ExhaustedDrawsFail(t: Tables, req: RegistrationRequest, candidates: seq<string>, passwordHash: string, db: DbReply)
    requires Consistent(t)
    requires |candidates| == Attempts && Drawn(candidates)
    requires FieldError(req).None? && !EmailTakenAsWritten(t.users, req.email.value)
    requires forall i :: 0 <= i < |candidates| ==> LoginIdInUse(t.users, candidates[i])
    ensures Registration(t, Ok(req), candidates, passwordHash, db) == Step(t, Reply(500, RegistrationError(MsgLoginIdExhausted)))
  {
  }

  /**
   * A new account holds the first free draw, which the reply returns, a
   * trimmed name, the lower-cased trimmed email and the requested role; its
   * login id was held by nobody, and its email passed the check as written.
   */
  lemma RegisteredAccount(t: Tables, req: RegistrationRequest, candidates: seq<string>, passwordHash: string, db: DbReply)
    requires Consistent(t)
    requires |candidates| == Attempts && Drawn(candidates)
    requires Registration(t, Ok(req), candidates, passwordHash, db).reply.status == 201
    ensures var o := Registration(t, Ok(req), candidates, passwordHash, db);
      var u := o.tables.users[t.nextId];
      && t.nextId !in t.users
      && o.reply.body == Registered(u.loginId, MsgWelcome)
      && IsLoginId(u.loginId) && !LoginIdInUse(t.users, u.loginId)
      && u.name == Trim(req.name.value) && u.email == Trim(Lower(req.email.value)) && !EmailTakenAsWritten(t.users, req.email.value)
      && RoleName(u.role) == req.role.value && u.passwordHash == passwordHash
  {
    var o := Registration(t, Ok(req), candidates, passwordHash, db);
    var k :| 0 <= k < |candidates| && candidates[k] == FirstFree(t.users, candidates).value;
    assert IsLoginId(candidates[k]);
  }

  /**
   * The retry loop: at most three draws, the first one no user holds is
   * kept; the empty string when all three are taken.
   */
  method DrawLoginId(users: map<Id, User>, candidates: seq<string>) returns (loginId: string)
    requires |candidates| == Attempts && Drawn(candidates)
    ensures loginId == "" <==> FirstFree(users, candidates).None?
    ensures loginId != "" ==> FirstFree(users, candidates) == Some(loginId)
  {
    loginId := "";
    for i := 0 to Attempts
      invariant loginId == "" ==> FirstFree(users, candidates) == FirstFree(users, candidates[i..])
      invariant loginId != "" ==> FirstFree(users, candidates) == Some(loginId)
    {
      if !LoginIdInUse(users, candidates[i]) {
        loginId := candidates[i];
        break;
      }
    }
  }

  /** POST `/api/auth/registrar`. */
  method Post(s: Store, body: Result<RegistrationRequest>, candidates: seq<string>, passwordHash: string, db: DbReply)
    returns (r: Reply<RegistrationBody>)
    requires s.Valid()
    requires |candidates| == Attempts && Drawn(candidates)
    modifies s
    ensures s.Valid()
    ensures var o := Registration(old(s.State()), body, candidates, passwordHash, db);
      s.State() == o.tables && r == o.reply
  {
    if body.Err? {
      return Reply(500, RegistrationError(MsgInternal + body.message));
    }
    var req := body.value;
    var error := FieldError(req);
    if error.Some? {
      return Reply(400, RegistrationError(error.value));
    }
    // the lookup uses the lower-cased email, and `.single()` finds a row only when exactly one user holds it
    var matches := set id | id in s.users && s.users[id].email == Lower(req.email.value);
    assert matches == UsersWithEmail(s.users, Lower(req.email.value));
    if |matches| == 1 {
      return Reply(409, RegistrationError(MsgEmailTaken));
    }
    var loginId := DrawLoginId(s.users, candidates);
    if loginId == "" {
      return Reply(500, RegistrationError(MsgLoginIdExhausted));
    }
    if db.DbError? {
      return Reply(500, RegistrationError(MsgCreateAccountFailed + db.message));
    }
    var u := User(loginId, Trim(req.name.value), StoredEmail(req.email.value), passwordHash, ParseRole(req.role.value).value);
    assert u == NewUser(req, loginId, passwordHash);
    InsertUserConsistent(s.State(), u);
    var _ := s.InsertUser(u);
    r := Reply(201, Registered(loginId, MsgWelcome));
  }
}
