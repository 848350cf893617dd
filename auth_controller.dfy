/** The account controller (controllers/authController.js): registration
    and login, each attempting one audit write before answering. The write
    is lost while the store is down, and as written also for a caller
    recorded as "anonymous". */
module AuthController {
  import opened Common
  import opened Models
  import opened Http
  import opened Services
  import opened HistoryUtils

  /** Token lifetime: `expiresIn: '1d'`, in seconds. */
  const TokenLifetime: nat := 86400

  const MissingFields := "Missing required fields"
  const UserExists := "User already exists"
  const Registered := "User registered successfully!"
  const RegistrationFailed := "Registration failed"
  const MissingCredentials := "Missing email or password"
  const NoSuchUser := "User not found"
  const InvalidCredentials := "Invalid credentials"
  const LoginOk := "Login successful"
  const LoginFailed := "Login failed"

  /** The JSON request bodies; a field the client left out is None. */
  datatype RegisterBody = RegisterBody(name: Option<string>, email: Option<string>,
                                       password: Option<string>, isAdmin: Option<bool>)
  datatype LoginBody = LoginBody(email: Option<string>, password: Option<string>)

  /** `email || 'N/A'`. */
  function OrNA(s: Option<string>): string {
    if Truthy(s) then s.value else "N/A"
  }

  /** `User.findOne({email})`. */
  function UserByEmail(users: seq<User>, email: string): (r: Option<User>)
    ensures r.None? <==> forall u :: u in users ==> u.email != email
    ensures r.Some? ==> r.value in users && r.value.email == email
  {
    FindFirst(users, EmailIs(email))
  }

  /** The one `logAction(who, action)` call a handler makes. */
  datatype Audit = Audit(who: UserRef, action: string)

  const Anonymous := Label("anonymous")

  /** The response, the audit call, and the user created, if any. */
  datatype Registration = Registration(response: Response<()>, audit: Audit, created: Option<User>)

  /** The `catch` block of `register`. */
  function RegisterError(email: Option<string>, m: string): Registration {
    Registration(Response(500, MsgError(RegistrationFailed, m)),
                 Audit(Anonymous, "Registration Failed: Server error for " + OrNA(email) + " - " + m), None)
  }

  /** What `register` does, given the users, whether the store answers, the
      id the next insert gets, and the password hash. */
  function RegisterSpec(users: seq<User>, online: bool, nextId: Id, crypto: Crypto,
                        body: RegisterBody, now: int): (r: Registration)
    ensures r.audit.action != ""
    ensures !Truthy(body.name) || !Truthy(body.email) || !Truthy(body.password) ==>
              r.response == Response(400, Msg(MissingFields)) && r.created.None?
    ensures Truthy(body.email) && online && UserByEmail(users, body.email.value).Some? ==>
              r.created.None? && r.response.status == 400
    ensures r.created.Some? <==> r.response.status == 201
    ensures r.created.Some? <==>
              Truthy(body.name) && Truthy(body.email) && Truthy(body.password) && online
              && UserByEmail(users, body.email.value).None? && crypto.hash(body.password.value) != ""
    ensures r.created.Some? ==>
              var u := r.created.value;
              && u.id == nextId && u.name == body.name.value && u.email == body.email.value
              && u.password == crypto.hash(body.password.value)
              && (body.isAdmin.Some? ==> u.isAdmin == body.isAdmin.value)
              && (body.isAdmin.None? ==> !u.isAdmin)
              && r.audit == Audit(Ref(nextId), "User Registered: " + u.email)
  {
    if !Truthy(body.name) || !Truthy(body.email) || !Truthy(body.password) then
      Registration(Response(400, Msg(MissingFields)),
                   Audit(Anonymous, "Registration Failed: Missing fields for " + OrNA(body.email)), None)
    else if !online then RegisterError(body.email, DbUnavailable)
    else if UserByEmail(users, body.email.value).Some? then
      Registration(Response(400, Msg(UserExists)),
                   Audit(Anonymous, "Registration Failed: User already exists - " + body.email.value), None)
    else
      var hashed := crypto.hash(body.password.value);
      if hashed == "" then RegisterError(body.email, UserValidationFailed)
      else
        var u := NewUser(nextId, body.name.value, body.email.value, hashed, body.isAdmin, now);
        Registration(Response(201, Msg(Registered)), Audit(Ref(nextId), "User Registered: " + body.email.value), Some(u))
  }

  /** `register`: the decision of `RegisterSpec`, its one audit entry, and
      the new user appended to the users. */
  method Register(db: Db, crypto: Crypto, body: RegisterBody, now: int) returns (res: Response<()>)
    requires db.Valid()
    modifies db
    ensures db.Valid()
    ensures db.files == old(db.files) && db.online == old(db.online)
    ensures var r := RegisterSpec(old(db.users), old(db.online), old(db.nextId), crypto, body, now);
      && res == r.response
      && db.users == old(db.users) + (if r.created.Some? then [r.created.value] else [])
      && db.history == old(db.history) + Logged(old(db.online), r.audit.who, r.audit.action, EmptyDetails, now)
  {
    if !Truthy(body.name) || !Truthy(body.email) || !Truthy(body.password) {
      LogAction(db, Anonymous, "Registration Failed: Missing fields for " + OrNA(body.email), EmptyDetails, now);
      return Response(400, Msg(MissingFields));
    }
    var email := body.email.value;
    if !db.online {
      var r := RegisterError(body.email, DbUnavailable);
      LogAction(db, r.audit.who, r.audit.action, EmptyDetails, now);
      return r.response;
    }
    var existing := UserByEmail(db.users, email);
    if existing.Some? {
      LogAction(db, Anonymous, "Registration Failed: User already exists - " + email, EmptyDetails, now);
      return Response(400, Msg(UserExists));
    }
    var hashed := crypto.hash(body.password.value);
    var saved := db.InsertUser(body.name.value, email, hashed, body.isAdmin, now);
    if saved.Err? {
      var r := RegisterError(body.email, saved.message);
      LogAction(db, r.audit.who, r.audit.action, EmptyDetails, now);
      return r.response;
    }
    LogAction(db, Ref(saved.value.id), "User Registered: " + email, EmptyDetails, now);
    res := Response(201, Msg(Registered));
  }

  /** The response and the audit call of one login. */
  datatype LoginResult = LoginResult(response: Response<string>, audit: Audit)

  /** What `login` does, given the users, whether the store answers, and
      the password check and token signer. */
  function LoginSpec(users: seq<User>, online: bool, crypto: Crypto, body: LoginBody): (r: LoginResult)
    ensures r.audit.action != ""
    ensures !Truthy(body.email) || !Truthy(body.password) ==> r.response == Response(400, Msg(MissingCredentials))
    ensures Truthy(body.email) && Truthy(body.password) && online && UserByEmail(users, body.email.value).None? ==>
              r.response == Response(400, Msg(NoSuchUser))
    ensures Truthy(body.email) && Truthy(body.password) && !online ==>
              r.response == Response(500, MsgError(LoginFailed, DbUnavailable))
    ensures r.response.status == 200 <==>
              Truthy(body.email) && Truthy(body.password) && online
              && UserByEmail(users, body.email.value).Some?
              && crypto.compare(body.password.value, UserByEmail(users, body.email.value).value.password)
    ensures r.response.status == 200 ==>
              var u := UserByEmail(users, body.email.value).value;
              && r.response == Response(200, MsgData(LoginOk, crypto.sign(TokenPayload(u.id, u.isAdmin, u.name), TokenLifetime)))
              && r.audit == Audit(Ref(u.id), "User logged in: " + u.email)
    ensures r.response.status == 400 && Truthy(body.email) && Truthy(body.password)
            && UserByEmail(users, body.email.value).Some? ==>
              r.response == Response(400, Msg(InvalidCredentials))
              && r.audit.who == Ref(UserByEmail(users, body.email.value).value.id)
  {
    if !Truthy(body.email) || !Truthy(body.password) then
      LoginResult(Response(400, Msg(MissingCredentials)),
                  Audit(Anonymous, "Login Failed: Missing credentials for " + OrNA(body.email)))
    else if !online then
      LoginResult(Response(500, MsgError(LoginFailed, DbUnavailable)),
                  Audit(Anonymous, "Login Failed: Server error for " + body.email.value + " - " + DbUnavailable))
    else match UserByEmail(users, body.email.value)
      case None =>
        LoginResult(Response(400, Msg(NoSuchUser)), Audit(Anonymous, "Login Failed: User not found - " + body.email.value))
      case Some(u) =>
        if !crypto.compare(body.password.value, u.password) then
          LoginResult(Response(400, Msg(InvalidCredentials)),
                      Audit(Ref(u.id), "Login Failed: Invalid credentials for " + body.email.value))
        else
          LoginResult(Response(200, MsgData(LoginOk, crypto.sign(TokenPayload(u.id, u.isAdmin, u.name), TokenLifetime))),
                      Audit(Ref(u.id), "User logged in: " + u.email))
  }

  /** `login`: the decision of `LoginSpec` and its one audit entry; the
      users are not touched. */
  method Login(db: Db, crypto: Crypto, body: LoginBody, now: int) returns (res: Response<string>)
    requires db.Valid()
    modifies db
    ensures db.Valid()
    ensures db.users == old(db.users) && db.files == old(db.files) && db.online == old(db.online)
    ensures var r := LoginSpec(old(db.users), old(db.online), crypto, body);
      && res == r.response
      && db.history == old(db.history) + Logged(old(db.online), r.audit.who, r.audit.action, EmptyDetails, now)
  {
    if !Truthy(body.email) || !Truthy(body.password) {
      LogAction(db, Anonymous, "Login Failed: Missing credentials for " + OrNA(body.email), EmptyDetails, now);
      return Response(400, Msg(MissingCredentials));
    }
    var email := body.email.value;
    if !db.online {
      LogAction(db, Anonymous, "Login Failed: Server error for " + email + " - " + DbUnavailable, EmptyDetails, now);
      return Response(500, MsgError(LoginFailed, DbUnavailable));
    }
    var user := UserByEmail(db.users, email);
    if user.None? {
      LogAction(db, Anonymous, "Login Failed: User not found - " + email, EmptyDetails, now);
      return Response(400, Msg(NoSuchUser));
    }
    var u := user.value;
    if !crypto.compare(body.password.value, u.password) {
      LogAction(db, Ref(u.id), "Login Failed: Invalid credentials for " + email, EmptyDetails, now);
      return Response(400, Msg(InvalidCredentials));
    }
    var token := crypto.sign(TokenPayload(u.id, u.isAdmin, u.name), TokenLifetime);
    LogAction(db, Ref(u.id), "User logged in: " + u.email, EmptyDetails, now);
    res := Response(200, MsgData(LoginOk, token));
  }

  /** As written, `logAction('anonymous', ...)` appends nothing (the
      ObjectId cast rejects the label), so the source's `register` records
      exactly its successful registrations: every failure is audited as
      "anonymous". */
  lemma RegisterAuditAsWritten(users: seq<User>, online: bool, nextId: Id, crypto: Crypto,
                               body: RegisterBody, now: int)
    ensures var r := RegisterSpec(users, online, nextId, crypto, body, now);
      && (r.audit.who == Anonymous <==> r.response.status != 201)
      && LoggedAsWritten(online, r.audit.who, r.audit.action, EmptyDetails, now)
           == (if r.response.status == 201 then Logged(online, r.audit.who, r.audit.action, EmptyDetails, now) else [])
  {
    var r := RegisterSpec(users, online, nextId, crypto, body, now);
    if r.response.status == 201 {
      LoggedAgreesOnIds(online, r.audit.who, r.audit.action, EmptyDetails, now);
    }
  }

  /** As written, the source's `login` records only the attempts on a known
      account (a success or a wrong password); a missing credential, an
      unknown email or a store error is audited as "anonymous" and lost. */
  lemma LoginAuditAsWritten(users: seq<User>, online: bool, crypto: Crypto, body: LoginBody, now: int)
    ensures var r := LoginSpec(users, online, crypto, body);
      var known := r.response.status == 200 || r.response == Response(400, Msg(InvalidCredentials));
      && (r.audit.who == Anonymous <==> !known)
      && LoggedAsWritten(online, r.audit.who, r.audit.action, EmptyDetails, now)
           == (if known then Logged(online, r.audit.who, r.audit.action, EmptyDetails, now) else [])
  {
    var r := LoginSpec(users, online, crypto, body);
    if r.audit.who.Ref? {
      LoggedAgreesOnIds(online, r.audit.who, r.audit.action, EmptyDetails, now);
    }
  }

  /** Registering and then logging in with the same credentials succeeds
      (given a hash that the password check accepts), and the token names
      the new user with the role the registration stored. */
  lemma RegisterThenLogin(users: seq<User>, nextId: Id, crypto: Crypto, body: RegisterBody, now: int)
    requires RegisterSpec(users, true, nextId, crypto, body, now).created.Some?
    requires crypto.compare(body.password.value, crypto.hash(body.password.value))
    ensures var u := RegisterSpec(users, true, nextId, crypto, body, now).created.value;
      LoginSpec(users + [u], true, crypto, LoginBody(body.email, body.password)).response
        == Response(200, MsgData(LoginOk, crypto.sign(TokenPayload(nextId, u.isAdmin, u.name), TokenLifetime)))
  {
    var u := RegisterSpec(users, true, nextId, crypto, body, now).created.value;
    UserByEmailAppend(users, u);
  }

  /** Looking up a fresh email after appending its user finds that user. */
  lemma UserByEmailAppend(users: seq<User>, u: User)
    requires forall v :: v in users ==> v.email != u.email
    ensures UserByEmail(users + [u], u.email) == Some(u)
  {
    FindFirstAppend(users, u, EmailIs(u.email));
  }
}
