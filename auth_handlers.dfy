/** internal/handlers/auth.go: local e-mail and password accounts. bcrypt and
    the session-token codec are parameters: `hash` stands for
    `GenerateFromPassword` (None when it fails), `matches` for
    `CompareHashAndPassword` (true when the password fits the hash), and
    `isEmail` for the validator's `email` tag. */
module AuthHandlers {
  import opened Common
  import opened Store
  import opened AuthMiddleware

  datatype SignupRequest = SignupRequest(email: string, password: string)
  datatype LoginRequest = LoginRequest(email: string, password: string)

  /** `binding:"required,email"`: the first failing tag is reported. */
  function EmailCheck(email: string, isEmail: string -> bool): FieldCheck {
    if email == "" then Required("Email", email) else FieldCheck("Email", "email", isEmail(email))
  }

  /** `binding:"required,min=6"` on the password. */
  function SignupChecks(req: SignupRequest, isEmail: string -> bool): seq<FieldCheck> {
    [EmailCheck(req.email, isEmail),
     if req.password == "" then Required("Password", req.password)
     else FieldCheck("Password", "min", |req.password| >= 6)]
  }

  /** `binding:"required"` on the password. */
  function LoginChecks(req: LoginRequest, isEmail: string -> bool): seq<FieldCheck> {
    [EmailCheck(req.email, isEmail), Required("Password", req.password)]
  }

  /** A signup passes binding exactly when the e-mail is present and well
      formed and the password has at least six characters. */
  lemma SignupBindsIff(req: SignupRequest, isEmail: string -> bool)
    ensures BindingError("SignupRequest", SignupChecks(req, isEmail)).None?
      <==> req.email != "" && isEmail(req.email) && |req.password| >= 6
  {
    BindingAcceptsIffAllTagsHold("SignupRequest", SignupChecks(req, isEmail));
    var checks := SignupChecks(req, isEmail);
    assert checks[0] == EmailCheck(req.email, isEmail);
  }

  // ---------------------------------------------------------------- signup

  /** The row `Signup` inserts: the given e-mail, the hash, role "user", and
      every other column NULL. */
  function NewAccount(id: UserId, email: string, hashed: string): (u: User)
    ensures u.id == id && u.email == email && u.role == "user" && u.passwordHash == Some(hashed)
    ensures u.firebaseUid.None? && u.username.None?
  {
    User(id, email, Some(hashed), None, "user", None, None, None, None, None, None)
  }

  predicate EmailTaken(users: map<UserId, User>, email: string) {
    exists u :: u in users && users[u].email == email
  }

  /** A signup whose e-mail is free keeps the users table valid. */
  lemma SignupKeepsUsersValid(users: map<UserId, User>, id: UserId, email: string, hashed: string)
    requires UsersValid(users) && id !in users && !EmailTaken(users, email)
    ensures UsersValid(users[id := NewAccount(id, email, hashed)])
  {
  }

  /** What `Signup` answers with 201: without a token when issuing one failed,
      otherwise with the token and the new account. */
  datatype SignupReply =
    | CreatedWithoutToken(message: string, userId: UserId)
    | CreatedWithToken(message: string, token: string, userId: UserId, email: string, role: string)

  /** `Signup`. `newId` is the id the database assigns; the insert fails
      (409) exactly when the e-mail is taken, by the unique constraint. */
  method Signup(db: Db, body: Body<SignupRequest>, isEmail: string -> bool, hash: string -> Option<string>,
                codec: TokenCodec, newId: UserId)
    returns (r: Response<SignupReply>)
    requires db.Valid() && newId !in db.users
    modifies db`users
    ensures db.Valid()
    ensures r.Err? ==> db.users == old(db.users)
    ensures BodyRefusal(body, "SignupRequest", req => SignupChecks(req, isEmail)).Some? ==>
      r == Err(StatusBadRequest, BodyRefusal(body, "SignupRequest", req => SignupChecks(req, isEmail)).value)
    ensures BodyRefusal(body, "SignupRequest", req => SignupChecks(req, isEmail)).None? ==>
      var req := body.value;
      && (hash(req.password).None? ==> r == Err(StatusInternalServerError, "Failed to hash password"))
      && (hash(req.password).Some? && EmailTaken(old(db.users), req.email) ==>
            r == Err(StatusConflict, "User already exists"))
      && (hash(req.password).Some? && !EmailTaken(old(db.users), req.email) ==>
            && db.users == old(db.users)[newId := NewAccount(newId, req.email, hash(req.password).value)]
            && r.Ok? && r.status == StatusCreated
            && (codec.issue(newId, "user").None? ==>
                  r.body == CreatedWithoutToken("User created, please login", newId))
            && (codec.issue(newId, "user").Some? ==>
                  r.body == CreatedWithToken("User created successfully", codec.issue(newId, "user").value,
                                             newId, req.email, "user")))
  {
    if body.Undecodable? {
      return Err(StatusBadRequest, body.reason);
    }
    var req := body.value;
    var bindError := BindingError("SignupRequest", SignupChecks(req, isEmail));
    if bindError.Some? {
      return Err(StatusBadRequest, bindError.value);
    }
    var hashed := hash(req.password);
    if hashed.None? {
      return Err(StatusInternalServerError, "Failed to hash password");
    }
    if EmailTaken(db.users, req.email) {
      return Err(StatusConflict, "User already exists");
    }
    SignupKeepsUsersValid(db.users, newId, req.email, hashed.value);
    db.users := db.users[newId := NewAccount(newId, req.email, hashed.value)];
    var token := codec.issue(newId, "user");
    if token.None? {
      return Ok(StatusCreated, CreatedWithoutToken("User created, please login", newId));
    }
    return Ok(StatusCreated, CreatedWithToken("User created successfully", token.value, newId, req.email, "user"));
  }

  // ---------------------------------------------------------------- login

  datatype LoginReply = LoginReply(token: string, role: string, userId: UserId)

  /** The row `SELECT id, role, password_hash ... WHERE email = $1` scans: a
      user with that e-mail whose password hash is not NULL (a NULL hash
      fails the scan into a plain string, as for accounts created through
      Firebase). */
  ghost function Credentials(users: map<UserId, User>, email: string): (found: Option<UserId>)
    ensures found.Some? ==>
      found.value in users && users[found.value].email == email && users[found.value].passwordHash.Some?
    ensures found.None? ==> forall u :: u in users && users[u].email == email ==> users[u].passwordHash.None?
  {
    if exists u :: u in users && users[u].email == email && users[u].passwordHash.Some? then
      var u :| u in users && users[u].email == email && users[u].passwordHash.Some?; Some(u)
    else None
  }

  /** `Login`'s decision on a request and the users table. */
  ghost function LoginOutcome(users: map<UserId, User>, body: Body<LoginRequest>, isEmail: string -> bool,
                              matches: (string, string) -> bool, codec: TokenCodec): Response<LoginReply>
  {
    match BodyRefusal(body, "LoginRequest", req => LoginChecks(req, isEmail))
    case Some(error) => Err(StatusBadRequest, error)
    case None =>
      var req := body.value;
      match Credentials(users, req.email)
      case None => Err(StatusUnauthorized, "Invalid credentials")
      case Some(id) =>
        var user := users[id];
        if !matches(user.passwordHash.value, req.password) then Err(StatusUnauthorized, "Invalid credentials")
        else match codec.issue(id, user.role)
          case None => Err(StatusInternalServerError, "Failed to generate token")
          case Some(token) => Ok(StatusOK, LoginReply(token, user.role, id))
  }

  /** `Login`: the scan picks the one account with the e-mail (unique by
      `UsersValid`), then the password is compared and a token issued. */
  method Login(db: Db, body: Body<LoginRequest>, isEmail: string -> bool,
               matches: (string, string) -> bool, codec: TokenCodec)
    returns (r: Response<LoginReply>)
    requires db.Valid()
    ensures r == LoginOutcome(db.users, body, isEmail, matches, codec)
  {
    if body.Undecodable? {
      return Err(StatusBadRequest, body.reason);
    }
    var req := body.value;
    var bindError := BindingError("LoginRequest", LoginChecks(req, isEmail));
    if bindError.Some? {
      return Err(StatusBadRequest, bindError.value);
    }
    if !exists u :: u in db.users && db.users[u].email == req.email && db.users[u].passwordHash.Some? {
      return Err(StatusUnauthorized, "Invalid credentials");
    }
    var id :| id in db.users && db.users[id].email == req.email && db.users[id].passwordHash.Some?;
    OneAccountPerEmail(db.users, req.email, id);
    var user := db.users[id];
    if !matches(user.passwordHash.value, req.password) {
      return Err(StatusUnauthorized, "Invalid credentials");
    }
    var token := codec.issue(id, user.role);
    if token.None? {
      return Err(StatusInternalServerError, "Failed to generate token");
    }
    return Ok(StatusOK, LoginReply(token.value, user.role, id));
  }

  /** With unique e-mails, the account the scan finds is the only candidate. */
  lemma OneAccountPerEmail(users: map<UserId, User>, email: string, id: UserId)
    requires UsersValid(users)
    requires id in users && users[id].email == email && users[id].passwordHash.Some?
    ensures Credentials(users, email) == Some(id)
  {
  }

  /** A body that fails to decode or bind is answered with 400 before the
      store is read: the answer is the same whatever the users table holds. */
  lemma BindingFailsBeforeLookup(users1: map<UserId, User>, users2: map<UserId, User>, body: Body<LoginRequest>,
                                 isEmail: string -> bool, matches: (string, string) -> bool, codec: TokenCodec)
    requires BodyRefusal(body, "LoginRequest", req => LoginChecks(req, isEmail)).Some?
    ensures LoginOutcome(users1, body, isEmail, matches, codec) == LoginOutcome(users2, body, isEmail, matches, codec)
    ensures LoginOutcome(users1, body, isEmail, matches, codec).status == StatusBadRequest
  {
  }

  /** No account enumeration: an unknown e-mail and a known e-mail with a
      wrong password get the identical 401. */
  lemma UnknownEmailLooksLikeWrongPassword(users1: map<UserId, User>, users2: map<UserId, User>, req: LoginRequest,
                                           isEmail: string -> bool, matches: (string, string) -> bool, codec: TokenCodec)
    requires UsersValid(users2)
    requires BindingError("LoginRequest", LoginChecks(req, isEmail)).None?
    requires forall u :: u in users1 ==> users1[u].email != req.email
    requires exists u :: (u in users2 && users2[u].email == req.email && users2[u].passwordHash.Some?
      && !matches(users2[u].passwordHash.value, req.password))
    ensures LoginOutcome(users1, Decoded(req), isEmail, matches, codec)
      == LoginOutcome(users2, Decoded(req), isEmail, matches, codec)
      == Err(StatusUnauthorized, "Invalid credentials")
  {
    var u :| u in users2 && users2[u].email == req.email && users2[u].passwordHash.Some?
      && !matches(users2[u].passwordHash.value, req.password);
    OneAccountPerEmail(users2, req.email, u);
  }

  /** A successful login speaks for the stored account: the e-mail is that
      account's, the password fits its hash, and the token is issued for its
      stored id and stored role, which the reply echoes. */
  lemma LoginCarriesStoredIdentity(users: map<UserId, User>, req: LoginRequest, isEmail: string -> bool,
                                   matches: (string, string) -> bool, codec: TokenCodec)
    requires LoginOutcome(users, Decoded(req), isEmail, matches, codec).Ok?
    ensures var reply := LoginOutcome(users, Decoded(req), isEmail, matches, codec).body;
      && reply.userId in users && users[reply.userId].email == req.email
      && users[reply.userId].passwordHash.Some?
      && matches(users[reply.userId].passwordHash.value, req.password)
      && reply.role == users[reply.userId].role
      && codec.issue(reply.userId, reply.role) == Some(reply.token)
  {
  }

  /** Signing up and then logging in with the same credentials reaches the
      new account, with role "user", provided the hash accepts its own
      password and a token can be issued. */
  lemma {:induction false} SignupThenLogin(users: map<UserId, User>, id: UserId, email: string, password: string,
                                           hashed: string, isEmail: string -> bool,
                                           matches: (string, string) -> bool, codec: TokenCodec, token: string)
    requires UsersValid(users) && id !in users && !EmailTaken(users, email)
    requires email != "" && isEmail(email) && password != ""
    requires matches(hashed, password) && codec.issue(id, "user") == Some(token)
    ensures LoginOutcome(users[id := NewAccount(id, email, hashed)], Decoded(LoginRequest(email, password)),
                         isEmail, matches, codec)
      == Ok(StatusOK, LoginReply(token, "user", id))
  {
    var after := users[id := NewAccount(id, email, hashed)];
    var req := LoginRequest(email, password);
    BindingAcceptsIffAllTagsHold("LoginRequest", LoginChecks(req, isEmail));
    SignupKeepsUsersValid(users, id, email, hashed);
    OneAccountPerEmail(after, email, id);
  }
}
