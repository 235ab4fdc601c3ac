/** internal/middleware/firebase_auth.go: the Firebase authenticator. It checks
    the header's shape, has the Firebase client verify the ID token, records
    the token's uid and email, and attaches `userID`/`role` only when a user
    row already carries that firebase_uid. It never creates an account. */
module FirebaseMiddleware {
  import opened Common
  import opened Strings
  import opened Gin
  import opened Store
  import AuthMiddleware

  /** A verified Firebase ID token: its uid and its `email` claim, if any. */
  datatype IdToken = IdToken(uid: string, email: Option<string>)

  /** The Firebase SDK, which is not part of this model: whether the Auth
      client could be obtained, and `VerifyIDToken` (None on a bad signature,
      expiry or malformed token). */
  datatype Verifier = Verifier(clientOk: bool, verify: string -> Option<IdToken>)

  datatype HeaderCheck = HeaderMissing | HeaderMalformed | BearerToken(idToken: string)

  /** The header checks: present, and splitting on " " gives exactly
      ["Bearer", token]. */
  function CheckHeader(header: string): HeaderCheck {
    if header == "" then HeaderMissing
    else
      var parts := Split(header, ' ');
      if |parts| != 2 || parts[0] != "Bearer" then HeaderMalformed
      else BearerToken(parts[1])
  }

  /** "Bearer " followed by a token without spaces is accepted, and the token
      is handed over unchanged. */
  lemma WellFormedHeaderAccepted(token: string)
    requires ' ' !in token
    ensures CheckHeader("Bearer " + token) == BearerToken(token)
  {
    var parts := ["Bearer", token];
    assert Join(parts, ' ') == "Bearer " + token;
    SplitJoin(parts, ' ');
  }

  /** Conversely, an accepted header is exactly "Bearer " followed by the
      token, which holds no space. */
  lemma AcceptedHeaderShape(header: string)
    requires CheckHeader(header).BearerToken?
    ensures ' ' !in CheckHeader(header).idToken
    ensures header == "Bearer " + CheckHeader(header).idToken
  {
    var parts := Split(header, ' ');
    assert Join(parts[1..], ' ') == parts[1];
    assert Join(parts, ' ') == "Bearer" + [' '] + parts[1];
  }

  /** Any extra space after the scheme ("Bearer  x") is rejected. */
  lemma ExtraSpaceRejected(token: string)
    ensures CheckHeader("Bearer  " + token) == HeaderMalformed
  {
    assert "Bearer  " + token == "Bearer" + [' '] + ([] + [' '] + token);
    SplitAtFirstSeparator("Bearer", ' ', [' '] + token);
    SplitAtFirstSeparator([], ' ', token);
    assert |Split("Bearer  " + token, ' ')| >= 3;
  }

  /** The account linked to a Firebase uid, if any row carries it. */
  ghost function LinkedAccount(users: map<UserId, User>, uid: string): Option<User> {
    if exists u :: u in users && users[u].firebaseUid == Some(uid) then
      var u :| u in users && users[u].firebaseUid == Some(uid);
      Some(users[u])
    else None
  }

  lemma LinkedAccountIsTheRow(users: map<UserId, User>, uid: string, u: UserId)
    requires UsersValid(users)
    requires u in users && users[u].firebaseUid == Some(uid)
    ensures LinkedAccount(users, uid) == Some(users[u])
  {
  }

  datatype Outcome = Rejected(status: int, error: string) | Verified(token: IdToken, account: Option<User>)

  /** `FirebaseAuthMiddleware`'s decision. */
  ghost function FirebaseAuthenticate(header: string, verifier: Verifier, users: map<UserId, User>): Outcome {
    match CheckHeader(header)
    case HeaderMissing => Rejected(StatusUnauthorized, "Authorization header missing")
    case HeaderMalformed => Rejected(StatusUnauthorized, "Invalid Authorization header format")
    case BearerToken(idToken) =>
      if !verifier.clientOk then Rejected(StatusInternalServerError, "Error initializing Firebase Auth client")
      else match verifier.verify(idToken)
        case None => Rejected(StatusUnauthorized, "Invalid or expired token")
        case Some(token) => Verified(token, LinkedAccount(users, token.uid))
  }

  function EmailValue(token: IdToken): Value {
    match token.email
    case Some(e) => Str(e)
    case None => Nil
  }

  /** The context after a successful verification: uid and email always,
      `userID`/`role` only for a linked account. */
  ghost function VerifiedKeys(keys: map<string, Value>, token: IdToken, account: Option<User>): map<string, Value> {
    var withToken := keys["firebase_uid" := Str(token.uid)]["email" := EmailValue(token)];
    match account
    case Some(user) => withToken["userID" := Str(user.id)]["role" := Str(user.role)]
    case None => withToken
  }

  /** `userID` is attached exactly when an account carries the token's uid,
      and then it is that account's id; `firebase_uid` and `email` always are. */
  lemma UserAttachedIffLinked(keys: map<string, Value>, token: IdToken, users: map<UserId, User>)
    requires "userID" !in keys && "role" !in keys
    requires UsersValid(users)
    ensures var after := VerifiedKeys(keys, token, LinkedAccount(users, token.uid));
      && after["firebase_uid"] == Str(token.uid)
      && after["email"] == EmailValue(token)
      && ("userID" in after <==> exists u :: u in users && users[u].firebaseUid == Some(token.uid))
      && ("role" in after <==> "userID" in after)
      && (forall u :: u in users && users[u].firebaseUid == Some(token.uid) ==>
            after["userID"] == Str(u) && after["role"] == Str(users[u].role))
  {
  }

  /** A verified caller without a linked account is stopped with 401 by
      every guard: neither the role nor the permission guard lets it pass. */
  lemma UnlinkedCallerIsUnauthorized(token: IdToken, minRole: string, grants: set<(UserId, string)>, code: string)
    ensures var keys := VerifiedKeys(map[], token, None);
      && AuthMiddleware.IdentityIsString(keys)
      && AuthMiddleware.RoleGuard(keys, minRole) == AuthMiddleware.Deny(StatusUnauthorized, "Unauthorized")
      && AuthMiddleware.PermissionGuard(keys, grants, code) == AuthMiddleware.Deny(StatusUnauthorized, "Unauthorized")
  {
  }

  /** `FirebaseAuthMiddleware`. Only the context changes: the store is read,
      never written, so no account is provisioned. */
  method FirebaseAuthMiddleware(c: Context, verifier: Verifier, db: Db)
    requires db.Valid()
    modifies c`keys, c`aborted, c`reply
    ensures FirebaseAuthenticate(c.authorization, verifier, db.users).Rejected? ==>
      var out := FirebaseAuthenticate(c.authorization, verifier, db.users);
      c.aborted && c.reply == Some(Reply(out.status, out.error)) && c.keys == old(c.keys)
    ensures FirebaseAuthenticate(c.authorization, verifier, db.users).Verified? ==>
      var out := FirebaseAuthenticate(c.authorization, verifier, db.users);
      && c.keys == VerifiedKeys(old(c.keys), out.token, out.account)
      && c.aborted == old(c.aborted) && c.reply == old(c.reply)
  {
    var header := c.authorization;
    if header == "" {
      c.AbortWithError(StatusUnauthorized, "Authorization header missing");
      return;
    }
    var parts := Split(header, ' ');
    if |parts| != 2 || parts[0] != "Bearer" {
      c.AbortWithError(StatusUnauthorized, "Invalid Authorization header format");
      return;
    }
    var idToken := parts[1];
    if !verifier.clientOk {
      c.AbortWithError(StatusInternalServerError, "Error initializing Firebase Auth client");
      return;
    }
    var token := verifier.verify(idToken);
    if token.None? {
      c.AbortWithError(StatusUnauthorized, "Invalid or expired token");
      return;
    }
    var uid := token.value.uid;
    c.Set("firebase_uid", Str(uid));
    c.Set("email", EmailValue(token.value));
    if exists u :: u in db.users && db.users[u].firebaseUid == Some(uid) {
      var u :| u in db.users && db.users[u].firebaseUid == Some(uid);
      LinkedAccountIsTheRow(db.users, uid, u);
      c.Set("userID", Str(db.users[u].id));
      c.Set("role", Str(db.users[u].role));
    }
  }
}
