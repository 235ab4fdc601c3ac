/** internal/middleware/auth.go: the local-token authenticator and the two
    guards, `RequireRole` (role hierarchy) and `RequirePermission` (grant
    table with a super_admin bypass). Each guard is a decision on the request
    context (a function) and a handler that applies it to a `Gin.Context`. */
module AuthMiddleware {
  import opened Common
  import opened Strings
  import opened Roles
  import opened Gin
  import opened Store

  /** The claims of a session token. */
  datatype Claims = Claims(userId: string, role: string)

  /** The session-token codec of package internal/auth, which is not part of
      this model: `ValidateToken` (signature and expiry, None when either
      fails) and `GenerateToken` (None when signing fails). */
  datatype TokenCodec = TokenCodec(
    validate: string -> Option<Claims>,
    issue: (string, string) -> Option<string>)

  datatype AuthOutcome = Authenticated(claims: Claims) | Unauthenticated(error: string)

  /** The token handed to the validator: at most one leading "Bearer " removed. */
  function BearerToken(header: string): string {
    TrimPrefix(header, "Bearer ")
  }

  /** `AuthMiddleware`'s decision. */
  function Authenticate(header: string, codec: TokenCodec): AuthOutcome {
    if header == "" then Unauthenticated("Authorization header required")
    else match codec.validate(BearerToken(header))
      case None => Unauthenticated("Invalid token")
      case Some(claims) => Authenticated(claims)
  }

  /** Exactly one "Bearer " is stripped: a doubled scheme reaches the
      validator with the second copy still in place. */
  lemma BearerStrippedOnce(token: string)
    ensures BearerToken("Bearer " + token) == token
    ensures BearerToken("Bearer Bearer " + token) == "Bearer " + token
  {
    TrimPrefixOfConcat("Bearer ", token);
    assert "Bearer Bearer " + token == "Bearer " + ("Bearer " + token);
    TrimPrefixOfConcat("Bearer ", "Bearer " + token);
  }

  /** A header without the scheme is handed to the validator unchanged, so a
      bare token authenticates exactly as "Bearer " + token does. */
  lemma BareTokenAccepted(token: string, codec: TokenCodec)
    requires token != "" && !HasPrefix(token, "Bearer ")
    ensures Authenticate(token, codec) == Authenticate("Bearer " + token, codec)
  {
    BearerStrippedOnce(token);
  }

  /** Authentication succeeds exactly when the header is present and the
      validator accepts its token, and then carries the token's own claims. */
  lemma AuthenticatedIffValidToken(header: string, codec: TokenCodec)
    ensures Authenticate(header, codec).Authenticated?
      <==> header != "" && codec.validate(BearerToken(header)).Some?
    ensures Authenticate(header, codec).Authenticated?
      ==> Authenticate(header, codec).claims == codec.validate(BearerToken(header)).value
    ensures header == "" ==> Authenticate(header, codec) == Unauthenticated("Authorization header required")
  {
  }

  /** `AuthMiddleware`: 401 and abort without touching the context on
      failure; otherwise `userID` and `role` hold the token's claims. */
  method AuthMiddleware(c: Context, codec: TokenCodec)
    modifies c`keys, c`aborted, c`reply
    ensures Authenticate(c.authorization, codec).Unauthenticated? ==>
      && c.aborted
      && c.reply == Some(Reply(StatusUnauthorized, Authenticate(c.authorization, codec).error))
      && c.keys == old(c.keys)
    ensures Authenticate(c.authorization, codec).Authenticated? ==>
      var claims := Authenticate(c.authorization, codec).claims;
      && c.keys == old(c.keys)["userID" := Str(claims.userId)]["role" := Str(claims.role)]
      && c.aborted == old(c.aborted) && c.reply == old(c.reply)
  {
    var header := c.authorization;
    if header == "" {
      c.AbortWithError(StatusUnauthorized, "Authorization header required");
      return;
    }
    var tokenString := TrimPrefix(header, "Bearer ");
    var claims := codec.validate(tokenString);
    if claims.None? {
      c.AbortWithError(StatusUnauthorized, "Invalid token");
      return;
    }
    c.Set("userID", Str(claims.value.userId));
    c.Set("role", Str(claims.value.role));
  }

  /** A guard's decision: let the request continue, or reply and abort. */
  datatype Verdict = Pass | Deny(status: int, error: string)

  /** Every authenticator stores `userID` and `role` as strings; the guards'
      type assertions rely on it. */
  predicate IdentityIsString(keys: map<string, Value>) {
    && ("userID" in keys ==> keys["userID"].Str?)
    && ("role" in keys ==> keys["role"].Str?)
  }

  /** `RequireRole(minRole)`'s decision. */
  function RoleGuard(keys: map<string, Value>, minRole: string): Verdict
    requires IdentityIsString(keys)
  {
    if "role" !in keys then Deny(StatusUnauthorized, "Unauthorized")
    else if RoleLevel(keys["role"].s) >= RoleLevel(minRole) then Pass
    else Deny(StatusForbidden, "Forbidden: Insufficient role")
  }

  /** `RequirePermission(code)`'s decision over the grant table. */
  function PermissionGuard(keys: map<string, Value>, grants: set<(UserId, string)>, code: string): Verdict
    requires IdentityIsString(keys)
  {
    if "userID" !in keys then Deny(StatusUnauthorized, "Unauthorized")
    else if (keys["userID"].s, code) in grants then Pass
    else if "role" in keys && keys["role"] == Str(SuperAdmin) then Pass
    else Deny(StatusForbidden, "Forbidden: Missing permission '" + code + "'")
  }

  /** Without a role in the context the role guard answers 401, whatever
      role it demands. */
  lemma RoleGuardWithoutRole(keys: map<string, Value>, minRole: string)
    requires IdentityIsString(keys) && "role" !in keys
    ensures RoleGuard(keys, minRole) == Deny(StatusUnauthorized, "Unauthorized")
  {
  }

  /** With a role, the guard passes exactly when the caller's rank reaches
      the demanded rank, and otherwise answers 403. */
  lemma RoleGuardIffRankReached(keys: map<string, Value>, minRole: string)
    requires IdentityIsString(keys) && "role" in keys
    ensures RoleGuard(keys, minRole) == Pass <==> RoleLevel(keys["role"].s) >= RoleLevel(minRole)
    ensures RoleGuard(keys, minRole) != Pass ==> RoleGuard(keys, minRole) == Deny(StatusForbidden, "Forbidden: Insufficient role")
  {
  }

  /** Monotonicity in the demanded role: passing a stricter guard implies
      passing every laxer one. */
  lemma RoleGuardMonotone(keys: map<string, Value>, m1: string, m2: string)
    requires IdentityIsString(keys)
    requires RoleLevel(m1) <= RoleLevel(m2)
    requires RoleGuard(keys, m2) == Pass
    ensures RoleGuard(keys, m1) == Pass
  {
  }

  /** Monotonicity in the caller's role: a caller whose role ranks at least
      as high passes every guard a lower-ranked caller passes. */
  lemma RoleGuardCallerMonotone(low: string, high: string, minRole: string)
    requires RoleLevel(low) <= RoleLevel(high)
    requires RoleGuard(map["role" := Str(low)], minRole) == Pass
    ensures RoleGuard(map["role" := Str(high)], minRole) == Pass
  {
  }

  /** A demanded role outside the hierarchy ranks 0, so such a guard lets
      every caller that has a role through. */
  lemma UnknownMinimumPassesEveryone(keys: map<string, Value>, minRole: string)
    requires IdentityIsString(keys) && "role" in keys
    requires !IsValidRole(minRole)
    ensures RoleGuard(keys, minRole) == Pass
  {
  }

  /** Without a user id the permission guard answers 401 before consulting
      the grant table: its answer is the same for every table. */
  lemma PermissionGuardWithoutUser(keys: map<string, Value>, g1: set<(UserId, string)>, g2: set<(UserId, string)>, code: string)
    requires IdentityIsString(keys) && "userID" !in keys
    ensures PermissionGuard(keys, g1, code) == Deny(StatusUnauthorized, "Unauthorized")
    ensures PermissionGuard(keys, g1, code) == PermissionGuard(keys, g2, code)
  {
  }

  /** The super_admin bypass: with a user id and the role super_admin, the
      guard passes for every code, even with no grants at all. */
  lemma SuperAdminBypass(userId: string, grants: set<(UserId, string)>, code: string)
    ensures PermissionGuard(map["userID" := Str(userId), "role" := Str(SuperAdmin)], grants, code) == Pass
    ensures PermissionGuard(map["userID" := Str(userId), "role" := Str(SuperAdmin)], {}, code) == Pass
  {
  }

  /** Any other caller passes exactly when the table grants it the code. */
  lemma PermissionGuardIffGranted(keys: map<string, Value>, grants: set<(UserId, string)>, code: string)
    requires IdentityIsString(keys) && "userID" in keys
    requires !("role" in keys && keys["role"] == Str(SuperAdmin))
    ensures PermissionGuard(keys, grants, code) == Pass <==> (keys["userID"].s, code) in grants
    ensures PermissionGuard(keys, grants, code) != Pass ==>
      PermissionGuard(keys, grants, code) == Deny(StatusForbidden, "Forbidden: Missing permission '" + code + "'")
  {
  }

  /** Granting more never revokes: a pass survives any added grants. */
  lemma PermissionGuardMonotoneInGrants(keys: map<string, Value>, g1: set<(UserId, string)>, g2: set<(UserId, string)>, code: string)
    requires IdentityIsString(keys) && g1 <= g2
    requires PermissionGuard(keys, g1, code) == Pass
    ensures PermissionGuard(keys, g2, code) == Pass
  {
  }

  /** `RequireRole(minRole)` as a handler: the context's values are never
      changed; a denial is written and aborts the chain. */
  method RequireRole(c: Context, minRole: string)
    requires IdentityIsString(c.keys)
    modifies c`aborted, c`reply
    ensures RoleGuard(c.keys, minRole) == Pass ==> c.aborted == old(c.aborted) && c.reply == old(c.reply)
    ensures RoleGuard(c.keys, minRole).Deny? ==>
      c.aborted && c.reply == Some(Reply(RoleGuard(c.keys, minRole).status, RoleGuard(c.keys, minRole).error))
  {
    if "role" !in c.keys {
      c.AbortWithError(StatusUnauthorized, "Unauthorized");
      return;
    }
    var roleStr := c.keys["role"].s;
    if RoleLevel(roleStr) >= RoleLevel(minRole) {
      return;
    }
    c.AbortWithError(StatusForbidden, "Forbidden: Insufficient role");
  }

  /** `RequirePermission(code)` as a handler, reading the grant table. */
  method RequirePermission(c: Context, db: Db, code: string)
    requires IdentityIsString(c.keys)
    modifies c`aborted, c`reply
    ensures PermissionGuard(c.keys, db.grants, code) == Pass ==> c.aborted == old(c.aborted) && c.reply == old(c.reply)
    ensures PermissionGuard(c.keys, db.grants, code).Deny? ==>
      c.aborted
      && c.reply == Some(Reply(PermissionGuard(c.keys, db.grants, code).status, PermissionGuard(c.keys, db.grants, code).error))
  {
    if "userID" !in c.keys {
      c.AbortWithError(StatusUnauthorized, "Unauthorized");
      return;
    }
    var userId := c.keys["userID"].s;
    if (userId, code) in db.grants {
      return;
    }
    if "role" in c.keys && c.keys["role"] == Str(SuperAdmin) {
      return;
    }
    c.AbortWithError(StatusForbidden, "Forbidden: Missing permission '" + code + "'");
  }
}
