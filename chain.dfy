/** A gin middleware chain in front of a handler, as internal/routes/routes.go
    assembles them from internal/middleware: stages run in order, and the
    first one that aborts writes the reply and stops every later stage and
    the handler. */
module Chain {
  import opened Common
  import opened Roles
  import opened Gin
  import opened Store
  import opened AuthMiddleware
  import FirebaseMiddleware

  datatype Stage =
    | LocalAuth(codec: TokenCodec)
    | FirebaseAuth(verifier: FirebaseMiddleware.Verifier)
    | RequireRoleStage(minRole: string)
    | RequirePermissionStage(code: string)

  /** The request context between stages: its values, and the reply written
      by the stage that aborted, if one did. */
  datatype State = State(keys: map<string, Value>, reply: Option<Reply>)

  /** One stage's effect on a context that has not been aborted. */
  ghost function Step(header: string, keys: map<string, Value>, stage: Stage, users: map<UserId, User>, grants: set<(UserId, string)>): (s: State)
    requires IdentityIsString(keys)
    ensures IdentityIsString(s.keys)
    ensures s.reply.Some? ==> s.keys == keys
  {
    match stage
    case LocalAuth(codec) =>
      (match Authenticate(header, codec)
       case Unauthenticated(error) => State(keys, Some(Reply(StatusUnauthorized, error)))
       case Authenticated(claims) => State(keys["userID" := Str(claims.userId)]["role" := Str(claims.role)], None))
    case FirebaseAuth(verifier) =>
      (match FirebaseMiddleware.FirebaseAuthenticate(header, verifier, users)
       case Rejected(status, error) => State(keys, Some(Reply(status, error)))
       case Verified(token, account) => State(FirebaseMiddleware.VerifiedKeys(keys, token, account), None))
    case RequireRoleStage(minRole) =>
      (match RoleGuard(keys, minRole)
       case Pass => State(keys, None)
       case Deny(status, error) => State(keys, Some(Reply(status, error))))
    case RequirePermissionStage(code) =>
      (match PermissionGuard(keys, grants, code)
       case Pass => State(keys, None)
       case Deny(status, error) => State(keys, Some(Reply(status, error))))
  }

  /** The whole chain: stages run until one aborts; `reply == None` means the
      handler is reached with the resulting keys. */
  ghost function RunStages(header: string, keys: map<string, Value>, stages: seq<Stage>, users: map<UserId, User>, grants: set<(UserId, string)>): (s: State)
    requires IdentityIsString(keys)
    ensures IdentityIsString(s.keys)
    decreases |stages|
  {
    if stages == [] then State(keys, None)
    else
      var next := Step(header, keys, stages[0], users, grants);
      if next.reply.Some? then next
      else RunStages(header, next.keys, stages[1..], users, grants)
  }

  /** Short-circuit: once a prefix of the chain has aborted, whatever follows
      it never runs. */
  lemma {:induction false} DenialStopsChain(header: string, keys: map<string, Value>, prefix: seq<Stage>, rest: seq<Stage>, users: map<UserId, User>, grants: set<(UserId, string)>)
    requires IdentityIsString(keys)
    requires RunStages(header, keys, prefix, users, grants).reply.Some?
    ensures RunStages(header, keys, prefix + rest, users, grants) == RunStages(header, keys, prefix, users, grants)
    decreases |prefix|
  {
    assert prefix != [];
    assert (prefix + rest)[0] == prefix[0];
    var next := Step(header, keys, prefix[0], users, grants);
    if next.reply.None? {
      assert (prefix + rest)[1..] == prefix[1..] + rest;
      DenialStopsChain(header, next.keys, prefix[1..], rest, users, grants);
    }
  }

  /** Granting more never closes a route: a request that reaches its handler
      still does after permissions are added. */
  lemma {:induction false} ChainMonotoneInGrants(header: string, keys: map<string, Value>, stages: seq<Stage>, users: map<UserId, User>, g1: set<(UserId, string)>, g2: set<(UserId, string)>)
    requires IdentityIsString(keys) && g1 <= g2
    requires RunStages(header, keys, stages, users, g1).reply.None?
    ensures RunStages(header, keys, stages, users, g2) == RunStages(header, keys, stages, users, g1)
    decreases |stages|
  {
    if stages != [] {
      if stages[0].RequirePermissionStage? {
        PermissionGuardMonotoneInGrants(keys, g1, g2, stages[0].code);
      }
      assert Step(header, keys, stages[0], users, g2) == Step(header, keys, stages[0], users, g1);
      ChainMonotoneInGrants(header, Step(header, keys, stages[0], users, g1).keys, stages[1..], users, g1, g2);
    }
  }

  /** A route guarded by the staff role and a permission, as the
      vendor-verification routes were: a staff caller with a valid token but
      without the grant is refused with 403, and the same caller passes once
      granted. */
  lemma StaffNeedsTheGrant(header: string, codec: TokenCodec, userId: UserId, code: string,
                           users: map<UserId, User>, grants: set<(UserId, string)>)
    requires header != ""
    requires codec.validate(BearerToken(header)) == Some(Claims(userId, Staff))
    ensures var stages := [LocalAuth(codec), RequireRoleStage(Staff), RequirePermissionStage(code)];
      && ((userId, code) !in grants ==>
            RunStages(header, map[], stages, users, grants).reply
              == Some(Reply(StatusForbidden, "Forbidden: Missing permission '" + code + "'")))
      && ((userId, code) in grants ==>
            RunStages(header, map[], stages, users, grants).reply == None)
  {
    var keys := map["userID" := Str(userId), "role" := Str(Staff)];
    StaffReachesPermissionCheck(header, codec, userId, code, users, grants);
    SingleStage(header, keys, RequirePermissionStage(code), users, grants);
    assert keys["role"] != Str(SuperAdmin);
    PermissionGuardIffGranted(keys, grants, code);
  }

  /** The first two stages let the staff caller through, with its identity
      set, to the permission check. */
  lemma StaffReachesPermissionCheck(header: string, codec: TokenCodec, userId: UserId, code: string,
                                    users: map<UserId, User>, grants: set<(UserId, string)>)
    requires header != ""
    requires codec.validate(BearerToken(header)) == Some(Claims(userId, Staff))
    ensures RunStages(header, map[], [LocalAuth(codec), RequireRoleStage(Staff), RequirePermissionStage(code)], users, grants)
      == RunStages(header, map["userID" := Str(userId), "role" := Str(Staff)], [RequirePermissionStage(code)], users, grants)
  {
    var stages := [LocalAuth(codec), RequireRoleStage(Staff), RequirePermissionStage(code)];
    var keys := map["userID" := Str(userId), "role" := Str(Staff)];
    assert Step(header, map[], stages[0], users, grants) == State(keys, None);
    var guards := stages[1..];
    assert guards == [RequireRoleStage(Staff), RequirePermissionStage(code)];
    assert RoleGuard(keys, Staff) == Pass;
    assert Step(header, keys, guards[0], users, grants) == State(keys, None);
    assert guards[1..] == [RequirePermissionStage(code)];
  }

  /** A chain of one stage is that stage. */
  lemma SingleStage(header: string, keys: map<string, Value>, stage: Stage, users: map<UserId, User>, grants: set<(UserId, string)>)
    requires IdentityIsString(keys)
    ensures RunStages(header, keys, [stage], users, grants) == Step(header, keys, stage, users, grants)
  {
    assert [stage][1..] == [];
  }

  /** Runs the stages against a request context until one aborts, and says
      whether the handler is reached. */
  method Run(c: Context, stages: seq<Stage>, db: Db) returns (reached: bool)
    requires db.Valid()
    requires IdentityIsString(c.keys) && !c.aborted && c.reply == None
    modifies c`keys, c`aborted, c`reply
    ensures State(c.keys, c.reply) == RunStages(c.authorization, old(c.keys), stages, db.users, db.grants)
    ensures reached <==> !c.aborted
    ensures reached <==> c.reply == None
  {
    ghost var keys0 := c.keys;
    var i := 0;
    while i < |stages| && !c.aborted
      invariant 0 <= i <= |stages|
      invariant IdentityIsString(c.keys)
      invariant !c.aborted ==> (c.reply == None
        && RunStages(c.authorization, keys0, stages, db.users, db.grants)
           == RunStages(c.authorization, c.keys, stages[i..], db.users, db.grants))
      invariant c.aborted ==> (c.reply.Some?
        && State(c.keys, c.reply) == RunStages(c.authorization, keys0, stages, db.users, db.grants))
      decreases |stages| - i
    {
      assert stages[i..][0] == stages[i];
      assert stages[i..][1..] == stages[i + 1..];
      match stages[i] {
        case LocalAuth(codec) => AuthMiddleware.AuthMiddleware(c, codec);
        case FirebaseAuth(verifier) => FirebaseMiddleware.FirebaseAuthMiddleware(c, verifier, db);
        case RequireRoleStage(minRole) => RequireRole(c, minRole);
        case RequirePermissionStage(code) => RequirePermission(c, db, code);
      }
      i := i + 1;
    }
    reached := !c.aborted;
  }
}
