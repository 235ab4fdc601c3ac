/** internal/handlers/user.go: role promotions and the caller's own profile. */
module UserHandlers {
  import opened Common
  import opened Roles
  import opened Store

  /** `UPDATE users SET role = role WHERE id = target`: only that row's role
      changes, and the uniqueness constraints still hold. */
  function WithRole(users: map<UserId, User>, target: UserId, role: string): (after: map<UserId, User>)
    requires target in users
    ensures after.Keys == users.Keys
    ensures after[target] == users[target].(role := role)
    ensures forall u :: u in users && u != target ==> after[u] == users[u]
    ensures UsersValid(users) ==> UsersValid(after)
  {
    users[target := users[target].(role := role)]
  }

  /** The users table after a promotion endpoint: an existing target whose
      role is not protected gets `newRole`; otherwise nothing changes. */
  function AfterPromotion(users: map<UserId, User>, target: UserId, newRole: string, protectedRoles: set<string>): map<UserId, User> {
    if target in users && users[target].role !in protectedRoles then WithRole(users, target, newRole)
    else users
  }

  /** The roles `PromoteToAdmin` refuses to touch. */
  const AdminPromotionProtected: set<string> := {SuperAdmin}

  /** The roles `PromoteToStaff` refuses to touch. */
  const StaffPromotionProtected: set<string> := {Admin, SuperAdmin}

  ghost function SuperAdmins(users: map<UserId, User>): set<UserId> {
    set u | u in users && users[u].role == SuperAdmin
  }

  /** Neither promotion endpoint creates or removes a super_admin. */
  lemma PromotionsPreserveSuperAdmins(users: map<UserId, User>, target: UserId, newRole: string, protectedRoles: set<string>)
    requires newRole != SuperAdmin && SuperAdmin in protectedRoles
    ensures SuperAdmins(AfterPromotion(users, target, newRole, protectedRoles)) == SuperAdmins(users)
  {
    var after := AfterPromotion(users, target, newRole, protectedRoles);
    forall u ensures u in SuperAdmins(after) <==> u in SuperAdmins(users) {
      if u == target && target in users && users[target].role !in protectedRoles {
        assert after[u].role == newRole;
      }
    }
  }

  /** Neither promotion lowers anybody's rank: every role ranked above the new
      one is protected, so a promotion only ever raises or keeps a rank. */
  lemma PromotionsNeverDemote(users: map<UserId, User>, target: UserId, newRole: string, protectedRoles: set<string>)
    requires forall r :: RoleLevel(r) > RoleLevel(newRole) ==> r in protectedRoles
    ensures var after := AfterPromotion(users, target, newRole, protectedRoles);
      after.Keys == users.Keys && forall u :: u in users ==> RoleLevel(after[u].role) >= RoleLevel(users[u].role)
  {
  }

  lemma PromotionEndpointsProtectHigherRanks()
    ensures forall r :: RoleLevel(r) > RoleLevel(Admin) ==> r in AdminPromotionProtected
    ensures forall r :: RoleLevel(r) > RoleLevel(Staff) ==> r in StaffPromotionProtected
  {
  }

  /** Promoting twice is promoting once. */
  lemma {:induction false} PromotionIdempotent(users: map<UserId, User>, target: UserId, newRole: string, protectedRoles: set<string>)
    ensures var once := AfterPromotion(users, target, newRole, protectedRoles);
      AfterPromotion(once, target, newRole, protectedRoles) == once
  {
    var once := AfterPromotion(users, target, newRole, protectedRoles);
    if target in users && users[target].role !in protectedRoles {
      if newRole !in protectedRoles {
        assert once[target].(role := newRole) == once[target];
        assert once[target := once[target]] == once;
      }
    }
  }

  /** `PromoteToAdmin`: 404 for an unknown target, 403 for a super_admin;
      otherwise the target, and only the target, becomes admin. */
  method PromoteToAdmin(db: Db, target: UserId) returns (r: Response<string>)
    requires db.Valid()
    modifies db`users
    ensures db.Valid()
    ensures db.users == AfterPromotion(old(db.users), target, Admin, AdminPromotionProtected)
    ensures target !in old(db.users) ==> r == Err(StatusNotFound, "User not found")
    ensures target in old(db.users) && old(db.users)[target].role == SuperAdmin ==>
      r == Err(StatusForbidden, "Cannot change role of super_admin")
    ensures target in old(db.users) && old(db.users)[target].role != SuperAdmin ==>
      r == Ok(StatusOK, "User promoted to admin")
  {
    if target !in db.users {
      return Err(StatusNotFound, "User not found");
    }
    var currentRole := db.users[target].role;
    if currentRole == SuperAdmin {
      return Err(StatusForbidden, "Cannot change role of super_admin");
    }
    db.users := WithRole(db.users, target, Admin);
    return Ok(StatusOK, "User promoted to admin");
  }

  /** `PromoteToStaff`: 404 for an unknown target, 403 for an admin or
      super_admin; otherwise the target, and only the target, becomes staff. */
  method PromoteToStaff(db: Db, target: UserId) returns (r: Response<string>)
    requires db.Valid()
    modifies db`users
    ensures db.Valid()
    ensures db.users == AfterPromotion(old(db.users), target, Staff, StaffPromotionProtected)
    ensures target !in old(db.users) ==> r == Err(StatusNotFound, "User not found")
    ensures target in old(db.users) && old(db.users)[target].role in StaffPromotionProtected ==>
      r == Err(StatusForbidden, "Cannot demote/change admin users via this endpoint")
    ensures target in old(db.users) && old(db.users)[target].role !in StaffPromotionProtected ==>
      r == Ok(StatusOK, "User promoted to staff")
  {
    if target !in db.users {
      return Err(StatusNotFound, "User not found");
    }
    var currentRole := db.users[target].role;
    if currentRole == Admin || currentRole == SuperAdmin {
      return Err(StatusForbidden, "Cannot demote/change admin users via this endpoint");
    }
    db.users := WithRole(db.users, target, Staff);
    return Ok(StatusOK, "User promoted to staff");
  }

  /** One entry of `groups` in the `/me` payload. */
  datatype GroupCard = GroupCard(id: GroupId, name: string, slug: string, role: string)

  /** The `/me` payload. */
  datatype Me = Me(
    id: UserId,
    email: string,
    fullName: string,
    username: Option<string>,
    profileImageUrl: Option<string>,
    role: string,
    vendorProfileExists: bool,
    groups: seq<GroupCard>)

  /** Whether `user` owns a vendor profile. */
  predicate OwnsVendorProfile(vendors: map<VendorId, Vendor>, user: UserId) {
    exists v :: v in vendors && vendors[v].ownerUserId == user
  }

  /** `GetMe`. The row is scanned with full_name into a plain string, so a
      user whose full_name is NULL is reported as not found. The groups are
      exactly the caller's memberships, each once, with the caller's role in
      that group. */
  method GetMe(db: Db, caller: Option<UserId>) returns (r: Response<Me>, groupRows: seq<GroupId>)
    requires db.Valid()
    ensures caller.None? ==> r == Err(StatusUnauthorized, "Unauthorized")
    ensures caller.Some? && (caller.value !in db.users || db.users[caller.value].fullName.None?) ==>
      r == Err(StatusNotFound, "User not found")
    ensures r.Ok? <==> caller.Some? && caller.value in db.users && db.users[caller.value].fullName.Some?
    ensures r.Ok? ==>
      var uid := caller.value;
      var user := db.users[uid];
      && r.status == StatusOK
      && r.body.id == uid && r.body.email == user.email && Some(r.body.fullName) == user.fullName
      && r.body.username == user.username && r.body.profileImageUrl == user.profileImageUrl
      && r.body.role == user.role
      && (r.body.vendorProfileExists <==> OwnsVendorProfile(db.vendors, uid))
      && |r.body.groups| == |groupRows| && Distinct(groupRows)
      && (forall g :: g in groupRows <==> g in db.groups && (g, uid) in db.members)
      && (forall i :: 0 <= i < |groupRows| ==>
            r.body.groups[i] == GroupCard(groupRows[i], db.groups[groupRows[i]].name,
                                          db.groups[groupRows[i]].slug, db.members[(groupRows[i], uid)]))
  {
    groupRows := [];
    if caller.None? {
      return Err(StatusUnauthorized, "Unauthorized"), groupRows;
    }
    var uid := caller.value;
    if uid !in db.users || db.users[uid].fullName.None? {
      return Err(StatusNotFound, "User not found"), groupRows;
    }
    var user := db.users[uid];
    var vendorExists := exists v :: v in db.vendors && db.vendors[v].ownerUserId == uid;
    var members := db.members;
    groupRows := Scan(db.groups, (g: GroupId, _: Group) => (g, uid) in members);
    var groups: seq<GroupCard> := [];
    var i := 0;
    while i < |groupRows|
      invariant 0 <= i <= |groupRows| && |groups| == i
      invariant forall j :: 0 <= j < i ==>
        groups[j] == GroupCard(groupRows[j], db.groups[groupRows[j]].name,
                               db.groups[groupRows[j]].slug, db.members[(groupRows[j], uid)])
    {
      var g := groupRows[i];
      groups := groups + [GroupCard(g, db.groups[g].name, db.groups[g].slug, members[(g, uid)])];
      i := i + 1;
    }
    r := Ok(StatusOK, Me(uid, user.email, user.fullName.value, user.username, user.profileImageUrl,
                         user.role, vendorExists, groups));
  }

  /** The `PUT /me` body; every field is optional and defaults to "". */
  datatype UpdateUserRequest = UpdateUserRequest(
    fullName: string,
    username: string,
    phone: string,
    city: string,
    bio: string,
    profileImageUrl: string)

  /** The row `UPDATE ... RETURNING` reports back. */
  datatype UpdatedUser = UpdatedUser(id: UserId, email: string, fullName: string, username: Option<string>, role: string,
                                     message: string)

  /** An optional text column written from a request string: "" is NULL. */
  function NullIfEmpty(s: string): (v: Option<string>)
    ensures v.None? <==> s == ""
    ensures v.Some? ==> v.value == s
  {
    if s == "" then None else Some(s)
  }

  /** `SELECT count(*) FROM users WHERE username = $1 AND id != $2` is
      non-zero. */
  predicate UsernameTaken(users: map<UserId, User>, username: string, self: UserId) {
    exists u :: u in users && u != self && users[u].username == Some(username)
  }

  /** Keeping one's own username never conflicts: the check leaves the
      caller out. */
  lemma OwnUsernameNeverTaken(users: map<UserId, User>, self: UserId)
    requires UsersValid(users)
    requires self in users && users[self].username.Some?
    ensures !UsernameTaken(users, users[self].username.value, self)
  {
  }

  /** The caller's row after `PUT /me`: full_name stored as given (even ""),
      the other five columns NULL when given "". */
  function WithProfile(user: User, req: UpdateUserRequest): (after: User)
    ensures after.fullName == Some(req.fullName)
    ensures after.username == NullIfEmpty(req.username) && after.phone == NullIfEmpty(req.phone)
    ensures after.city == NullIfEmpty(req.city) && after.bio == NullIfEmpty(req.bio)
    ensures after.profileImageUrl == NullIfEmpty(req.profileImageUrl)
    ensures after.id == user.id && after.email == user.email && after.role == user.role
    ensures after.passwordHash == user.passwordHash && after.firebaseUid == user.firebaseUid
  {
    user.(fullName := Some(req.fullName), username := NullIfEmpty(req.username),
          phone := NullIfEmpty(req.phone), city := NullIfEmpty(req.city),
          bio := NullIfEmpty(req.bio), profileImageUrl := NullIfEmpty(req.profileImageUrl))
  }

  /** The uniqueness check is what keeps usernames unique: an update that
      passes it leaves the users table valid. */
  lemma UpdatePassingCheckKeepsUsersValid(users: map<UserId, User>, self: UserId, req: UpdateUserRequest)
    requires UsersValid(users) && self in users
    requires req.username != "" ==> !UsernameTaken(users, req.username, self)
    ensures UsersValid(users[self := WithProfile(users[self], req)])
  {
  }

  /** `UpdateMe`: 401 without a caller, 400 for an undecodable body, 409 when
      another user holds the requested username, 500 when the caller has no
      row; otherwise only the caller's row changes, to `WithProfile`. */
  method UpdateMe(db: Db, caller: Option<UserId>, body: Body<UpdateUserRequest>) returns (r: Response<UpdatedUser>)
    requires db.Valid()
    modifies db`users
    ensures db.Valid()
    ensures caller.None? ==> r == Err(StatusUnauthorized, "Unauthorized") && db.users == old(db.users)
    ensures caller.Some? && body.Undecodable? ==> r == Err(StatusBadRequest, body.reason) && db.users == old(db.users)
    ensures caller.Some? && body.Decoded? && body.value.username != ""
      && UsernameTaken(old(db.users), body.value.username, caller.value)
      ==> r == Err(StatusConflict, "Username is already taken") && db.users == old(db.users)
    ensures r.Ok? <==>
      && caller.Some? && body.Decoded? && caller.value in old(db.users)
      && !(body.value.username != "" && UsernameTaken(old(db.users), body.value.username, caller.value))
    ensures r.Ok? ==>
      && caller.Some? && body.Decoded? && caller.value in old(db.users)
      && (body.value.username != "" ==> !UsernameTaken(old(db.users), body.value.username, caller.value))
      && db.users == old(db.users)[caller.value := WithProfile(old(db.users)[caller.value], body.value)]
      && r == Ok(StatusOK, UpdatedUser(caller.value, db.users[caller.value].email, body.value.fullName,
                                       NullIfEmpty(body.value.username), db.users[caller.value].role,
                                       "Profile updated successfully"))
    ensures r.Err? ==> db.users == old(db.users)
    ensures caller.Some? && body.Decoded? && caller.value !in old(db.users)
      && !(body.value.username != "" && UsernameTaken(old(db.users), body.value.username, caller.value))
      ==> r == Err(StatusInternalServerError, "Failed to update profile")
  {
    if caller.None? {
      return Err(StatusUnauthorized, "Unauthorized");
    }
    var uid := caller.value;
    if body.Undecodable? {
      return Err(StatusBadRequest, body.reason);
    }
    var req := body.value;
    if req.username != "" {
      var taken := exists u :: u in db.users && u != uid && db.users[u].username == Some(req.username);
      if taken {
        return Err(StatusConflict, "Username is already taken");
      }
    }
    if uid !in db.users {
      return Err(StatusInternalServerError, "Failed to update profile");
    }
    UpdatePassingCheckKeepsUsersValid(db.users, uid, req);
    var updated := WithProfile(db.users[uid], req);
    db.users := db.users[uid := updated];
    r := Ok(StatusOK, UpdatedUser(uid, updated.email, req.fullName, NullIfEmpty(req.username), updated.role,
                                  "Profile updated successfully"));
  }
}
