/** internal/handlers/admin.go: vendor moderation and role management. */
module AdminHandlers {
  import opened Common
  import opened Roles
  import opened Store

  /** One entry of the moderation list. */
  datatype VendorRow = VendorRow(
    id: VendorId,
    businessName: string,
    userId: UserId,
    city: string,
    category: string,
    primaryProfileImageUrl: Option<string>)

  /** A vendor appears in the moderation list when its owner exists (the
      query joins `users`) and, for a non-empty filter, its status is the
      filter. */
  predicate Listed(vendors: map<VendorId, Vendor>, users: map<UserId, User>, status: string, k: VendorId)
    requires k in vendors
  {
    vendors[k].ownerUserId in users && (status == "" || vendors[k].status == status)
  }

  /** The filter only narrows: whatever a status filter lists, the unfiltered
      list lists too, with the status asked for. */
  lemma FilterNarrowsListing(vendors: map<VendorId, Vendor>, users: map<UserId, User>, status: string, k: VendorId)
    requires k in vendors && Listed(vendors, users, status, k)
    ensures Listed(vendors, users, "", k)
    ensures status != "" ==> vendors[k].status == status
  {
  }

  function Row(v: Vendor, owner: User): VendorRow {
    VendorRow(v.id, v.businessName, v.ownerUserId, v.city, v.category, owner.profileImageUrl)
  }

  /** `GetVendors`: exactly the listed vendors, each once, each with its
      owner's profile image. */
  method GetVendors(db: Db, status: string) returns (r: Response<seq<VendorRow>>, rows: seq<VendorId>)
    requires db.Valid()
    ensures r.Ok? && r.status == StatusOK && |r.body| == |rows| && Distinct(rows)
    ensures forall k :: k in rows <==> k in db.vendors && Listed(db.vendors, db.users, status, k)
    ensures forall i :: 0 <= i < |rows| ==>
      rows[i] in db.vendors && db.vendors[rows[i]].ownerUserId in db.users
      && r.body[i] == Row(db.vendors[rows[i]], db.users[db.vendors[rows[i]].ownerUserId])
  {
    var users := db.users;
    rows := Scan(db.vendors, (k: VendorId, v: Vendor) => v.ownerUserId in users && (status == "" || v.status == status));
    var listing: seq<VendorRow> := [];
    var i := 0;
    while i < |rows|
      invariant 0 <= i <= |rows| && |listing| == i
      invariant forall j :: 0 <= j < i ==>
        listing[j] == Row(db.vendors[rows[j]], db.users[db.vendors[rows[j]].ownerUserId])
    {
      var v := db.vendors[rows[i]];
      listing := listing + [Row(v, users[v.ownerUserId])];
      i := i + 1;
    }
    r := Ok(StatusOK, listing);
  }

  /** `UPDATE vendor_profiles SET status = status WHERE id = k`. */
  function WithStatus(vendors: map<VendorId, Vendor>, k: VendorId, status: string): (after: map<VendorId, Vendor>)
    requires k in vendors
    ensures after.Keys == vendors.Keys
    ensures after[k] == vendors[k].(status := status)
    ensures forall l :: l in vendors && l != k ==> after[l] == vendors[l]
    ensures VendorsValid(vendors) ==> VendorsValid(after)
  {
    vendors[k := vendors[k].(status := status)]
  }

  /** A moderation decision overwrites the previous one whatever it was:
      repeating it changes nothing, and the later of two decisions wins. */
  lemma {:induction false} ModerationLastWriteWins(vendors: map<VendorId, Vendor>, k: VendorId, s1: string, s2: string)
    requires k in vendors
    ensures WithStatus(WithStatus(vendors, k, s1), k, s2) == WithStatus(vendors, k, s2)
    ensures WithStatus(WithStatus(vendors, k, s2), k, s2) == WithStatus(vendors, k, s2)
  {
    var decided := vendors[k].(status := s2);
    assert WithStatus(vendors, k, s1)[k].(status := s2) == decided;
    assert WithStatus(vendors, k, s1)[k := decided] == vendors[k := decided];
    assert WithStatus(vendors, k, s2)[k].(status := s2) == decided;
  }

  /** `VerifyVendor`: 404 for an unknown vendor; otherwise that vendor, and
      only it, is verified, whatever its status was. */
  method VerifyVendor(db: Db, k: VendorId) returns (r: Response<string>)
    requires db.Valid()
    modifies db`vendors
    ensures db.Valid()
    ensures k !in old(db.vendors) ==>
      r == Err(StatusNotFound, "Vendor not found or already processed") && db.vendors == old(db.vendors)
    ensures k in old(db.vendors) ==>
      r == Ok(StatusOK, "Vendor verified successfully") && db.vendors == WithStatus(old(db.vendors), k, "verified")
  {
    if k !in db.vendors {
      return Err(StatusNotFound, "Vendor not found or already processed");
    }
    db.vendors := WithStatus(db.vendors, k, "verified");
    return Ok(StatusOK, "Vendor verified successfully");
  }

  /** `RejectVendor`: 404 for an unknown vendor; otherwise that vendor, and
      only it, is rejected, whatever its status was. */
  method RejectVendor(db: Db, k: VendorId) returns (r: Response<string>)
    requires db.Valid()
    modifies db`vendors
    ensures db.Valid()
    ensures k !in old(db.vendors) ==>
      r == Err(StatusNotFound, "Vendor not found or already processed") && db.vendors == old(db.vendors)
    ensures k in old(db.vendors) ==>
      r == Ok(StatusOK, "Vendor rejected successfully") && db.vendors == WithStatus(old(db.vendors), k, "rejected")
  {
    if k !in db.vendors {
      return Err(StatusNotFound, "Vendor not found or already processed");
    }
    db.vendors := WithStatus(db.vendors, k, "rejected");
    return Ok(StatusOK, "Vendor rejected successfully");
  }

  /** The `UpdateUserRole` body: `role`, tagged `binding:"required"`. */
  datatype RoleInput = RoleInput(role: string)

  /** Every user holds one of the four roles. */
  ghost predicate RolesValid(users: map<UserId, User>) {
    forall u :: u in users ==> IsValidRole(users[u].role)
  }

  /** The role endpoint's decision on the body alone, before the store is
      consulted: the role it would write, or the 400 it answers. */
  function RoleToWrite(body: Body<RoleInput>): (r: Response<string>)
    ensures r.Ok? ==> IsValidRole(r.body) && body == Decoded(RoleInput(r.body))
    ensures r.Err? ==> r.status == StatusBadRequest
    ensures body.Decoded? && IsValidRole(body.value.role) ==> r == Ok(StatusOK, body.value.role)
  {
    if body.Undecodable? || BindingError("", [Required("Role", body.value.role)]).Some? then
      Err(StatusBadRequest, "Invalid input")
    else if !IsValidRole(body.value.role) then Err(StatusBadRequest, "Invalid role")
    else Ok(StatusOK, body.value.role)
  }

  /** Only whitelisted roles are ever written, so the role endpoint keeps
      every user's role valid and ranked. */
  lemma {:induction false} RoleWriteKeepsRolesValid(users: map<UserId, User>, target: UserId, body: Body<RoleInput>)
    requires RolesValid(users) && target in users && RoleToWrite(body).Ok?
    ensures RolesValid(users[target := users[target].(role := RoleToWrite(body).body)])
    ensures RoleLevel(RoleToWrite(body).body) > 0
  {
    RankedIffValid(RoleToWrite(body).body);
  }

  /** `UpdateUserRole`: 400 "Invalid input" for a body that does not bind,
      400 "Invalid role" outside the whitelist, 404 for an unknown user;
      otherwise that user's role becomes exactly the input. */
  method UpdateUserRole(db: Db, target: UserId, body: Body<RoleInput>) returns (r: Response<string>)
    requires db.Valid()
    modifies db`users
    ensures db.Valid()
    ensures RoleToWrite(body).Err? ==> r == Err(StatusBadRequest, RoleToWrite(body).error) && db.users == old(db.users)
    ensures RoleToWrite(body).Ok? && target !in old(db.users) ==>
      r == Err(StatusNotFound, "User not found") && db.users == old(db.users)
    ensures RoleToWrite(body).Ok? && target in old(db.users) ==>
      r == Ok(StatusOK, "User role updated successfully")
      && db.users == old(db.users)[target := old(db.users)[target].(role := body.value.role)]
  {
    if body.Undecodable? || body.value.role == "" {
      return Err(StatusBadRequest, "Invalid input");
    }
    var role := body.value.role;
    var validRoles := {Roles.User, Staff, Admin, SuperAdmin};
    if role !in validRoles {
      return Err(StatusBadRequest, "Invalid role");
    }
    if target !in db.users {
      return Err(StatusNotFound, "User not found");
    }
    db.users := db.users[target := db.users[target].(role := role)];
    return Ok(StatusOK, "User role updated successfully");
  }
}
