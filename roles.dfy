/** The role hierarchy of internal/middleware/auth.go (`getRoleLevel`) and the
    role whitelist of internal/handlers/admin.go (`validRoles`). */
module Roles {

  const SuperAdmin := "super_admin"
  const Admin := "admin"
  const Staff := "staff"
  const User := "user"

  /** `getRoleLevel`: super_admin > admin > staff > user; any other string
      ranks 0 instead of being rejected. */
  function RoleLevel(role: string): (level: nat)
    ensures level <= 4
  {
    if role == SuperAdmin then 4
    else if role == Admin then 3
    else if role == Staff then 2
    else if role == User then 1
    else 0
  }

  /** `validRoles` in `UpdateUserRole`. */
  predicate IsValidRole(role: string) {
    role in {User, Staff, Admin, SuperAdmin}
  }

  /** The hierarchy is strict: each role outranks the one below it, and every
      known role outranks an unknown one. */
  lemma HierarchyIsStrict()
    ensures RoleLevel(SuperAdmin) == 4 && RoleLevel(Admin) == 3
    ensures RoleLevel(Staff) == 2 && RoleLevel(User) == 1
    ensures RoleLevel(User) < RoleLevel(Staff) < RoleLevel(Admin) < RoleLevel(SuperAdmin)
  {
  }

  /** The ranking and the whitelist agree: exactly the whitelisted roles rank
      above 0, and on them the ranking is one-to-one. */
  lemma RankedIffValid(role: string)
    ensures RoleLevel(role) > 0 <==> IsValidRole(role)
  {
  }

  lemma RankDeterminesValidRole(r1: string, r2: string)
    requires IsValidRole(r1) && IsValidRole(r2)
    ensures RoleLevel(r1) == RoleLevel(r2) ==> r1 == r2
  {
  }
}
