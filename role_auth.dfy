/** The role guards of `server/src/middleware/roleAuth.ts`. A guard either
    lets the request through (`Ok(())`) or throws. */
module RoleAuth {
  import opened Common
  import opened Text

  datatype Role = Reader | Creator | Admin

  function RoleName(r: Role): string {
    match r
    case Reader => "reader"
    case Creator => "creator"
    case Admin => "admin"
  }

  /** The user an authenticated request carries. */
  datatype AuthUser = AuthUser(userId: int, username: string, role: Role)

  /** The argument of `requireRole`: one role or a list of roles. */
  datatype RequiredRoles = OneRole(role: Role) | RoleList(roles: seq<Role>)

  /** A single role is treated as a one-element list. */
  function AsList(required: RequiredRoles): (r: seq<Role>)
    ensures required.OneRole? ==> r == [required.role]
    ensures required.RoleList? ==> r == required.roles
  {
    match required
    case OneRole(role) => [role]
    case RoleList(roles) => roles
  }

  function RoleNames(roles: seq<Role>): (r: seq<string>)
    ensures |r| == |roles|
    ensures forall i :: 0 <= i < |roles| ==> r[i] == RoleName(roles[i])
  {
    if roles == [] then [] else [RoleName(roles[0])] + RoleNames(roles[1..])
  }

  /** `requireRole(requiredRoles)` applied to a request. */
  function RequireRole(required: RequiredRoles, user: Option<AuthUser>): (r: Outcome<()>)
    ensures user.None? ==> r == Fail(401, "User not authenticated")
    ensures user.Some? ==> (r.Ok? <==> user.value.role in AsList(required))
    ensures user.Some? && r.Err? ==>
      r == Fail(403, "Access denied. Required role: " + Join(RoleNames(AsList(required)), " or "))
  {
    if user.None? then Fail(401, "User not authenticated")
    else
      var roles := AsList(required);
      if user.value.role !in roles then
        Fail(403, "Access denied. Required role: " + Join(RoleNames(roles), " or "))
      else Ok(())
  }

  /** `requireCreator`: creators and admins pass. */
  function RequireCreator(user: Option<AuthUser>): (r: Outcome<()>)
    ensures user.None? ==> r == Fail(401, "User not authenticated")
    ensures user.Some? ==> (r.Ok? <==> user.value.role == Creator || user.value.role == Admin)
  {
    RequireRole(RoleList([Creator, Admin]), user)
  }

  /** `requireAdmin`: only admins pass. */
  function RequireAdmin(user: Option<AuthUser>): (r: Outcome<()>)
    ensures user.None? ==> r == Fail(401, "User not authenticated")
    ensures user.Some? ==> (r.Ok? <==> user.value.role == Admin)
  {
    RequireRole(OneRole(Admin), user)
  }

  /** A refusal by either guard names the roles joined by " or ". */
  lemma RequireCreatorAndAdmin(u: AuthUser)
    ensures u.role == Reader ==>
      RequireCreator(Some(u)) == Fail(403, "Access denied. Required role: creator or admin")
    ensures u.role != Admin ==>
      RequireAdmin(Some(u)) == Fail(403, "Access denied. Required role: admin")
  {
    assert RoleNames([Creator, Admin]) == ["creator", "admin"];
    assert Join(["creator", "admin"], " or ") == "creator" + " or " + Join(["admin"], " or ");
    assert RoleNames([Admin]) == ["admin"];
    assert "Access denied. Required role: " + ("creator" + " or " + "admin")
      == "Access denied. Required role: creator or admin";
    assert "Access denied. Required role: " + "admin" == "Access denied. Required role: admin";
  }

  /** A single role behaves exactly like the one-element list. */
  lemma SingleRoleIsList(role: Role, user: Option<AuthUser>)
    ensures RequireRole(OneRole(role), user) == RequireRole(RoleList([role]), user)
  {
  }

  function IsCreatorOrAdmin(role: Role): bool {
    role == Creator || role == Admin
  }

  /** `canUploadBooks`. */
  function CanUploadBooks(user: Option<AuthUser>): (r: Outcome<()>)
    ensures user.None? ==> r == Fail(401, "User not authenticated")
    ensures user.Some? ==> (r.Ok? <==> user.value.role != Reader)
    ensures user.Some? && r.Err? ==> r == Fail(403, "Only creators can upload books")
  {
    if user.None? then Fail(401, "User not authenticated")
    else if !IsCreatorOrAdmin(user.value.role) then Fail(403, "Only creators can upload books")
    else Ok(())
  }

  /** `canCreateMoodPresets`. */
  function CanCreateMoodPresets(user: Option<AuthUser>): (r: Outcome<()>)
    ensures user.None? ==> r == Fail(401, "User not authenticated")
    ensures user.Some? ==> (r.Ok? <==> user.value.role != Reader)
    ensures user.Some? && r.Err? ==> r == Fail(403, "Only creators can create mood presets")
  {
    if user.None? then Fail(401, "User not authenticated")
    else if !IsCreatorOrAdmin(user.value.role) then Fail(403, "Only creators can create mood presets")
    else Ok(())
  }

  /** The upload and preset guards admit the same users as `requireCreator`. */
  lemma CreatorGuardsAgree(user: Option<AuthUser>)
    ensures CanUploadBooks(user).Ok? <==> RequireCreator(user).Ok?
    ensures CanCreateMoodPresets(user).Ok? <==> RequireCreator(user).Ok?
  {
  }

  /** `canModifyResource(resourceCreatorId)`: an admin, or the resource's
      creator. */
  function CanModifyResource(resourceCreatorId: int, user: Option<AuthUser>): (r: Outcome<()>)
    ensures user.None? ==> r == Fail(401, "User not authenticated")
    ensures user.Some? ==>
      (r.Ok? <==> user.value.role == Admin || user.value.userId == resourceCreatorId)
    ensures user.Some? && r.Err? ==>
      r == Fail(403, "Access denied. You can only modify your own resources")
  {
    if user.None? then Fail(401, "User not authenticated")
    else if user.value.role == Admin || user.value.userId == resourceCreatorId then Ok(())
    else Fail(403, "Access denied. You can only modify your own resources")
  }
}
