/** The attribute-based access-control helpers: permission strings of the form
    `action:resource`, membership checks on an active user's permission list,
    the rule that `manage:r` grants every action on `r`, owner-or-permission
    access to driver, load and compliance data, and exact-path route
    protection. A missing user (`null`) is `None`. */
module Permissions {
  import opened Common

  /** The fields of a user context that the checks read. */
  datatype UserContext = UserContext(
    userId: string,
    organizationId: string,
    role: string,
    permissions: seq<string>,
    isActive: bool)

  datatype PermissionParts = PermissionParts(action: string, resource: string)

  /** `createPermission`. */
  function CreatePermission(action: string, resource: string): (p: string)
    ensures |p| == |action| + 1 + |resource|
  {
    action + ":" + resource
  }

  /** `parsePermission`: the two halves of a split on `':'`, or none unless
      there are exactly two. */
  function ParsePermission(permission: string): (r: Option<PermissionParts>)
    ensures r.Some? ==> ':' !in r.value.action && ':' !in r.value.resource
  {
    var parts := Split(permission, ':');
    SplitPartsFree(permission, ':');
    if |parts| != 2 then None else Some(PermissionParts(parts[0], parts[1]))
  }

  /** The gate every check starts with: a present, active user. */
  predicate IsActiveUser(user: Option<UserContext>)
  {
    user.Some? && user.value.isActive
  }

  /** `hasPermission`. */
  predicate HasPermission(user: Option<UserContext>, permission: string)
  {
    IsActiveUser(user) && permission in user.value.permissions
  }

  /** `hasResourcePermission`: the exact permission, or `manage` on the resource. */
  predicate HasResourcePermission(user: Option<UserContext>, action: string, resource: string)
  {
    HasPermission(user, CreatePermission(action, resource))
    || HasPermission(user, CreatePermission("manage", resource))
  }

  /** `hasAnyPermission`. */
  predicate HasAnyPermission(user: Option<UserContext>, permissions: seq<string>)
  {
    IsActiveUser(user) && exists i :: 0 <= i < |permissions| && permissions[i] in user.value.permissions
  }

  /** `hasAllPermissions`. */
  predicate HasAllPermissions(user: Option<UserContext>, permissions: seq<string>)
  {
    IsActiveUser(user) && forall i :: 0 <= i < |permissions| ==> permissions[i] in user.value.permissions
  }

  /** `hasRole`. */
  predicate HasRole(user: Option<UserContext>, role: string)
  {
    IsActiveUser(user) && user.value.role == role
  }

  /** `hasAnyRole`. */
  predicate HasAnyRole(user: Option<UserContext>, roles: seq<string>)
  {
    IsActiveUser(user) && user.value.role in roles
  }

  predicate IsAdmin(user: Option<UserContext>) { HasRole(user, "admin") }
  predicate CanManageUsers(user: Option<UserContext>) { HasResourcePermission(user, "manage", "user") }
  predicate CanViewBilling(user: Option<UserContext>) { HasResourcePermission(user, "read", "billing") }
  predicate CanManageSettings(user: Option<UserContext>) { HasResourcePermission(user, "update", "organization") }

  /** `getPermissionsForRole`: `ROLE_PERMISSIONS` is defined outside this model,
      so it is a parameter; an unknown role has no permissions. */
  function GetPermissionsForRole(rolePermissions: map<string, seq<string>>, role: string): (r: seq<string>)
    ensures role in rolePermissions ==> r == rolePermissions[role]
    ensures role !in rolePermissions ==> r == []
  {
    if role in rolePermissions then rolePermissions[role] else []
  }

  /** `belongsToOrganization`: compares the organization only. */
  predicate BelongsToOrganization(user: Option<UserContext>, organizationId: string)
  {
    user.Some? && user.value.organizationId == organizationId
  }

  /** The `PermissionChecks` table: each named check is `hasResourcePermission`
      on one (action, resource) pair. */
  const PERMISSION_CHECKS: map<string, PermissionParts> := map[
    "canViewVehicles" := PermissionParts("read", "vehicle"),
    "canCreateVehicles" := PermissionParts("create", "vehicle"),
    "canUpdateVehicles" := PermissionParts("update", "vehicle"),
    "canDeleteVehicles" := PermissionParts("delete", "vehicle"),
    "canViewDrivers" := PermissionParts("read", "driver"),
    "canCreateDrivers" := PermissionParts("create", "driver"),
    "canUpdateDrivers" := PermissionParts("update", "driver"),
    "canDeleteDrivers" := PermissionParts("delete", "driver"),
    "canViewLoads" := PermissionParts("read", "load"),
    "canCreateLoads" := PermissionParts("create", "load"),
    "canUpdateLoads" := PermissionParts("update", "load"),
    "canDeleteLoads" := PermissionParts("delete", "load"),
    "canAssignLoads" := PermissionParts("assign", "load"),
    "canViewDocuments" := PermissionParts("read", "document"),
    "canCreateDocuments" := PermissionParts("create", "document"),
    "canUpdateDocuments" := PermissionParts("update", "document"),
    "canDeleteDocuments" := PermissionParts("delete", "document"),
    "canApproveDocuments" := PermissionParts("approve", "document"),
    "canViewIFTA" := PermissionParts("read", "ifta_report"),
    "canCreateIFTA" := PermissionParts("create", "ifta_report"),
    "canUpdateIFTA" := PermissionParts("update", "ifta_report"),
    "canReportIFTA" := PermissionParts("report", "ifta_report"),
    "canViewOrganization" := PermissionParts("read", "organization"),
    "canUpdateOrganization" := PermissionParts("update", "organization"),
    "canViewBilling" := PermissionParts("read", "billing"),
    "canManageBilling" := PermissionParts("manage", "billing"),
    "canViewUsers" := PermissionParts("read", "user"),
    "canCreateUsers" := PermissionParts("create", "user"),
    "canUpdateUsers" := PermissionParts("update", "user"),
    "canDeleteUsers" := PermissionParts("delete", "user"),
    "canManageUsers" := PermissionParts("manage", "user")]

  /** Runs the named check of `PermissionChecks`; none for a name the table lacks. */
  function RunPermissionCheck(name: string, user: Option<UserContext>): Option<bool>
  {
    if name in PERMISSION_CHECKS
    then Some(HasResourcePermission(user, PERMISSION_CHECKS[name].action, PERMISSION_CHECKS[name].resource))
    else None
  }

  /** `ResourcePermissions.canAccessDriver`. */
  predicate CanAccessDriver(user: Option<UserContext>, driverId: string)
  {
    user.Some? &&
    (HasPermission(user, "drivers:view") || (user.value.role == "driver" && user.value.userId == driverId))
  }

  /** `ResourcePermissions.canAccessLoad`; an unassigned load has no driver id. */
  predicate CanAccessLoad(user: Option<UserContext>, loadDriverId: Option<string>)
  {
    user.Some? &&
    (HasPermission(user, "dispatch:view") || (user.value.role == "driver" && loadDriverId == Some(user.value.userId)))
  }

  /** `ResourcePermissions.canAccessComplianceDocument`. */
  predicate CanAccessComplianceDocument(user: Option<UserContext>, documentDriverId: Option<string>)
  {
    user.Some? &&
    (HasPermission(user, "compliance:view") || (user.value.role == "driver" && documentDriverId == Some(user.value.userId)))
  }

  /** `RouteProtection.PROTECTED_ROUTES`. */
  const PROTECTED_ROUTES: map<string, seq<string>> := map[
    "/dashboard" := ["fleet:view"],
    "/fleet" := ["fleet:view"],
    "/drivers" := ["drivers:view"],
    "/dispatch" := ["dispatch:view"],
    "/compliance" := ["compliance:view"],
    "/analytics" := ["analytics:view"],
    "/ifta" := ["ifta:view"],
    "/settings" := ["settings:view"],
    "/settings/billing" := ["billing:view"],
    "/settings/users" := ["users:view"]]

  /** `RouteProtection.canAccessRoute`: an exact-key lookup; an unlisted path is public. */
  predicate CanAccessRoute(user: Option<UserContext>, path: string)
  {
    path !in PROTECTED_ROUTES || HasAnyPermission(user, PROTECTED_ROUTES[path])
  }

  // ---------------------------------------------------------------------
  // Properties.

  /** Creating then parsing a permission gives back its halves when neither contains `':'`. */
  lemma ParseCreate(action: string, resource: string)
    requires ':' !in action && ':' !in resource
    ensures ParsePermission(CreatePermission(action, resource)) == Some(PermissionParts(action, resource))
  {
    SplitAtFirst(action, ':', resource);
    SplitFree(resource, ':');
  }

  /** Parsing succeeds exactly when the string holds one `':'`, and what it
      returns re-creates the string. */
  lemma ParseExact(permission: string)
    ensures ParsePermission(permission).Some? <==> Count(permission, ':') == 1
    ensures ParsePermission(permission).Some? ==>
      CreatePermission(ParsePermission(permission).value.action, ParsePermission(permission).value.resource) == permission
  {
    SplitLength(permission, ':');
    JoinSplit(permission, ':');
    var parts := Split(permission, ':');
    if |parts| == 2 {
      assert Join(parts, ":") == parts[0] + ":" + Join(parts[1..], ":");
      assert parts[1..] == [parts[1]];
    }
  }

  /** Every `has*` check refuses a missing or inactive user. */
  lemma InactiveUserHasNothing(user: Option<UserContext>, p: string, ps: seq<string>, action: string, resource: string, role: string, roles: seq<string>)
    requires user.None? || !user.value.isActive
    ensures !HasPermission(user, p) && !HasResourcePermission(user, action, resource)
    ensures !HasAnyPermission(user, ps) && !HasAllPermissions(user, ps)
    ensures !HasRole(user, role) && !HasAnyRole(user, roles)
  {
  }

  /** `hasResourcePermission(u, a, r)` holds exactly when the active user holds
      `a:r` or `manage:r`; so `manage:r` grants every action on `r`. */
  lemma ResourcePermissionExact(user: Option<UserContext>, action: string, resource: string)
    ensures HasResourcePermission(user, action, resource) <==>
      IsActiveUser(user) &&
      (action + ":" + resource in user.value.permissions || "manage:" + resource in user.value.permissions)
    ensures HasPermission(user, "manage:" + resource) ==> HasResourcePermission(user, action, resource)
  {
    assert CreatePermission("manage", resource) == "manage:" + resource;
  }

  /** For an active user: no permission from an empty list, all of an empty
      list, and all of a non-empty list implies any of it. */
  lemma AnyAllPermissions(user: Option<UserContext>, ps: seq<string>)
    requires IsActiveUser(user)
    ensures !HasAnyPermission(user, [])
    ensures HasAllPermissions(user, [])
    ensures ps != [] && HasAllPermissions(user, ps) ==> HasAnyPermission(user, ps)
  {
    if ps != [] && HasAllPermissions(user, ps) {
      assert ps[0] in user.value.permissions;
    }
  }

  /** Organization membership ignores whether the user is active. */
  lemma BelongsIgnoresActivity(u: UserContext, organizationId: string, active: bool)
    ensures BelongsToOrganization(Some(u.(isActive := active)), organizationId) <==> u.organizationId == organizationId
  {
  }

  /** A user who may manage users passes every user-management check in the table. */
  lemma ManageUsersPassesUserChecks(user: Option<UserContext>, name: string)
    requires CanManageUsers(user)
    requires name in PERMISSION_CHECKS && PERMISSION_CHECKS[name].resource == "user"
    ensures RunPermissionCheck(name, user) == Some(true)
  {
  }

  /** The owner route of the resource checks does not look at `isActive`: an
      inactive driver still reaches their own records, though never through a
      view permission. */
  lemma OwnerAccessIgnoresActivity(u: UserContext, driverId: string)
    requires !u.isActive
    ensures CanAccessDriver(Some(u), driverId) <==> (u.role == "driver" && u.userId == driverId)
    ensures CanAccessLoad(Some(u), Some(driverId)) <==> (u.role == "driver" && u.userId == driverId)
    ensures CanAccessComplianceDocument(Some(u), Some(driverId)) <==> (u.role == "driver" && u.userId == driverId)
    ensures !CanAccessLoad(Some(u), None) && !CanAccessComplianceDocument(Some(u), None)
  {
  }

  /** Route protection is an exact-key lookup: an unlisted path (including a
      sub-path of a listed one) is open to anyone, a listed one needs any of
      its permissions. */
  lemma RouteAccessExact(user: Option<UserContext>, path: string)
    ensures path !in PROTECTED_ROUTES ==> CanAccessRoute(user, path)
    ensures path in PROTECTED_ROUTES ==> (CanAccessRoute(user, path) <==> HasAnyPermission(user, PROTECTED_ROUTES[path]))
    ensures CanAccessRoute(None, "/dashboard/overview") && !CanAccessRoute(None, "/dashboard")
  {
    assert "/dashboard" in PROTECTED_ROUTES;
    assert "/dashboard/overview" !in PROTECTED_ROUTES;
  }
}
