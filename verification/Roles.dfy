/** The roles that tenant creation provisions, and what their permission keys have in common. */
module Roles {
  import opened Scopes

  datatype Role = Role(name: string, permissions: seq<string>)

  const TENANT_READ := "TenantRead"
  const TENANT_UPDATE := "TenantUpdate"
  const TENANT_DELETE := "TenantDelete"
  const CLIENT_CREATE := "ClientCreate"
  const CLIENT_READ := "ClientRead"
  const CLIENT_UPDATE := "ClientUpdate"
  const CLIENT_DELETE := "ClientDelete"
  const AUDIT_READ := "AuditRead"

  const PLATFORM_SCOPES: seq<string> := [
    "PlatformTenantCreate", "PlatformTenantRead", "PlatformTenantUpdate", "PlatformTenantDelete", "PlatformTenantList",
    "PlatformIdentityCreate", "PlatformIdentityRead", "PlatformIdentityUpdate", "PlatformIdentityDelete",
    "PlatformIdentityList",
    "PlatformClientCreate", "PlatformClientRead", "PlatformClientUpdate", "PlatformClientDelete", "PlatformClientList",
    "PlatformRoleCreate", "PlatformRoleRead", "PlatformRoleUpdate", "PlatformRoleDelete", "PlatformRoleList",
    "PlatformConfigRead", "PlatformConfigWrite", "PlatformMetricsRead", "PlatformAuditRead"]

  const IDENTITY_SELF := "IdentitySelf"
  const IDENTITY_ADMIN := "IdentityAdmin"
  const TENANT_ADMIN := "TenantAdmin"
  const CLIENT_ADMIN := "ClientAdmin"
  const TENANT_CREATOR := "TenantCreator"
  const PLATFORM_ADMIN := "PlatformAdmin"

  /** Roles of every tenant. */
  const TENANT_ROLES: seq<Role> := [
    Role(IDENTITY_SELF, SELF_SERVICE_SCOPES),
    Role("IdentityViewer", [IDENTITY_READ]),
    Role("IdentityCreator", [IDENTITY_CREATE]),
    Role(IDENTITY_ADMIN, [IDENTITY_CREATE, IDENTITY_READ, IDENTITY_UPDATE, IDENTITY_DELETE]),
    Role("TenantReader", [TENANT_READ]),
    Role(TENANT_ADMIN, [TENANT_READ, TENANT_UPDATE, TENANT_DELETE, AUDIT_READ]),
    Role(CLIENT_ADMIN, [CLIENT_CREATE, CLIENT_READ, CLIENT_UPDATE, CLIENT_DELETE]),
    Role("AuditViewer", [AUDIT_READ])]

  /** Roles of the platform tenant only. */
  const PLATFORM_ROLES: seq<Role> := [
    Role(TENANT_CREATOR, [TENANT_CREATE]),
    Role(PLATFORM_ADMIN, PLATFORM_SCOPES)]

  /** Keys are capitalised, OIDC scopes are not. */
  ghost predicate IsPermissionKey(p: string) {
    p != [] && 'A' <= p[0] <= 'Z'
  }

  ghost predicate IsTenantRole(r: Role) {
    forall i :: 0 <= i < |r.permissions| ==> IsPermissionKey(r.permissions[i]) && !IsPlatform(r.permissions[i])
  }

  ghost predicate IsPlatformRole(r: Role) {
    forall i :: 0 <= i < |r.permissions| ==> IsPermissionKey(r.permissions[i]) && IsPlatform(r.permissions[i])
  }

  /** A permission key is never an OIDC scope, so it is never exempt from narrowing. */
  lemma PermissionIsNotOidc(p: string)
    requires IsPermissionKey(p)
    ensures !IsOidc(p)
  {
  }

  /** No role of an ordinary tenant carries a cross-tenant permission. */
  lemma TenantRolesAreLocal(i: nat)
    requires i < |TENANT_ROLES|
    ensures IsTenantRole(TENANT_ROLES[i])
  {
  }

  lemma PlatformScopesArePlatform(k: nat)
    requires k < |PLATFORM_SCOPES|
    ensures IsPermissionKey(PLATFORM_SCOPES[k]) && IsPlatform(PLATFORM_SCOPES[k])
  {
    var p := PLATFORM_SCOPES[k];
    assert |p| >= 8 && p[..8] == "Platform";
  }

  /** The platform roles carry nothing but cross-tenant permissions. */
  lemma PlatformRolesAreGlobal(i: nat)
    requires i < |PLATFORM_ROLES|
    ensures IsPlatformRole(PLATFORM_ROLES[i])
  {
    hide PLATFORM_SCOPES;
    if PLATFORM_ROLES[i].name == PLATFORM_ADMIN {
      forall k | 0 <= k < |PLATFORM_SCOPES|
        ensures IsPermissionKey(PLATFORM_SCOPES[k]) && IsPlatform(PLATFORM_SCOPES[k])
      {
        PlatformScopesArePlatform(k);
      }
    }
  }

  /** Role names are pairwise distinct, so a name determines its role. */
  lemma NamesAreDistinct(i: nat, j: nat)
    requires i < j < |TENANT_ROLES + PLATFORM_ROLES|
    ensures (TENANT_ROLES + PLATFORM_ROLES)[i].name != (TENANT_ROLES + PLATFORM_ROLES)[j].name
  {
  }
}
