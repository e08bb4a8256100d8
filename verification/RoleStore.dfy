/** Role provisioning and assignment as the services perform them, table by table. */
module RoleStore {
  import opened Wrappers
  import opened Roles
  import opened Grants

  class AuthorizationStore {
    var tenants: map<Uuid, bool>
    var roles: map<(Uuid, string), seq<string>>
    var homes: map<Uuid, Uuid>
    var assignments: set<Assignment>

    function Value(): Directory
      reads this
    {
      Directory(tenants, roles, homes, assignments)
    }

    /** Resolves the role by name, then inserts only where role and identity share a tenant. */
    method AssignByName(tenant: Uuid, identity: Uuid, role: string) returns (ok: bool)
      modifies this`assignments
      ensures ok == CanAssign(old(Value()), tenant, identity, role)
      ensures Value() == AssignRole(old(Value()), tenant, identity, role)
    {
      if (tenant, role) !in roles {
        return false;
      }
      if identity !in homes || homes[identity] != tenant {
        return false;
      }
      assignments := assignments + {Assignment(identity, tenant, role)};
      return true;
    }

    /** Inserts the identity, then the default role and the requested ones; the first failure ends the loop. */
    method CreateUser(tenant: Uuid, identity: Uuid, extra: seq<string>) returns (ok: bool)
      modifies this`homes, this`assignments
      ensures Value() == CreateIdentity(old(Value()), tenant, identity, extra)
      ensures ok ==> forall n :: n in [IDENTITY_SELF] + extra ==> Assignment(identity, tenant, n) in assignments
    {
      if identity in homes {
        return false;
      }
      homes := homes[identity := tenant];
      var names := [IDENTITY_SELF];
      names := names + extra;
      ghost var created := Value();
      for i := 0 to |names|
        invariant tenants == old(tenants) && roles == old(roles) && homes == created.homes
        invariant AssignAll(Value(), tenant, identity, names[i..]) == AssignAll(created, tenant, identity, names)
        invariant forall j :: 0 <= j < i ==> Assignment(identity, tenant, names[j]) in assignments
      {
        assert names[i..][1..] == names[i + 1..];
        var done := AssignByName(tenant, identity, names[i]);
        if !done {
          return false;
        }
      }
      return true;
    }

    /** Deletes the tenant; its roles go with it, by cascade. */
    method DeleteTenant(tenant: Uuid)
      modifies this`tenants, this`roles
      ensures tenants == old(tenants) - {tenant}
      ensures roles == map key | key in old(roles) && key.0 != tenant :: old(roles)[key]
    {
      tenants := tenants - {tenant};
      roles := map key | key in roles && key.0 != tenant :: roles[key];
    }

    /** Inserts the roles in order; `failing` is the insert that the database fails, if any. */
    method CreateRoles(tenant: Uuid, descs: seq<Role>, failing: Option<nat>) returns (ok: bool)
      modifies this`roles
      ensures ok == !(failing.Some? && failing.value < |descs|)
      ensures ok ==> roles == AddRoles(old(roles), tenant, descs)
      ensures forall key: (Uuid, string) :: key.0 != tenant ==> (key in roles <==> key in old(roles))
      ensures forall key :: key in old(roles) && key.0 != tenant ==> roles[key] == old(roles)[key]
    {
      for i := 0 to |descs|
        invariant AddRoles(roles, tenant, descs[i..]) == AddRoles(old(roles), tenant, descs)
        invariant forall key: (Uuid, string) :: key.0 != tenant ==> (key in roles <==> key in old(roles))
        invariant forall key :: key in old(roles) && key.0 != tenant ==> roles[key] == old(roles)[key]
        invariant failing.Some? ==> i <= failing.value
      {
        if failing == Some(i) {
          return false;
        }
        assert descs[i..][1..] == descs[i + 1..];
        roles := roles[(tenant, descs[i].name) := descs[i].permissions];
      }
      return true;
    }

    /**
     Tenant creation: the role list grows for the platform tenant, then every role
     is inserted. Should an insert fail, the tenant is deleted again and nothing of
     it remains.
     */
    method ProvisionTenant(tenant: Uuid, isPlatform: bool, admin: Option<Uuid>, failing: Option<nat>)
      returns (ok: bool)
      requires forall key :: key in roles ==> key.0 in tenants
      modifies this
      ensures var fails := failing.Some? && failing.value < |Descriptions(isPlatform)|;
              && Value() == (if fails then old(Value()) else CreateTenant(old(Value()), tenant, isPlatform, admin))
              && (fails ==> !ok)
    {
      hide AddRoles, CreateIdentity, TENANT_ROLES, PLATFORM_ROLES;
      if tenant in tenants {
        return false;
      }
      tenants := tenants[tenant := isPlatform];
      var descs := TENANT_ROLES;
      var adminRoles := [IDENTITY_ADMIN, TENANT_ADMIN, CLIENT_ADMIN];
      if isPlatform {
        descs := descs + PLATFORM_ROLES;
        adminRoles := adminRoles + [TENANT_CREATOR, PLATFORM_ADMIN];
      }
      assert descs == Descriptions(isPlatform);
      assert adminRoles == AdminRoles(isPlatform);
      var created := CreateRoles(tenant, descs, failing);
      if !created {
        DeleteTenant(tenant);
        assert tenants == old(tenants);
        assert roles == old(roles);
        return false;
      }
      ok := true;
      if admin.Some? {
        ok := CreateUser(tenant, admin.value, adminRoles);
      }
    }
  }
}
