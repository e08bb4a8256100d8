/**
 What each granting action does to everybody's roles, exactly: who gains a role, who
 loses one, what a new identity and a new tenant's administrator start with, and what
 a minted token carries.
 */
module RoleEffects {
  import opened Wrappers
  import opened Scopes
  import opened Roles
  import opened Grants
  import Exposure

  // ── Roles and permissions ────────────────────────────────────────────────

  /** The identity has been assigned this role of its own tenant. */
  ghost predicate Has(d: Directory, identity: Uuid, role: string) {
    identity in d.homes && Assignment(identity, d.homes[identity], role) in d.assignments
  }

  ghost predicate Conveys(d: Directory, tenant: Uuid, role: string, p: string) {
    (tenant, role) in d.roles && p in d.roles[(tenant, role)]
  }

  /** An identity's permissions are those of its roles. */
  lemma HeldExactly(d: Directory, identity: Uuid, p: string)
    ensures p in Held(d, identity) <==>
              identity in d.homes && exists role :: Has(d, identity, role) && Conveys(d, d.homes[identity], role, p)
  {
    if p in Held(d, identity) {
      var a :| a in d.assignments && Joins(d, a, identity) && p in d.roles[(a.tenant, a.role)];
      assert Has(d, identity, a.role) && Conveys(d, d.homes[identity], a.role, p);
    }
    if identity in d.homes {
      if role :| Has(d, identity, role) && Conveys(d, d.homes[identity], role, p) {
        assert Joins(d, Assignment(identity, d.homes[identity], role), identity);
      }
    }
  }

  ghost predicate Carries(w: World, k: nat, scope: string) { k < |w.tokens| && scope in w.tokens[k].scopes }

  /** The role exists in the token's tenant, and the token carries everything it confers. */
  ghost predicate CanGrant(w: World, k: nat, role: string) {
    && k < |w.tokens| && (w.tokens[k].tenant, role) in w.dir.roles
    && forall p :: Conveys(w.dir, w.tokens[k].tenant, role, p) ==> p in w.tokens[k].scopes
  }

  ghost predicate IsColleague(w: World, k: nat, identity: Uuid) {
    k < |w.tokens| && identity in w.dir.homes && w.dir.homes[identity] == w.tokens[k].tenant
  }

  // ── Assigning and removing ───────────────────────────────────────────────

  ghost predicate MayAssign(w: World, k: nat, identity: Uuid, role: string) {
    Carries(w, k, IDENTITY_UPDATE) && CanGrant(w, k, role) && IsColleague(w, k, identity)
  }

  /** An assignment gives exactly this role, to exactly this identity. */
  lemma AssignedExactly(w: World, k: nat, identity: Uuid, role: string)
    ensures var w' := Next(w, Assign(k, identity, role));
            && w' == w.(dir := w.dir.(assignments := w'.dir.assignments))
            && forall i, r :: Has(w'.dir, i, r) <==>
                                Has(w.dir, i, r) || (MayAssign(w, k, identity, role) && i == identity && r == role)
  {
  }

  /** The default role cannot be removed; any other is, under the conditions of granting it. */
  ghost predicate MayUnassign(w: World, k: nat, identity: Uuid, role: string) {
    MayAssign(w, k, identity, role) && role != "IdentitySelf"
  }

  /** A removal takes exactly this role, from exactly this identity. */
  lemma UnassignedExactly(w: World, k: nat, identity: Uuid, role: string)
    ensures var w' := Next(w, Unassign(k, identity, role));
            && w' == w.(dir := w.dir.(assignments := w'.dir.assignments))
            && forall i, r :: Has(w'.dir, i, r) <==>
                                Has(w.dir, i, r) && !(MayUnassign(w, k, identity, role) && i == identity && r == role)
  {
  }

  /** After it, the identity holds a permission exactly if another of its roles confers it. */
  lemma UnassignTakesAway(w: World, k: nat, identity: Uuid, role: string, p: string)
    requires MayUnassign(w, k, identity, role)
    ensures p in Held(Next(w, Unassign(k, identity, role)).dir, identity) <==>
              exists r :: r != role && Has(w.dir, identity, r) && Conveys(w.dir, w.dir.homes[identity], r, p)
  {
    UnassignedExactly(w, k, identity, role);
    var d, d' := w.dir, Next(w, Unassign(k, identity, role)).dir;
    HeldExactly(d', identity, p);
    hide Next, Held;
    if r :| r != role && Has(d, identity, r) && Conveys(d, d.homes[identity], r, p) {
      assert Has(d', identity, r) && Conveys(d', d'.homes[identity], r, p);
    }
    if p in Held(d', identity) {
      var r :| Has(d', identity, r) && Conveys(d', d'.homes[identity], r, p);
      assert r != role && Has(d, identity, r) && Conveys(d, d.homes[identity], r, p);
    }
  }

  // ── Creating ─────────────────────────────────────────────────────────────

  /** Where every role can be assigned, every role is. */
  lemma {:induction false} AssignAllGives(d: Directory, tenant: Uuid, identity: Uuid, names: seq<string>, a: Assignment)
    requires forall n :: n in names ==> CanAssign(d, tenant, identity, n)
    ensures a in AssignAll(d, tenant, identity, names).assignments <==>
              a in d.assignments || (a.identity == identity && a.tenant == tenant && a.role in names)
    decreases |names|
  {
    if names != [] {
      assert names == [names[0]] + names[1..];
      forall n | n in names[1..] ensures CanAssign(AssignRole(d, tenant, identity, names[0]), tenant, identity, n) {
        assert n in names && CanAssign(d, tenant, identity, n);
      }
      AssignAllGives(AssignRole(d, tenant, identity, names[0]), tenant, identity, names[1..], a);
    }
  }

  /** A new identity of a tenant that has these roles starts with the default role and these. */
  lemma NewIdentityHas(d: Directory, tenant: Uuid, identity: Uuid, names: seq<string>)
    requires DirFits(d) && identity !in d.homes
    requires forall n :: n in [IDENTITY_SELF] + names ==> (tenant, n) in d.roles
    ensures var d' := CreateIdentity(d, tenant, identity, names);
            && SameButAssigned(d.(homes := d.homes[identity := tenant]), d')
            && forall i, r :: Has(d', i, r) <==>
                                Has(d, i, r) || (i == identity && (r == "IdentitySelf" || r in names))
  {
    var d1 := d.(homes := d.homes[identity := tenant]);
    var d' := CreateIdentity(d, tenant, identity, names);
    AssignAllShape(d1, tenant, identity, [IDENTITY_SELF] + names);
    forall i, r
      ensures Has(d', i, r) <==> Has(d, i, r) || (i == identity && (r == "IdentitySelf" || r in names))
    {
      if i in d1.homes {
        var a := Assignment(i, d1.homes[i], r);
        AssignAllGives(d1, tenant, identity, [IDENTITY_SELF] + names, a);
        assert a in d.assignments ==> Anchored(d, a);
      }
    }
  }

  ghost predicate MayCreate(w: World, k: nat, identity: Uuid, names: seq<string>) {
    Carries(w, k, IDENTITY_CREATE) && identity !in w.dir.homes && forall n :: n in names ==> CanGrant(w, k, n)
  }

  /**
   In every reachable state, a new identity belongs to the token's tenant and has exactly
   the default role and the roles asked for; if one of those may not be granted, nothing
   is created.
   */
  lemma CreatedExactly(w: World, k: nat, identity: Uuid, names: seq<string>)
    requires Contained(w) && Exposure.Provisioned(w.dir)
    ensures var w', may := Next(w, Create(k, identity, names)), MayCreate(w, k, identity, names);
            && w' == w.(dir := w.dir.(homes := w'.dir.homes, assignments := w'.dir.assignments))
            && w'.dir.homes == (if may then w.dir.homes[identity := w.tokens[k].tenant] else w.dir.homes)
            && forall i, r :: Has(w'.dir, i, r) <==>
                                Has(w.dir, i, r) || (may && i == identity && (r == "IdentitySelf" || r in names))
  {
    if MayCreate(w, k, identity, names) {
      assert Confined(w.dir, w.tokens[k].tenant, w.tokens[k].scopes);
      Exposure.SelfRoleExists(w.dir, w.tokens[k].tenant);
      NewIdentityHas(w.dir, w.tokens[k].tenant, identity, names);
    }
    hide Contained, Exposure.Provisioned, AssignAll;
  }

  // ── Provisioning ─────────────────────────────────────────────────────────

  /** The administrator's roles, with the default one, convey whatever any role of the tenant does. */
  lemma AdministratorCovers(platform: bool, i: nat, p: string) returns (j: nat)
    requires i < |Descriptions(platform)| && p in Descriptions(platform)[i].permissions
    ensures j < |Descriptions(platform)| && p in Descriptions(platform)[j].permissions
    ensures Descriptions(platform)[j].name in AdminRoles(platform)
  {
    if i >= |TENANT_ROLES| {
      j := i;
    } else {
      j := if i < 4 then 3 else if i < 6 || i == 7 then 5 else 6;
    }
  }

  lemma AdministratorRolesExist(d: Directory, tenant: Uuid)
    requires Exposure.Provisioned(d) && tenant in d.tenants
    ensures forall n :: n in [IDENTITY_SELF] + AdminRoles(d.tenants[tenant]) ==> (tenant, n) in d.roles
  {
    var platform := d.tenants[tenant];
    var descs := Descriptions(platform);
    assert descs[0].name == IDENTITY_SELF && descs[3].name == IDENTITY_ADMIN && descs[5].name == TENANT_ADMIN
           && descs[6].name == CLIENT_ADMIN;
    assert platform ==> descs[8].name == TENANT_CREATOR && descs[9].name == PLATFORM_ADMIN;
    forall n | n in [IDENTITY_SELF] + AdminRoles(platform) ensures (tenant, n) in d.roles {
      var i := if n == IDENTITY_SELF then 0 else if n == IDENTITY_ADMIN then 3 else if n == TENANT_ADMIN then 5
               else if n == CLIENT_ADMIN then 6 else if n == TENANT_CREATOR then 8 else 9;
      assert Exposure.HasRole(d, tenant, i) && descs[i].name == n;
    }
  }

  /** The tenant's roles are exactly these. */
  ghost predicate HasExactly(d: Directory, tenant: Uuid, descs: seq<Role>) {
    && (forall name :: (tenant, name) in d.roles ==> Role(name, d.roles[(tenant, name)]) in descs)
    && (forall r :: r in descs ==> (tenant, r.name) in d.roles && d.roles[(tenant, r.name)] == r.permissions)
  }

  ghost predicate OthersKept(d: Directory, d': Directory, tenant: Uuid) {
    && (forall key: (Uuid, string) :: key.0 != tenant ==> (key in d'.roles <==> key in d.roles))
    && (forall key :: key in d.roles && key.0 != tenant ==> d'.roles[key] == d.roles[key])
  }

  lemma RolesProvided(d: Directory, d': Directory, tenant: Uuid, descs: seq<Role>)
    requires forall name :: (tenant, name) !in d.roles
    requires forall j, k :: 0 <= j < k < |descs| ==> descs[j].name != descs[k].name
    requires d'.roles == AddRoles(d.roles, tenant, descs)
    ensures HasExactly(d', tenant, descs) && OthersKept(d, d', tenant)
  {
    AddRolesShape(d.roles, tenant, descs);
    hide AddRoles;
    forall r | r in descs ensures (tenant, r.name) in d'.roles && d'.roles[(tenant, r.name)] == r.permissions {
      var i :| 0 <= i < |descs| && descs[i] == r;
      Exposure.AddRolesHas(d.roles, tenant, descs, i);
    }
  }

  lemma NoRolesYet(d: Directory, tenant: Uuid)
    requires DirFits(d) && tenant !in d.tenants
    ensures forall name :: (tenant, name) !in d.roles
  {
    forall name ensures (tenant, name) !in d.roles {
      assert (tenant, name) in d.roles ==> RoleFits(d, (tenant, name));
    }
  }

  /** The directory with the new tenant in it and nobody in the tenant. */
  lemma EmptyTenant(d: Directory, tenant: Uuid, platform: bool) returns (d1: Directory)
    requires DirFits(d) && Exposure.Provisioned(d) && tenant !in d.tenants
    ensures d1 == d.(tenants := d.tenants[tenant := platform],
                     roles := AddRoles(d.roles, tenant, Descriptions(platform)))
    ensures DirFits(d1) && HasExactly(d1, tenant, Descriptions(platform)) && OthersKept(d, d1, tenant)
    ensures forall n :: n in [IDENTITY_SELF] + AdminRoles(platform) ==> (tenant, n) in d1.roles
  {
    var descs := Descriptions(platform);
    d1 := d.(tenants := d.tenants[tenant := platform], roles := AddRoles(d.roles, tenant, descs));
    CreateTenantFits(d, tenant, platform, None);
    Exposure.CreateTenantProvisions(d, tenant, platform, None);
    NoRolesYet(d, tenant);
    assert CreateTenant(d, tenant, platform, None) == d1;
    forall j, k | 0 <= j < k < |descs| ensures descs[j].name != descs[k].name {
      Exposure.DescriptionsDiffer(platform, j, k);
    }
    AdministratorRolesExist(d1, tenant);
    hide Descriptions, AddRoles, DirFits, Exposure.Provisioned, AdminRoles;
    RolesProvided(d, d1, tenant, descs);
  }

  /**
   A new tenant gets exactly the described roles; its administrator, if new, exactly the
   administrator roles and the default one. Nobody else's roles, and no other tenant's,
   change.
   */
  lemma ProvisionedExactly(w: World, tenant: Uuid, platform: bool, admin: Option<Uuid>)
    requires Contained(w) && Exposure.Provisioned(w.dir) && tenant !in w.dir.tenants
    ensures var d, d' := w.dir, Next(w, Provision(tenant, platform, admin)).dir;
            var isNew := admin.Some? && admin.value !in d.homes;
            && d'.tenants == d.tenants[tenant := platform]
            && HasExactly(d', tenant, Descriptions(platform)) && OthersKept(d, d', tenant)
            && d'.homes == (if isNew then d.homes[admin.value := tenant] else d.homes)
            && forall i, r :: Has(d', i, r) <==>
                 Has(d, i, r) || (isNew && i == admin.value && (r == "IdentitySelf" || r in AdminRoles(platform)))
  {
    ContainedMeans(w);
    hide Contained, Exposure.Provisioned, Descriptions, AddRoles, AdminRoles, DirFits;
    var d1 := EmptyTenant(w.dir, tenant, platform);
    var d' := Next(w, Provision(tenant, platform, admin)).dir;
    if admin.Some? {
      if admin.value !in w.dir.homes {
        NewIdentityHas(d1, tenant, admin.value, AdminRoles(platform));
      }
      assert d' == CreateIdentity(d1, tenant, admin.value, AdminRoles(platform));
      hide CreateIdentity;
      SameRolesKept(w.dir, d1, d', tenant, Descriptions(platform));
    }
    hide HasExactly, OthersKept, AssignAll;
  }

  lemma SameRolesKept(d: Directory, d1: Directory, d': Directory, tenant: Uuid, descs: seq<Role>)
    requires HasExactly(d1, tenant, descs) && OthersKept(d, d1, tenant)
    ensures d'.roles == d1.roles ==> HasExactly(d', tenant, descs) && OthersKept(d, d', tenant)
  {
  }

  /** So its administrator starts with every permission that any of its roles conveys. */
  lemma AdministratorHoldsEverything(w: World, tenant: Uuid, platform: bool, admin: Uuid, p: string)
    requires Contained(w) && Exposure.Provisioned(w.dir) && tenant !in w.dir.tenants && admin !in w.dir.homes
    ensures var d' := Next(w, Provision(tenant, platform, Some(admin))).dir;
            p in Held(d', admin) <==> exists role :: Conveys(d', tenant, role, p)
  {
    var d' := Next(w, Provision(tenant, platform, Some(admin))).dir;
    ProvisionedExactly(w, tenant, platform, Some(admin));
    HeldExactly(d', admin, p);
    hide Next, Held, Contained, Exposure.Provisioned;
    if role :| Conveys(d', tenant, role, p) {
      var r := Role(role, d'.roles[(tenant, role)]);
      var i :| 0 <= i < |Descriptions(platform)| && Descriptions(platform)[i] == r;
      var j := AdministratorCovers(platform, i, p);
      hide Descriptions, AdminRoles;
      var name := Descriptions(platform)[j].name;
      assert Descriptions(platform)[j] in Descriptions(platform);
      assert Has(d', admin, name) && Conveys(d', tenant, name, p);
    }
  }

  /** The tenant's management client may request every role's permissions and every cross-tenant one. */
  lemma ManagementExactly(w: World, tenant: Uuid, platform: bool, admin: Option<Uuid>, q: string)
    requires tenant !in w.dir.tenants
    ensures var w' := Next(w, Provision(tenant, platform, admin));
            && w' == w.(dir := w'.dir,
                        clients := w.clients[(tenant, "management") := w'.clients[(tenant, "management")]])
            && (q in w'.clients[(tenant, "management")] <==>
                  q in PLATFORM_SCOPES || q == TENANT_CREATE
                  || exists r :: r in Descriptions(platform) && q in r.permissions)
  {
    hide Descriptions, CreateTenant, PLATFORM_SCOPES;
    RequestedByManagement(Descriptions(platform), q);
    hide ManagementScopes;
  }

  lemma {:induction false} RequestedByManagement(descs: seq<Role>, q: string)
    ensures q in ManagementScopes(descs) <==>
              q in PLATFORM_SCOPES || q == TENANT_CREATE || exists r :: r in descs && q in r.permissions
    decreases |descs|
  {
    hide PLATFORM_SCOPES;
    if descs != [] {
      RequestedByManagement(descs[1..], q);
      assert descs == [descs[0]] + descs[1..];
    }
  }

  // ── Minting ──────────────────────────────────────────────────────────────

  /** A scope that the identity may be granted and its tenant may mint. */
  ghost predicate IsGranted(w: World, identity: Uuid, requireAdminMfa: bool, enrolled: bool, scope: string)
    requires identity in w.dir.homes && w.dir.homes[identity] in w.dir.tenants
  {
    && MayHold(scope, Held(w.dir, identity), requireAdminMfa, enrolled)
    && (w.dir.tenants[w.dir.homes[identity]] || !IsPlatform(scope))
  }

  /** One token is appended. */
  ghost predicate Appends(w: World, w': World, tenant: Uuid, identity: Option<Uuid>) {
    && |w'.tokens| == |w.tokens| + 1 && w'.tokens[..|w.tokens|] == w.tokens
    && w'.tokens[|w.tokens|].tenant == tenant && w'.tokens[|w.tokens|].identity == identity
  }

  /**
   Minting for an identity adds one token and one record, with exactly the granted
   scopes of the request, or nothing when none survives.
   */
  lemma MintedExactly(w: World, identity: Uuid, requested: seq<string>, requireAdminMfa: bool, enrolled: bool)
    ensures var w' := Next(w, MintCode(identity, requested, requireAdminMfa, enrolled));
            && w' == w.(tokens := w'.tokens, records := w'.records)
            && if && identity in w.dir.homes && w.dir.homes[identity] in w.dir.tenants
                  && exists x :: Survives(x, requested, Held(w.dir, identity), requireAdminMfa, enrolled)
               then
                 && Appends(w, w', w.dir.homes[identity], Some(identity))
                 && var scopes := w'.tokens[|w.tokens|].scopes;
                    && Sifted(scopes, requested, x => IsGranted(w, identity, requireAdminMfa, enrolled, x))
                    && w'.records == w.records + [Record(w.dir.homes[identity], identity, scopes)]
               else w' == w
  {
    if identity in w.dir.homes && w.dir.homes[identity] in w.dir.tenants {
      var held, platform := Held(w.dir, identity), w.dir.tenants[w.dir.homes[identity]];
      var narrowed := Permitted(requested, held, requireAdminMfa, enrolled);
      PermittedExactly(requested, held, requireAdminMfa, enrolled);
      if narrowed.Success? {
        NarrowedIsSome(requested, held, requireAdminMfa, enrolled);
        GrantedSifts(w, identity, requested, requireAdminMfa, enrolled);
      }
    }
    hide Held, Permitted, Strip, Sifted, Survives, IsGranted;
  }

  lemma GrantedSifts(w: World, identity: Uuid, requested: seq<string>, requireAdminMfa: bool, enrolled: bool)
    requires identity in w.dir.homes && w.dir.homes[identity] in w.dir.tenants
    requires Permitted(requested, Held(w.dir, identity), requireAdminMfa, enrolled).Success?
    ensures var narrowed := Permitted(requested, Held(w.dir, identity), requireAdminMfa, enrolled).value;
            Sifted(Strip(narrowed, w.dir.tenants[w.dir.homes[identity]]), requested,
                   x => IsGranted(w, identity, requireAdminMfa, enrolled, x))
  {
    var held, platform := Held(w.dir, identity), w.dir.tenants[w.dir.homes[identity]];
    var narrowed := Permitted(requested, held, requireAdminMfa, enrolled).value;
    PermittedSifts(requested, held, requireAdminMfa, enrolled);
    StripSifts(narrowed, platform);
    hide Held, Permitted, Strip, Sifted;
    SiftedTwice(Strip(narrowed, platform), narrowed, requested, x => MayHold(x, held, requireAdminMfa, enrolled),
                x => platform || !IsPlatform(x), x => IsGranted(w, identity, requireAdminMfa, enrolled, x));
  }

  lemma NarrowedIsSome(requested: seq<string>, held: set<string>, requireAdminMfa: bool, enrolled: bool)
    requires Permitted(requested, held, requireAdminMfa, enrolled).Success?
    ensures exists x :: Survives(x, requested, held, requireAdminMfa, enrolled)
  {
    var narrowed := Permitted(requested, held, requireAdminMfa, enrolled).value;
    PermittedExactly(requested, held, requireAdminMfa, enrolled);
    assert narrowed[0] in narrowed;
  }

  /** A refresh mints from the record, as a code with the record's scopes would. */
  lemma RefreshedExactly(w: World, r: nat, requireAdminMfa: bool, enrolled: bool)
    ensures Next(w, MintRefresh(r, requireAdminMfa, enrolled)) ==
            if r < |w.records|
            then Next(w, MintCode(w.records[r].identity, w.records[r].scopes, requireAdminMfa, enrolled)) else w
  {
  }

  /** A client's own token carries exactly what it asked for and may, cross-tenant scopes apart. */
  lemma ClientMintedExactly(w: World, tenant: Uuid, client: string, scope: Option<seq<string>>)
    ensures var w' := Next(w, MintClient(tenant, client, scope));
            if && (tenant, client) in w.clients && tenant in w.dir.tenants
               && (scope.Some? ==> forall x :: x in scope.value ==> x in w.clients[(tenant, client)])
            then
              && Appends(w, w', tenant, None) && w' == w.(tokens := w'.tokens)
              && IsStripped(w'.tokens[|w.tokens|].scopes,
                            if scope.Some? then scope.value else w.clients[(tenant, client)], w.dir.tenants[tenant])
            else w' == w
  {
    if (tenant, client) in w.clients && tenant in w.dir.tenants {
      StripSifts(if scope.Some? then scope.value else w.clients[(tenant, client)], w.dir.tenants[tenant]);
    }
    hide Strip, IsStripped;
  }
}
