/**
 Roles as they spread: tenant provisioning, token minting, identity creation and
 role assignment over whole runs. Tokens never expire here and role removal does
 not recall them, which only makes the two theorems stronger: no cross-tenant
 permission ever leaves the platform tenant, and granting spreads privilege but
 does not create it.
 */
module Grants {
  import opened Wrappers
  import opened Scopes
  import opened Roles

  type Uuid = nat

  datatype Assignment = Assignment(identity: Uuid, tenant: Uuid, role: string)

  /** `tenants` maps each tenant to whether it is the platform tenant, `homes` each identity to its tenant. */
  datatype Directory = Directory(
    tenants: map<Uuid, bool>,
    roles: map<(Uuid, string), seq<string>>,
    homes: map<Uuid, Uuid>,
    assignments: set<Assignment>)

  /** An access token; one without an identity came from the client-credentials grant. */
  datatype Token = Token(tenant: Uuid, identity: Option<Uuid>, scopes: seq<string>)

  datatype Record = Record(tenant: Uuid, identity: Uuid, scopes: seq<string>)

  datatype World = World(
    dir: Directory, clients: map<(Uuid, string), seq<string>>, tokens: seq<Token>, records: seq<Record>)

  predicate IsInitial(w: World) {
    w == World(Directory(map[], map[], map[], {}), map[], [], [])
  }

  // ── The authorization store ──────────────────────────────────────────────

  /** The joins of the permission query: identity, role and assignment agree on the tenant. */
  predicate Joins(d: Directory, a: Assignment, identity: Uuid) {
    && a in d.assignments && a.identity == identity
    && identity in d.homes && d.homes[identity] == a.tenant && (a.tenant, a.role) in d.roles
  }

  function Held(d: Directory, identity: Uuid): set<string> {
    set a, p | a in d.assignments && Joins(d, a, identity) && p in d.roles[(a.tenant, a.role)] :: p
  }

  predicate CanAssign(d: Directory, tenant: Uuid, identity: Uuid, role: string) {
    (tenant, role) in d.roles && identity in d.homes && d.homes[identity] == tenant
  }

  function AssignRole(d: Directory, tenant: Uuid, identity: Uuid, role: string): Directory {
    if CanAssign(d, tenant, identity, role)
    then d.(assignments := d.assignments + {Assignment(identity, tenant, role)})
    else d
  }

  /** Assigns in order and stops at the first failure. */
  function AssignAll(d: Directory, tenant: Uuid, identity: Uuid, names: seq<string>): Directory
    decreases |names|
  {
    if names == [] || !CanAssign(d, tenant, identity, names[0]) then d
    else AssignAll(AssignRole(d, tenant, identity, names[0]), tenant, identity, names[1..])
  }

  function AddRoles(roles: map<(Uuid, string), seq<string>>, tenant: Uuid, descs: seq<Role>)
    : map<(Uuid, string), seq<string>>
    decreases |descs|
  {
    if descs == [] then roles
    else AddRoles(roles[(tenant, descs[0].name) := descs[0].permissions], tenant, descs[1..])
  }

  function Descriptions(platform: bool): seq<Role> {
    if platform then TENANT_ROLES + PLATFORM_ROLES else TENANT_ROLES
  }

  function AdminRoles(platform: bool): seq<string> {
    [IDENTITY_ADMIN, TENANT_ADMIN, CLIENT_ADMIN] + if platform then [TENANT_CREATOR, PLATFORM_ADMIN] else []
  }

  /** What the auto-provisioned management client may request, on every tenant. */
  function ManagementScopes(descs: seq<Role>): seq<string>
    decreases |descs|
  {
    if descs == [] then PLATFORM_SCOPES + [TENANT_CREATE] else descs[0].permissions + ManagementScopes(descs[1..])
  }

  function CreateIdentity(d: Directory, tenant: Uuid, identity: Uuid, names: seq<string>): Directory {
    if identity in d.homes then d
    else AssignAll(d.(homes := d.homes[identity := tenant]), tenant, identity, [IDENTITY_SELF] + names)
  }

  function CreateTenant(d: Directory, tenant: Uuid, platform: bool, admin: Option<Uuid>): Directory {
    if tenant in d.tenants then d
    else
      var d1 := d.(tenants := d.tenants[tenant := platform],
                   roles := AddRoles(d.roles, tenant, Descriptions(platform)));
      if admin.Some? then CreateIdentity(d1, tenant, admin.value, AdminRoles(platform)) else d1
  }

  // ── Granting ─────────────────────────────────────────────────────────────

  /** The granter must hold, in its token, every permission that the role confers. */
  predicate MayGrant(d: Directory, tenant: Uuid, role: string, scopes: seq<string>) {
    (tenant, role) in d.roles && forall p :: p in d.roles[(tenant, role)] ==> p in scopes
  }

  datatype Action =
    | Provision(tenant: Uuid, platform: bool, admin: Option<Uuid>)
    | SetClient(tenant: Uuid, client: string, allowed: seq<string>)
    | MintCode(identity: Uuid, requested: seq<string>, requireAdminMfa: bool, enrolled: bool)
    | MintRefresh(record: nat, requireAdminMfa: bool, enrolled: bool)
    | MintClient(tenant: Uuid, client: string, scope: Option<seq<string>>)
    | Create(token: nat, identity: Uuid, names: seq<string>)
    | Assign(token: nat, identity: Uuid, role: string)
    | Unassign(token: nat, identity: Uuid, role: string)

  /** Narrowing, then stripping, then both the token and the refresh record. */
  function Mint(w: World, identity: Uuid, requested: seq<string>, requireAdminMfa: bool, enrolled: bool): World {
    if identity !in w.dir.homes || w.dir.homes[identity] !in w.dir.tenants then w
    else
      var tenant := w.dir.homes[identity];
      match Permitted(requested, Held(w.dir, identity), requireAdminMfa, enrolled)
      case Failure(_) => w
      case Success(granted) =>
        var scopes := Strip(granted, w.dir.tenants[tenant]);
        w.(tokens := w.tokens + [Token(tenant, Some(identity), scopes)],
           records := w.records + [Record(tenant, identity, scopes)])
  }

  function MintForClient(w: World, tenant: Uuid, client: string, scope: Option<seq<string>>): World {
    if (tenant, client) !in w.clients || tenant !in w.dir.tenants then w
    else
      var allowed := w.clients[(tenant, client)];
      if scope.Some? && exists x :: x in scope.value && x !in allowed then w
      else
        var scopes := Strip(if scope.Some? then scope.value else allowed, w.dir.tenants[tenant]);
        w.(tokens := w.tokens + [Token(tenant, None, scopes)])
  }

  function Next(w: World, a: Action): World {
    match a
    case Provision(tenant, platform, admin) =>
      if tenant in w.dir.tenants then w
      else w.(dir := CreateTenant(w.dir, tenant, platform, admin),
              clients := w.clients[(tenant, "management") := ManagementScopes(Descriptions(platform))])
    case SetClient(tenant, client, allowed) => w.(clients := w.clients[(tenant, client) := allowed])
    case MintCode(identity, requested, requireAdminMfa, enrolled) =>
      Mint(w, identity, requested, requireAdminMfa, enrolled)
    case MintRefresh(r, requireAdminMfa, enrolled) =>
      if r >= |w.records| then w else Mint(w, w.records[r].identity, w.records[r].scopes, requireAdminMfa, enrolled)
    case MintClient(tenant, client, scope) => MintForClient(w, tenant, client, scope)
    case Create(k, identity, names) =>
      if k >= |w.tokens| || IDENTITY_CREATE !in w.tokens[k].scopes then w
      else if exists n :: n in names && !MayGrant(w.dir, w.tokens[k].tenant, n, w.tokens[k].scopes) then w
      else w.(dir := CreateIdentity(w.dir, w.tokens[k].tenant, identity, names))
    case Assign(k, identity, role) =>
      if k >= |w.tokens| || IDENTITY_UPDATE !in w.tokens[k].scopes then w
      else if !MayGrant(w.dir, w.tokens[k].tenant, role, w.tokens[k].scopes) then w
      else w.(dir := AssignRole(w.dir, w.tokens[k].tenant, identity, role))
    case Unassign(k, identity, role) =>
      if k >= |w.tokens| || IDENTITY_UPDATE !in w.tokens[k].scopes || role == IDENTITY_SELF then w
      else if !MayGrant(w.dir, w.tokens[k].tenant, role, w.tokens[k].scopes) then w
      else if !CanAssign(w.dir, w.tokens[k].tenant, identity, role) then w
      else w.(dir := w.dir.(assignments := w.dir.assignments - {Assignment(identity, w.tokens[k].tenant, role)}))
  }

  function Run(w: World, actions: seq<Action>): World
    decreases actions
  {
    if actions == [] then w else Run(Next(w, actions[0]), actions[1..])
  }

  // ── Shapes of the directory ──────────────────────────────────────────────

  /** Every role is one that provisioning gives its tenant. */
  ghost predicate RoleFits(d: Directory, key: (Uuid, string)) {
    && key in d.roles && key.0 in d.tenants
    && Role(key.1, d.roles[key]) in Descriptions(d.tenants[key.0])
  }

  /** Every assignment is of a tenant's own role to a tenant's own identity. */
  ghost predicate Anchored(d: Directory, a: Assignment) {
    CanAssign(d, a.tenant, a.identity, a.role)
  }

  ghost predicate DirFits(d: Directory) {
    && (forall key :: key in d.roles ==> RoleFits(d, key))
    && (forall a :: a in d.assignments ==> Anchored(d, a))
  }

  /** Everything but assignments is the same. */
  ghost predicate SameButAssigned(d: Directory, d': Directory) {
    d'.tenants == d.tenants && d'.roles == d.roles && d'.homes == d.homes
  }

  lemma {:induction false} AssignAllShape(d: Directory, tenant: Uuid, identity: Uuid, names: seq<string>)
    ensures var d' := AssignAll(d, tenant, identity, names);
            && SameButAssigned(d, d')
            && forall a :: a in d'.assignments ==>
                 || a in d.assignments
                 || (a.identity == identity && a.tenant == tenant && a.role in names && Anchored(d', a))
    decreases |names|
  {
    if names != [] && CanAssign(d, tenant, identity, names[0]) {
      AssignAllShape(AssignRole(d, tenant, identity, names[0]), tenant, identity, names[1..]);
    }
  }

  lemma {:induction false} AddRolesShape(roles: map<(Uuid, string), seq<string>>, tenant: Uuid, descs: seq<Role>)
    ensures var roles' := AddRoles(roles, tenant, descs);
            && (forall k :: k in roles && k.0 != tenant ==> k in roles' && roles'[k] == roles[k])
            && (forall k :: k in roles' && k.0 != tenant ==> k in roles)
            && (forall k :: k in roles' && k.0 == tenant ==>
                  Role(k.1, roles'[k]) in descs || (k in roles && roles'[k] == roles[k]))
    decreases |descs|
  {
    if descs != [] {
      AddRolesShape(roles[(tenant, descs[0].name) := descs[0].permissions], tenant, descs[1..]);
    }
  }

  lemma CreateIdentityShape(d: Directory, tenant: Uuid, identity: Uuid, names: seq<string>)
    ensures var d' := CreateIdentity(d, tenant, identity, names);
            && d'.tenants == d.tenants && d'.roles == d.roles
            && (d'.homes == d.homes || (identity !in d.homes && d'.homes == d.homes[identity := tenant]))
            && forall a :: a in d'.assignments ==>
                 a in d.assignments
                 || (a.identity == identity && a.tenant == tenant && (a.role == IDENTITY_SELF || a.role in names)
                     && Anchored(d', a))
  {
    if identity !in d.homes {
      AssignAllShape(d.(homes := d.homes[identity := tenant]), tenant, identity, [IDENTITY_SELF] + names);
    }
  }

  /** A directory that only gained identities and anchored assignments still fits. */
  lemma GrowthFits(d: Directory, d': Directory)
    requires DirFits(d) && d'.tenants == d.tenants && d'.roles == d.roles
    requires forall i :: i in d.homes ==> i in d'.homes && d'.homes[i] == d.homes[i]
    requires forall a :: a in d'.assignments ==> a in d.assignments || Anchored(d', a)
    ensures DirFits(d')
  {
  }

  lemma CreateTenantFits(d: Directory, tenant: Uuid, platform: bool, admin: Option<Uuid>)
    requires DirFits(d)
    ensures DirFits(CreateTenant(d, tenant, platform, admin))
    ensures forall t :: t in d.tenants ==>
              t in CreateTenant(d, tenant, platform, admin).tenants
              && CreateTenant(d, tenant, platform, admin).tenants[t] == d.tenants[t]
  {
    if tenant !in d.tenants {
      AddRolesShape(d.roles, tenant, Descriptions(platform));
      var d1 := d.(tenants := d.tenants[tenant := platform],
                   roles := AddRoles(d.roles, tenant, Descriptions(platform)));
      forall key | key in d1.roles
        ensures RoleFits(d1, key)
      {
        assert key.0 != tenant ==> RoleFits(d, key);
        assert key in d.roles ==> RoleFits(d, key);
      }
      forall a | a in d1.assignments
        ensures Anchored(d1, a)
      {
        assert Anchored(d, a) && RoleFits(d, (a.tenant, a.role));
      }
      if admin.Some? {
        CreateIdentityShape(d1, tenant, admin.value, AdminRoles(platform));
        GrowthFits(d1, CreateTenant(d, tenant, platform, admin));
      }
    }
  }

  /**
   Exactly what an assignment changes: the identity gains the role's permissions
   when the token may grant it, and nothing otherwise. The token's identity plays
   no part, so a client token grants like any other.
   */
  lemma AssignExactly(w: World, k: nat, identity: Uuid, role: string, i: Uuid, p: string)
    requires k < |w.tokens|
    ensures var token := w.tokens[k];
            p in Held(Next(w, Assign(k, identity, role)).dir, i) <==>
              || p in Held(w.dir, i)
              || (&& i == identity && IDENTITY_UPDATE in token.scopes
                  && MayGrant(w.dir, token.tenant, role, token.scopes)
                  && CanAssign(w.dir, token.tenant, identity, role) && p in w.dir.roles[(token.tenant, role)])
  {
  }

  // ── Platform containment ─────────────────────────────────────────────────

  ghost predicate Confined(d: Directory, tenant: Uuid, scopes: seq<string>) {
    tenant in d.tenants && (!d.tenants[tenant] ==> forall p :: p in scopes ==> !IsPlatform(p))
  }

  ghost predicate Contained(w: World) {
    && DirFits(w.dir)
    && (forall k :: 0 <= k < |w.tokens| ==> Confined(w.dir, w.tokens[k].tenant, w.tokens[k].scopes))
    && (forall r :: 0 <= r < |w.records| ==> Confined(w.dir, w.records[r].tenant, w.records[r].scopes))
  }

  lemma StripConfines(d: Directory, tenant: Uuid, scopes: seq<string>)
    requires tenant in d.tenants
    ensures Confined(d, tenant, Strip(scopes, d.tenants[tenant]))
  {
    if !d.tenants[tenant] {
      forall p | p in Strip(scopes, false)
        ensures !IsPlatform(p)
      {
        FilterMembers(scopes, s => !IsPlatform(s), p);
      }
    }
  }

  lemma MintContained(w: World, identity: Uuid, requested: seq<string>, requireAdminMfa: bool, enrolled: bool)
    requires Contained(w)
    ensures Contained(Mint(w, identity, requested, requireAdminMfa, enrolled))
  {
    if identity in w.dir.homes && w.dir.homes[identity] in w.dir.tenants {
      var granted := Permitted(requested, Held(w.dir, identity), requireAdminMfa, enrolled);
      if granted.Success? {
        StripConfines(w.dir, w.dir.homes[identity], granted.value);
      }
    }
  }

  lemma MintForClientContained(w: World, tenant: Uuid, client: string, scope: Option<seq<string>>)
    requires Contained(w)
    ensures Contained(MintForClient(w, tenant, client, scope))
  {
    if (tenant, client) in w.clients && tenant in w.dir.tenants {
      StripConfines(w.dir, tenant, if scope.Some? then scope.value else w.clients[(tenant, client)]);
    }
  }

  lemma StepContained(w: World, a: Action)
    requires Contained(w)
    ensures Contained(Next(w, a))
  {
    hide Mint, MintForClient, CreateTenant, CreateIdentity, Contained;
    match a
    case Provision(tenant, platform, admin) =>
      ContainedMeans(w);
      CreateTenantFits(w.dir, tenant, platform, admin);
      DirectoryContained(w, Next(w, a));
    case SetClient(_, _, _) =>
      ContainedMeans(w);
      DirectoryContained(w, Next(w, a));
    case MintCode(identity, requested, requireAdminMfa, enrolled) =>
      MintContained(w, identity, requested, requireAdminMfa, enrolled);
    case MintRefresh(r, requireAdminMfa, enrolled) =>
      if r < |w.records| {
        MintContained(w, w.records[r].identity, w.records[r].scopes, requireAdminMfa, enrolled);
      }
    case MintClient(tenant, client, scope) => MintForClientContained(w, tenant, client, scope);
    case _ => GrantContained(w, a);
  }

  lemma GrantContained(w: World, a: Action)
    requires Contained(w) && (a.Create? || a.Assign? || a.Unassign?)
    ensures Contained(Next(w, a))
  {
    hide CreateIdentity, Contained, DirFits;
    ContainedMeans(w);
    if a.Create? && a.token < |w.tokens| {
      CreateIdentityShape(w.dir, w.tokens[a.token].tenant, a.identity, a.names);
    }
    GrowthFits(w.dir, Next(w, a).dir);
    DirectoryContained(w, Next(w, a));
  }

  lemma ContainedMeans(w: World)
    requires Contained(w)
    ensures DirFits(w.dir)
  {
  }

  /** Tokens and records stay confined when no tenant changes its kind. */
  lemma DirectoryContained(w: World, w': World)
    requires Contained(w) && w'.tokens == w.tokens && w'.records == w.records && DirFits(w'.dir)
    requires forall t :: t in w.dir.tenants ==> t in w'.dir.tenants && w'.dir.tenants[t] == w.dir.tenants[t]
    ensures Contained(w')
  {
    hide DirFits;
  }

  lemma {:induction false} RunContained(w: World, actions: seq<Action>)
    requires Contained(w)
    ensures Contained(Run(w, actions))
    decreases actions
  {
    if actions != [] {
      StepContained(w, actions[0]);
      RunContained(Next(w, actions[0]), actions[1..]);
    }
  }

  /** Whoever holds a permission holds it through a role of their own tenant, and it is a permission key. */
  lemma HeldFits(d: Directory, identity: Uuid, p: string)
    requires DirFits(d) && p in Held(d, identity)
    ensures identity in d.homes && d.homes[identity] in d.tenants
    ensures !d.tenants[d.homes[identity]] ==> !IsPlatform(p)
    ensures IsPermissionKey(p)
  {
    var a :| a in d.assignments && Joins(d, a, identity) && p in d.roles[(a.tenant, a.role)];
    assert RoleFits(d, (a.tenant, a.role));
    RolePermission(d.tenants[a.tenant], Role(a.role, d.roles[(a.tenant, a.role)]), p);
  }

  lemma RolePermission(platform: bool, r: Role, p: string)
    requires r in Descriptions(platform) && p in r.permissions
    ensures IsPermissionKey(p) && (!platform ==> !IsPlatform(p))
  {
    var i :| 0 <= i < |Descriptions(platform)| && Descriptions(platform)[i] == r;
    if i < |TENANT_ROLES| {
      TenantRolesAreLocal(i);
    } else {
      PlatformRolesAreGlobal(i - |TENANT_ROLES|);
    }
  }

  /**
   In no run does an identity of an ordinary tenant hold a cross-tenant permission,
   nor does any access token or refresh record of such a tenant carry one, whatever
   the grant and whatever its clients may request.
   */
  lemma PlatformIsContained(w: World, actions: seq<Action>, tenant: Uuid)
    requires IsInitial(w)
    requires var w' := Run(w, actions); tenant in w'.dir.tenants && !w'.dir.tenants[tenant]
    ensures var w' := Run(w, actions);
            && (forall i, p :: i in w'.dir.homes && w'.dir.homes[i] == tenant && p in Held(w'.dir, i) ==>
                  !IsPlatform(p))
            && (forall k, p :: 0 <= k < |w'.tokens| && w'.tokens[k].tenant == tenant && p in w'.tokens[k].scopes ==>
                  !IsPlatform(p))
            && (forall r, p :: 0 <= r < |w'.records| && w'.records[r].tenant == tenant && p in w'.records[r].scopes ==>
                  !IsPlatform(p))
  {
    RunContained(w, actions);
    var w' := Run(w, actions);
    forall i, p | i in w'.dir.homes && w'.dir.homes[i] == tenant && p in Held(w'.dir, i)
      ensures !IsPlatform(p)
    {
      HeldFits(w'.dir, i, p);
    }
    forall k, p | 0 <= k < |w'.tokens| && w'.tokens[k].tenant == tenant && p in w'.tokens[k].scopes
      ensures !IsPlatform(p)
    {
      assert Confined(w'.dir, w'.tokens[k].tenant, w'.tokens[k].scopes);
    }
    forall r, p | 0 <= r < |w'.records| && w'.records[r].tenant == tenant && p in w'.records[r].scopes
      ensures !IsPlatform(p)
    {
      assert Confined(w'.dir, w'.records[r].tenant, w'.records[r].scopes);
    }
  }
}
