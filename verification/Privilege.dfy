/**
 Granting spreads privilege but never creates it: in one tenant, over any run,
 every permission held afterwards is self-service or has a source at the start.
 Tokens obtained with client credentials carry what their client may request, not
 what an identity holds, so a client's allowed scopes are a source of their own
 once such a token is used to grant.
 */
module Privilege {
  import opened Wrappers
  import opened Scopes
  import opened Roles
  import opened Grants

  /** An identity of the tenant. */
  ghost predicate Belongs(d: Directory, identity: Uuid, tenant: Uuid) {
    identity in d.homes && d.homes[identity] == tenant
  }

  ghost predicate Clean(scopes: seq<string>, base: iset<string>) {
    forall p :: p in scopes ==> p in base || IsOidc(p)
  }

  /** Everything held or carried in `tenant` comes from `base`; `machines` says whether client tokens count. */
  ghost predicate Bounded(w: World, tenant: Uuid, base: iset<string>, machines: bool) {
    && DirFits(w.dir) && tenant in w.dir.tenants
    && (forall p :: IsSelfService(p) ==> p in base)
    && (forall i, p :: Belongs(w.dir, i, tenant) && p in Held(w.dir, i) ==> p in base)
    && (forall k :: 0 <= k < |w.tokens| && w.tokens[k].tenant == tenant && (machines || w.tokens[k].identity.Some?) ==>
          Clean(w.tokens[k].scopes, base))
    && (machines ==> forall n :: (tenant, n) in w.clients ==> Clean(w.clients[(tenant, n)], base))
  }

  /** With `machines` off, client tokens do not grant; with it on, the tenant's clients are left as they are. */
  ghost predicate Plays(w: World, a: Action, tenant: Uuid, machines: bool) {
    match a
    case Create(k, _, _) => machines || (k < |w.tokens| && w.tokens[k].tenant == tenant ==> w.tokens[k].identity.Some?)
    case Assign(k, _, _) => machines || (k < |w.tokens| && w.tokens[k].tenant == tenant ==> w.tokens[k].identity.Some?)
    case SetClient(t, _, _) => machines ==> t != tenant
    case _ => true
  }

  ghost predicate AllPlay(w: World, actions: seq<Action>, tenant: Uuid, machines: bool)
    decreases actions
  {
    actions == []
    || (Plays(w, actions[0], tenant, machines) && AllPlay(Next(w, actions[0]), actions[1..], tenant, machines))
  }

  // ── Directory steps ──────────────────────────────────────────────────────

  /** The permissions a role of `tenant` confers all lie in `base`. */
  ghost predicate Confers(d: Directory, tenant: Uuid, role: string, base: iset<string>) {
    (tenant, role) in d.roles ==> forall p :: p in d.roles[(tenant, role)] ==> p in base
  }

  /** New assignments in the tenant confer nothing outside `base`, and its roles are untouched. */
  ghost predicate GrantsWithin(d: Directory, d': Directory, tenant: Uuid, base: iset<string>) {
    && (forall n :: (tenant, n) in d'.roles ==> (tenant, n) in d.roles && d'.roles[(tenant, n)] == d.roles[(tenant, n)])
    && (forall a :: a in d'.assignments && a.tenant == tenant ==>
          a in d.assignments || Confers(d', tenant, a.role, base))
  }

  lemma HeldStaysWithin(d: Directory, d': Directory, tenant: Uuid, base: iset<string>, i: Uuid, p: string)
    requires DirFits(d) && GrantsWithin(d, d', tenant, base)
    requires forall i, p :: Belongs(d, i, tenant) && p in Held(d, i) ==> p in base
    requires Belongs(d', i, tenant) && p in Held(d', i)
    ensures p in base
  {
    var a :| a in d'.assignments && Joins(d', a, i) && p in d'.roles[(a.tenant, a.role)];
    if a in d.assignments {
      assert Anchored(d, a);
      assert Joins(d, a, i);
      assert p in Held(d, i);
    } else {
      assert Confers(d', tenant, a.role, base);
    }
  }

  lemma SelfRoleConfers(d: Directory, tenant: Uuid, base: iset<string>)
    requires DirFits(d) && forall p :: IsSelfService(p) ==> p in base
    ensures Confers(d, tenant, IDENTITY_SELF, base)
  {
  }

  /** A role that a clean token may grant confers nothing new. */
  lemma GrantableConfers(d: Directory, tenant: Uuid, role: string, scopes: seq<string>, base: iset<string>)
    requires DirFits(d) && MayGrant(d, tenant, role, scopes) && Clean(scopes, base)
    ensures Confers(d, tenant, role, base)
  {
    assert RoleFits(d, (tenant, role));
    forall p | p in d.roles[(tenant, role)]
      ensures p in base
    {
      RolePermission(d.tenants[tenant], Role(role, d.roles[(tenant, role)]), p);
      PermissionIsNotOidc(p);
    }
  }

  lemma CreateTenantWithin(d: Directory, t: Uuid, platform: bool, admin: Option<Uuid>, tenant: Uuid, base: iset<string>)
    requires DirFits(d) && tenant in d.tenants && t !in d.tenants
    ensures GrantsWithin(d, CreateTenant(d, t, platform, admin), tenant, base)
  {
    AddRolesShape(d.roles, t, Descriptions(platform));
    var d1 := d.(tenants := d.tenants[t := platform], roles := AddRoles(d.roles, t, Descriptions(platform)));
    if admin.Some? {
      CreateIdentityShape(d1, t, admin.value, AdminRoles(platform));
    }
  }

  /** Creating an identity with roles that confer nothing outside `base` grants within it. */
  lemma CreateIdentityConfers(d: Directory, t: Uuid, identity: Uuid, names: seq<string>, tenant: Uuid,
                              base: iset<string>)
    requires DirFits(d) && forall p :: IsSelfService(p) ==> p in base
    requires t == tenant ==> forall n :: n in names ==> Confers(d, tenant, n, base)
    ensures GrantsWithin(d, CreateIdentity(d, t, identity, names), tenant, base)
  {
    CreateIdentityShape(d, t, identity, names);
    SelfRoleConfers(d, tenant, base);
  }

  lemma CreateIdentityWithin(d: Directory, t: Uuid, identity: Uuid, names: seq<string>, scopes: seq<string>,
                             tenant: Uuid, base: iset<string>)
    requires DirFits(d) && forall p :: IsSelfService(p) ==> p in base
    requires forall n :: n in names ==> MayGrant(d, t, n, scopes)
    requires t == tenant ==> Clean(scopes, base)
    ensures GrantsWithin(d, CreateIdentity(d, t, identity, names), tenant, base)
  {
    if t == tenant {
      forall n | n in names ensures Confers(d, tenant, n, base) {
        GrantableConfers(d, t, n, scopes, base);
      }
    }
    CreateIdentityConfers(d, t, identity, names, tenant, base);
  }

  // ── Tokens ───────────────────────────────────────────────────────────────

  lemma MintedClean(requested: seq<string>, held: set<string>, requireAdminMfa: bool, enrolled: bool, platform: bool,
                    base: iset<string>)
    requires forall p :: p in held ==> p in base
    requires Permitted(requested, held, requireAdminMfa, enrolled).Success?
    ensures Clean(Strip(Permitted(requested, held, requireAdminMfa, enrolled).value, platform), base)
  {
    var granted := Permitted(requested, held, requireAdminMfa, enrolled).value;
    PermittedExactly(requested, held, requireAdminMfa, enrolled);
    forall p | p in Strip(granted, platform)
      ensures p in base || IsOidc(p)
    {
      FilterMembers(granted, s => !IsPlatform(s), p);
      assert Survives(p, requested, held, requireAdminMfa, enrolled);
    }
  }

  lemma MintBounded(w: World, identity: Uuid, requested: seq<string>, requireAdminMfa: bool, enrolled: bool,
                    tenant: Uuid, base: iset<string>, machines: bool)
    requires Bounded(w, tenant, base, machines)
    ensures Bounded(Mint(w, identity, requested, requireAdminMfa, enrolled), tenant, base, machines)
  {
    if Belongs(w.dir, identity, tenant) {
      var held := Held(w.dir, identity);
      assert forall p :: p in held ==> p in base;
      if Permitted(requested, held, requireAdminMfa, enrolled).Success? {
        MintedClean(requested, held, requireAdminMfa, enrolled, w.dir.tenants[tenant], base);
      }
    }
  }

  lemma MintForClientBounded(w: World, t: Uuid, client: string, scope: Option<seq<string>>, tenant: Uuid,
                             base: iset<string>, machines: bool)
    requires Bounded(w, tenant, base, machines)
    ensures Bounded(MintForClient(w, t, client, scope), tenant, base, machines)
  {
    if (t, client) in w.clients && t in w.dir.tenants {
      var scopes := if scope.Some? then scope.value else w.clients[(t, client)];
      forall p | p in Strip(scopes, w.dir.tenants[t])
        ensures p in scopes
      {
        FilterMembers(scopes, s => !IsPlatform(s), p);
      }
    }
  }

  // ── Steps and runs ───────────────────────────────────────────────────────

  /** A step that only changes the directory, within `base`. */
  lemma DirStepBounded(w: World, d': Directory, tenant: Uuid, base: iset<string>, machines: bool)
    requires Bounded(w, tenant, base, machines) && DirFits(d') && tenant in d'.tenants
    requires GrantsWithin(w.dir, d', tenant, base)
    ensures Bounded(w.(dir := d'), tenant, base, machines)
  {
    forall i, p | Belongs(d', i, tenant) && p in Held(d', i)
      ensures p in base
    {
      HeldStaysWithin(w.dir, d', tenant, base, i, p);
    }
  }

  lemma StepBounded(w: World, a: Action, tenant: Uuid, base: iset<string>, machines: bool)
    requires Bounded(w, tenant, base, machines) && Plays(w, a, tenant, machines)
    ensures Bounded(Next(w, a), tenant, base, machines)
  {
    hide Mint, MintForClient, CreateTenant, CreateIdentity, Bounded;
    match a
    case Provision(t, platform, admin) => ProvisionBounded(w, t, platform, admin, tenant, base, machines);
    case SetClient(t, client, allowed) => SetClientBounded(w, t, client, allowed, tenant, base, machines);
    case MintCode(identity, requested, requireAdminMfa, enrolled) =>
      MintBounded(w, identity, requested, requireAdminMfa, enrolled, tenant, base, machines);
    case MintRefresh(r, requireAdminMfa, enrolled) =>
      if r < |w.records| {
        MintBounded(w, w.records[r].identity, w.records[r].scopes, requireAdminMfa, enrolled, tenant, base, machines);
      }
    case MintClient(t, client, scope) => MintForClientBounded(w, t, client, scope, tenant, base, machines);
    case Create(k, identity, names) => CreateBounded(w, k, identity, names, tenant, base, machines);
    case Assign(k, identity, role) => AssignBounded(w, k, identity, role, tenant, base, machines);
    case Unassign(k, identity, role) => UnassignBounded(w, k, identity, role, tenant, base, machines);
  }

  lemma ProvisionBounded(w: World, t: Uuid, platform: bool, admin: Option<Uuid>, tenant: Uuid, base: iset<string>,
                         machines: bool)
    requires Bounded(w, tenant, base, machines)
    ensures Bounded(Next(w, Provision(t, platform, admin)), tenant, base, machines)
  {
    if t !in w.dir.tenants {
      CreateTenantFits(w.dir, t, platform, admin);
      CreateTenantWithin(w.dir, t, platform, admin, tenant, base);
      DirStepBounded(w, CreateTenant(w.dir, t, platform, admin), tenant, base, machines);
    }
  }

  lemma SetClientBounded(w: World, t: Uuid, client: string, allowed: seq<string>, tenant: Uuid, base: iset<string>,
                         machines: bool)
    requires Bounded(w, tenant, base, machines) && (machines ==> t != tenant)
    ensures Bounded(Next(w, SetClient(t, client, allowed)), tenant, base, machines)
  {
  }

  lemma CreateBounded(w: World, k: nat, identity: Uuid, names: seq<string>, tenant: Uuid, base: iset<string>,
                      machines: bool)
    requires Bounded(w, tenant, base, machines) && Plays(w, Create(k, identity, names), tenant, machines)
    ensures Bounded(Next(w, Create(k, identity, names)), tenant, base, machines)
  {
    if k < |w.tokens| && forall n :: n in names ==> MayGrant(w.dir, w.tokens[k].tenant, n, w.tokens[k].scopes) {
      var t := w.tokens[k].tenant;
      CreateIdentityShape(w.dir, t, identity, names);
      GrowthFits(w.dir, CreateIdentity(w.dir, t, identity, names));
      CreateIdentityWithin(w.dir, t, identity, names, w.tokens[k].scopes, tenant, base);
      DirStepBounded(w, CreateIdentity(w.dir, t, identity, names), tenant, base, machines);
    }
  }

  lemma AssignBounded(w: World, k: nat, identity: Uuid, role: string, tenant: Uuid, base: iset<string>, machines: bool)
    requires Bounded(w, tenant, base, machines) && Plays(w, Assign(k, identity, role), tenant, machines)
    ensures Bounded(Next(w, Assign(k, identity, role)), tenant, base, machines)
  {
    if k < |w.tokens| && MayGrant(w.dir, w.tokens[k].tenant, role, w.tokens[k].scopes) {
      var t := w.tokens[k].tenant;
      var d' := AssignRole(w.dir, t, identity, role);
      GrowthFits(w.dir, d');
      if t == tenant {
        GrantableConfers(w.dir, t, role, w.tokens[k].scopes, base);
      }
      DirStepBounded(w, d', tenant, base, machines);
    }
  }

  lemma UnassignBounded(w: World, k: nat, identity: Uuid, role: string, tenant: Uuid, base: iset<string>,
                        machines: bool)
    requires Bounded(w, tenant, base, machines)
    ensures Bounded(Next(w, Unassign(k, identity, role)), tenant, base, machines)
  {
    var d' := Next(w, Unassign(k, identity, role)).dir;
    GrowthFits(w.dir, d');
    DirStepBounded(w, d', tenant, base, machines);
  }

  lemma {:induction false} RunBounded(w: World, actions: seq<Action>, tenant: Uuid, base: iset<string>, machines: bool)
    requires Bounded(w, tenant, base, machines) && AllPlay(w, actions, tenant, machines)
    ensures Bounded(Run(w, actions), tenant, base, machines)
    decreases actions
  {
    if actions != [] {
      StepBounded(w, actions[0], tenant, base, machines);
      RunBounded(Next(w, actions[0]), actions[1..], tenant, base, machines);
    }
  }

  // ── The theorem ──────────────────────────────────────────────────────────

  /** `p` is self-service, or someone in the tenant holds it, or a token already issued carries it. */
  ghost predicate HasSource(w: World, tenant: Uuid, machines: bool, p: string) {
    || IsSelfService(p)
    || (exists i :: Belongs(w.dir, i, tenant) && p in Held(w.dir, i))
    || (exists k :: 0 <= k < |w.tokens| && w.tokens[k].tenant == tenant && (machines || w.tokens[k].identity.Some?)
                    && p in w.tokens[k].scopes)
    || (machines && exists n :: (tenant, n) in w.clients && p in w.clients[(tenant, n)])
  }

  ghost function Sources(w: World, tenant: Uuid, machines: bool): iset<string> {
    iset p | HasSource(w, tenant, machines, p)
  }

  lemma SourcesBound(w: World, tenant: Uuid, machines: bool)
    requires DirFits(w.dir) && tenant in w.dir.tenants
    ensures Bounded(w, tenant, Sources(w, tenant, machines), machines)
  {
  }

  lemma FromFittingState(w: World, actions: seq<Action>, tenant: Uuid, machines: bool, identity: Uuid, p: string)
    requires DirFits(w.dir) && tenant in w.dir.tenants && AllPlay(w, actions, tenant, machines)
    requires var w' := Run(w, actions); Belongs(w'.dir, identity, tenant) && p in Held(w'.dir, identity)
    ensures HasSource(w, tenant, machines, p)
  {
    hide Run, AllPlay;
    SourcesBound(w, tenant, machines);
    RunBounded(w, actions, tenant, Sources(w, tenant, machines), machines);
    assert p in Sources(w, tenant, machines);
  }

  /**
   Take any reachable state and any run from it. Every permission held in the
   tenant afterwards had a source before: with identity-bearing granters only, an
   identity that held it or a live token; if client tokens may grant too, also a
   client that may request it.
   */
  lemma GrantingCreatesNothing(w: World, before: seq<Action>, after: seq<Action>, tenant: Uuid, machines: bool,
                               identity: Uuid, p: string)
    requires IsInitial(w)
    requires var w1 := Run(w, before); tenant in w1.dir.tenants && AllPlay(w1, after, tenant, machines)
    requires var w2 := Run(Run(w, before), after); Belongs(w2.dir, identity, tenant) && p in Held(w2.dir, identity)
    ensures HasSource(Run(w, before), tenant, machines, p)
  {
    hide AllPlay;
    RunContained(w, before);
    FromFittingState(Run(w, before), after, tenant, machines, identity, p);
  }

  /** From a state without live tokens: held by someone before, or self-service. */
  lemma PrivilegeIsConserved(w: World, before: seq<Action>, after: seq<Action>, tenant: Uuid, identity: Uuid, p: string)
    requires IsInitial(w)
    requires var w1 := Run(w, before).(tokens := [], records := []);
             tenant in w1.dir.tenants && AllPlay(w1, after, tenant, false)
    requires var w2 := Run(Run(w, before).(tokens := [], records := []), after);
             Belongs(w2.dir, identity, tenant) && p in Held(w2.dir, identity)
    ensures IsSelfService(p) || exists i :: Belongs(Run(w, before).dir, i, tenant) && p in Held(Run(w, before).dir, i)
  {
    hide AllPlay;
    RunContained(w, before);
    var w1 := Run(w, before).(tokens := [], records := []);
    FromFittingState(w1, after, tenant, false, identity, p);
    assert HasSource(w1, tenant, false, p);
  }
}
