/**
 When client tokens create privilege. A token from the client-credentials grant
 carries what its client may request, and granting looks only at what the token
 carries. Exactly which clients and roles let a permission come into being that
 nobody in the tenant held is told here, for every reachable state.
 */
module Exposure {
  import opened Wrappers
  import opened Scopes
  import opened Roles
  import opened Grants
  import opened Privilege

  /** A token that the client obtains may carry `p`. */
  ghost predicate MayRequest(w: World, tenant: Uuid, client: string, p: string) {
    && (tenant, client) in w.clients && tenant in w.dir.tenants
    && p in Strip(w.clients[(tenant, client)], w.dir.tenants[tenant])
  }

  /** The tenant has an identity, or a client that may create one. */
  ghost predicate Peopled(w: World, tenant: Uuid) {
    (exists i :: Belongs(w.dir, i, tenant)) || (exists n :: MayRequest(w, tenant, n, IDENTITY_CREATE))
  }

  /**
   The client may request everything that a role conferring `p` confers, and either
   the right to create identities, or the right to update them in a tenant that has
   one or can be given one.
   */
  ghost predicate Exposes(w: World, tenant: Uuid, client: string, role: string, p: string) {
    && (tenant, role) in w.dir.roles && p in w.dir.roles[(tenant, role)]
    && (forall q :: q in w.dir.roles[(tenant, role)] ==> MayRequest(w, tenant, client, q))
    && (|| MayRequest(w, tenant, client, IDENTITY_CREATE)
        || (MayRequest(w, tenant, client, IDENTITY_UPDATE) && Peopled(w, tenant)))
  }

  ghost predicate IsExposed(w: World, tenant: Uuid, p: string) {
    exists n, r :: Exposes(w, tenant, n, r, p)
  }

  /** Not self-service, and held by nobody in the tenant. */
  ghost predicate IsNew(w: World, tenant: Uuid, p: string) {
    !IsSelfService(p) && forall i :: Belongs(w.dir, i, tenant) ==> p !in Held(w.dir, i)
  }

  /** The run leaves the tenant's clients as they are and makes one of its identities hold `p`. */
  ghost predicate Gains(w: World, actions: seq<Action>, tenant: Uuid, identity: Uuid, p: string) {
    && AllPlay(w, actions, tenant, true)
    && Belongs(Run(w, actions).dir, identity, tenant) && p in Held(Run(w, actions).dir, identity)
  }

  ghost predicate CanGain(w: World, tenant: Uuid, p: string) {
    exists actions, i :: Gains(w, actions, tenant, i, p)
  }

  // ── Without exposure nothing new comes into being ────────────────────────

  ghost predicate Differs(q: string, p: string) { q != p }

  ghost function AllBut(p: string): iset<string> { iset q | Differs(q, p) }

  ghost predicate Carries(w: World, tenant: Uuid, client: string, scopes: seq<string>) {
    forall q :: q in scopes ==> MayRequest(w, tenant, client, q)
  }

  /** The token came from a client of the start, or belongs to an identity. */
  ghost predicate Sourced(start: World, tenant: Uuid, token: Token) {
    if token.identity.None? then exists n :: Carries(start, tenant, n, token.scopes) else Peopled(start, tenant)
  }

  /** The tenant's roles, clients and kind are those of the start. */
  ghost predicate Settled(w: World, start: World, tenant: Uuid) {
    && tenant in w.dir.tenants && tenant in start.dir.tenants && w.dir.tenants[tenant] == start.dir.tenants[tenant]
    && (forall n :: (tenant, n) in w.clients ==>
          (tenant, n) in start.clients && start.clients[(tenant, n)] == w.clients[(tenant, n)])
    && (forall r :: (tenant, r) in w.dir.roles ==>
          (tenant, r) in start.dir.roles && start.dir.roles[(tenant, r)] == w.dir.roles[(tenant, r)])
  }

  ghost predicate Guarded(w: World, start: World, tenant: Uuid, p: string) {
    && Bounded(w, tenant, AllBut(p), false) && Settled(w, start, tenant)
    && (forall k :: 0 <= k < |w.tokens| && w.tokens[k].tenant == tenant ==> Sourced(start, tenant, w.tokens[k]))
    && (forall i :: Belongs(w.dir, i, tenant) ==> Peopled(start, tenant))
  }

  /** A client token that can grant a role conferring `p` shows that `p` was exposed from the start. */
  lemma GrantExposes(w: World, start: World, tenant: Uuid, p: string, k: nat, role: string)
    requires Guarded(w, start, tenant, p)
    requires k < |w.tokens| && w.tokens[k].tenant == tenant && w.tokens[k].identity.None?
    requires MayGrant(w.dir, tenant, role, w.tokens[k].scopes) && p in w.dir.roles[(tenant, role)]
    requires || IDENTITY_CREATE in w.tokens[k].scopes
             || (IDENTITY_UPDATE in w.tokens[k].scopes && exists i :: Belongs(w.dir, i, tenant))
    ensures IsExposed(start, tenant, p)
  {
    var n :| Carries(start, tenant, n, w.tokens[k].scopes);
    assert Exposes(start, tenant, n, role, p);
  }

  /** A client token of the tenant can grant no role that confers `p`. */
  lemma RoleIsSafe(w: World, start: World, tenant: Uuid, p: string, k: nat, role: string)
    requires Guarded(w, start, tenant, p) && !IsExposed(start, tenant, p)
    requires k < |w.tokens| && w.tokens[k].tenant == tenant && w.tokens[k].identity.None?
    requires MayGrant(w.dir, tenant, role, w.tokens[k].scopes)
    requires || IDENTITY_CREATE in w.tokens[k].scopes
             || (IDENTITY_UPDATE in w.tokens[k].scopes && exists i :: Belongs(w.dir, i, tenant))
    ensures Confers(w.dir, tenant, role, AllBut(p))
  {
    if p in w.dir.roles[(tenant, role)] {
      GrantExposes(w, start, tenant, p, k, role);
    }
  }

  lemma CreateIsSafe(w: World, start: World, tenant: Uuid, p: string, k: nat, identity: Uuid, names: seq<string>)
    requires Guarded(w, start, tenant, p) && !IsExposed(start, tenant, p)
    requires k < |w.tokens| && w.tokens[k].tenant == tenant && w.tokens[k].identity.None?
    ensures Bounded(Next(w, Create(k, identity, names)), tenant, AllBut(p), false)
  {
    var token := w.tokens[k];
    if IDENTITY_CREATE in token.scopes && forall n :: n in names ==> MayGrant(w.dir, tenant, n, token.scopes) {
      forall n | n in names ensures Confers(w.dir, tenant, n, AllBut(p)) {
        RoleIsSafe(w, start, tenant, p, k, n);
      }
      var d' := CreateIdentity(w.dir, tenant, identity, names);
      CreateIdentityShape(w.dir, tenant, identity, names);
      GrowthFits(w.dir, d');
      CreateIdentityConfers(w.dir, tenant, identity, names, tenant, AllBut(p));
      DirStepBounded(w, d', tenant, AllBut(p), false);
    }
  }

  lemma AssignIsSafe(w: World, start: World, tenant: Uuid, p: string, k: nat, identity: Uuid, role: string)
    requires Guarded(w, start, tenant, p) && !IsExposed(start, tenant, p)
    requires k < |w.tokens| && w.tokens[k].tenant == tenant && w.tokens[k].identity.None?
    ensures Bounded(Next(w, Assign(k, identity, role)), tenant, AllBut(p), false)
  {
    var token := w.tokens[k];
    var d' := AssignRole(w.dir, tenant, identity, role);
    if && IDENTITY_UPDATE in token.scopes && MayGrant(w.dir, tenant, role, token.scopes)
       && CanAssign(w.dir, tenant, identity, role) {
      assert Belongs(w.dir, identity, tenant);
      RoleIsSafe(w, start, tenant, p, k, role);
      GrowthFits(w.dir, d');
      DirStepBounded(w, d', tenant, AllBut(p), false);
    }
  }

  lemma StepIsSafe(w: World, start: World, a: Action, tenant: Uuid, p: string)
    requires Guarded(w, start, tenant, p) && !IsExposed(start, tenant, p)
    ensures Bounded(Next(w, a), tenant, AllBut(p), false)
  {
    hide Next;
    if Plays(w, a, tenant, false) {
      hide Plays;
      StepBounded(w, a, tenant, AllBut(p), false);
    } else if a.Create? {
      CreateIsSafe(w, start, tenant, p, a.token, a.identity, a.names);
    } else {
      AssignIsSafe(w, start, tenant, p, a.token, a.identity, a.role);
    }
  }

  // ── The rest of the invariant ────────────────────────────────────────────

  lemma DirectoryStaysSettled(w: World, start: World, a: Action, tenant: Uuid)
    requires Settled(w, start, tenant) && Plays(w, a, tenant, true)
    ensures Settled(Next(w, a), start, tenant)
  {
    hide Mint, MintForClient, AddRoles, Descriptions, ManagementScopes;
    match a
    case Provision(t, platform, admin) =>
      if t !in w.dir.tenants {
        AddRolesShape(w.dir.roles, t, Descriptions(platform));
        if admin.Some? {
          var d1 := w.dir.(tenants := w.dir.tenants[t := platform],
                           roles := AddRoles(w.dir.roles, t, Descriptions(platform)));
          CreateIdentityShape(d1, t, admin.value, AdminRoles(platform));
        }
      }
    case MintCode(identity, requested, mfa, enrolled) => MintFrame(w, identity, requested, mfa, enrolled);
    case MintRefresh(r, mfa, enrolled) =>
      if r < |w.records| {
        MintFrame(w, w.records[r].identity, w.records[r].scopes, mfa, enrolled);
      }
    case MintClient(t, client, scope) => MintForClientFrame(w, t, client, scope);
    case Create(k, identity, names) =>
      if k < |w.tokens| {
        CreateIdentityShape(w.dir, w.tokens[k].tenant, identity, names);
      }
    case _ =>
  }

  lemma MintFrame(w: World, identity: Uuid, requested: seq<string>, mfa: bool, enrolled: bool)
    ensures var w' := Mint(w, identity, requested, mfa, enrolled);
            && w'.dir == w.dir && w'.clients == w.clients
            && (w'.tokens == w.tokens
                || (&& w'.tokens == w.tokens + [w'.tokens[|w'.tokens| - 1]]
                    && w'.tokens[|w'.tokens| - 1].identity == Some(identity)
                    && Belongs(w.dir, identity, w'.tokens[|w'.tokens| - 1].tenant)))
  {
    hide Permitted, Strip;
  }

  lemma MintForClientFrame(w: World, t: Uuid, client: string, scope: Option<seq<string>>)
    ensures var w' := MintForClient(w, t, client, scope);
            && w'.dir == w.dir && w'.clients == w.clients
            && (w'.tokens == w.tokens
                || (&& w'.tokens == w.tokens + [w'.tokens[|w'.tokens| - 1]]
                    && w'.tokens[|w'.tokens| - 1].tenant == t && w'.tokens[|w'.tokens| - 1].identity == None
                    && Carries(w, t, client, w'.tokens[|w'.tokens| - 1].scopes)))
  {
    if (t, client) in w.clients && t in w.dir.tenants {
      var allowed := w.clients[(t, client)];
      var scopes := if scope.Some? then scope.value else allowed;
      forall q | q in Strip(scopes, w.dir.tenants[t]) && forall x :: x in scopes ==> x in allowed
        ensures q in Strip(allowed, w.dir.tenants[t])
      {
        FilterMembers(scopes, s => !IsPlatform(s), q);
        FilterMembers(allowed, s => !IsPlatform(s), q);
      }
    }
  }

  /** The tokens of a later state each have a source in the start. */
  ghost predicate AllSourced(w: World, start: World, tenant: Uuid) {
    forall k :: 0 <= k < |w.tokens| && w.tokens[k].tenant == tenant ==> Sourced(start, tenant, w.tokens[k])
  }

  lemma TokensStaySourced(w: World, start: World, a: Action, tenant: Uuid, p: string)
    requires Guarded(w, start, tenant, p)
    ensures AllSourced(Next(w, a), start, tenant)
  {
    hide Mint, MintForClient, CreateTenant, CreateIdentity, Bounded;
    match a
    case MintCode(identity, requested, mfa, enrolled) => MintFrame(w, identity, requested, mfa, enrolled);
    case MintRefresh(r, mfa, enrolled) =>
      if r < |w.records| {
        MintFrame(w, w.records[r].identity, w.records[r].scopes, mfa, enrolled);
      }
    case MintClient(t, client, scope) =>
      MintForClientFrame(w, t, client, scope);
      var w' := MintForClient(w, t, client, scope);
      if w'.tokens != w.tokens && t == tenant {
        assert Carries(start, tenant, client, w'.tokens[|w'.tokens| - 1].scopes);
      }
    case _ =>
  }

  lemma IdentitiesStaySourced(w: World, start: World, a: Action, tenant: Uuid, p: string, i: Uuid)
    requires Guarded(w, start, tenant, p) && Belongs(Next(w, a).dir, i, tenant)
    ensures Peopled(start, tenant)
  {
    hide Mint, MintForClient, AddRoles, Descriptions, ManagementScopes, Bounded;
    match a
    case Provision(t, platform, admin) =>
      if t !in w.dir.tenants && admin.Some? {
        var d1 := w.dir.(tenants := w.dir.tenants[t := platform],
                         roles := AddRoles(w.dir.roles, t, Descriptions(platform)));
        CreateIdentityShape(d1, t, admin.value, AdminRoles(platform));
      }
      assert Belongs(w.dir, i, tenant);
    case MintCode(identity, requested, mfa, enrolled) => MintFrame(w, identity, requested, mfa, enrolled);
    case MintRefresh(r, mfa, enrolled) =>
      if r < |w.records| {
        MintFrame(w, w.records[r].identity, w.records[r].scopes, mfa, enrolled);
      }
    case MintClient(t, client, scope) => MintForClientFrame(w, t, client, scope);
    case Create(k, identity, names) =>
      if !Belongs(w.dir, i, tenant) {
        CreateIdentityShape(w.dir, w.tokens[k].tenant, identity, names);
        assert Sourced(start, tenant, w.tokens[k]);
        if w.tokens[k].identity.None? {
          var n :| Carries(start, tenant, n, w.tokens[k].scopes);
          assert MayRequest(start, tenant, n, IDENTITY_CREATE);
        }
      }
    case _ => assert Belongs(w.dir, i, tenant);
  }

  lemma StepGuarded(w: World, start: World, a: Action, tenant: Uuid, p: string)
    requires Guarded(w, start, tenant, p) && Plays(w, a, tenant, true) && !IsExposed(start, tenant, p)
    ensures Guarded(Next(w, a), start, tenant, p)
  {
    hide Next, Plays, Bounded, Settled;
    StepIsSafe(w, start, a, tenant, p);
    DirectoryStaysSettled(w, start, a, tenant);
    TokensStaySourced(w, start, a, tenant, p);
    forall i | Belongs(Next(w, a).dir, i, tenant) ensures Peopled(start, tenant) {
      IdentitiesStaySourced(w, start, a, tenant, p, i);
    }
  }

  lemma {:induction false} RunGuarded(w: World, start: World, actions: seq<Action>, tenant: Uuid, p: string)
    requires Guarded(w, start, tenant, p) && AllPlay(w, actions, tenant, true) && !IsExposed(start, tenant, p)
    ensures Guarded(Run(w, actions), start, tenant, p)
    decreases actions
  {
    hide Next, Plays, Guarded;
    if actions != [] {
      StepGuarded(w, start, actions[0], tenant, p);
      RunGuarded(Next(w, actions[0]), start, actions[1..], tenant, p);
    }
  }

  lemma StartIsGuarded(w: World, tenant: Uuid, p: string)
    requires DirFits(w.dir) && tenant in w.dir.tenants && w.tokens == [] && IsNew(w, tenant, p)
    ensures Guarded(w, w, tenant, p)
  {
  }

  /** A permission that no client and role expose is gained in no run. */
  lemma UnexposedIsNotGained(w: World, tenant: Uuid, p: string, actions: seq<Action>, i: Uuid)
    requires DirFits(w.dir) && tenant in w.dir.tenants && w.tokens == [] && IsNew(w, tenant, p)
    requires Gains(w, actions, tenant, i, p)
    ensures IsExposed(w, tenant, p)
  {
    hide Guarded, AllPlay, Run, Held, IsExposed, IsNew;
    StartIsGuarded(w, tenant, p);
    if !IsExposed(w, tenant, p) {
      RunGuarded(w, w, actions, tenant, p);
      GuardedDoesNotHold(Run(w, actions), w, tenant, p, i);
    }
  }

  lemma GuardedDoesNotHold(w: World, start: World, tenant: Uuid, p: string, i: Uuid)
    requires Guarded(w, start, tenant, p) && Belongs(w.dir, i, tenant)
    ensures p !in Held(w.dir, i)
  {
    hide Held;
    assert p in Held(w.dir, i) ==> p in AllBut(p);
  }

  // ── Tenants have the roles they were given ───────────────────────────────

  /** Every tenant has every role that provisioning gives it. */
  ghost predicate Provisioned(d: Directory) {
    forall t, i :: t in d.tenants && 0 <= i < |Descriptions(d.tenants[t])| ==> HasRole(d, t, i)
  }

  ghost predicate HasRole(d: Directory, t: Uuid, i: int)
    requires t in d.tenants && 0 <= i < |Descriptions(d.tenants[t])|
  {
    var role := Descriptions(d.tenants[t])[i];
    (t, role.name) in d.roles && d.roles[(t, role.name)] == role.permissions
  }

  lemma {:induction false} AddRolesKeeps(roles: map<(Uuid, string), seq<string>>, tenant: Uuid, descs: seq<Role>,
                                         name: string)
    requires forall j :: 0 <= j < |descs| ==> descs[j].name != name
    ensures (tenant, name) in roles ==>
              var roles' := AddRoles(roles, tenant, descs);
              (tenant, name) in roles' && roles'[(tenant, name)] == roles[(tenant, name)]
    decreases |descs|
  {
    if descs != [] {
      AddRolesKeeps(roles[(tenant, descs[0].name) := descs[0].permissions], tenant, descs[1..], name);
    }
  }

  lemma {:induction false} AddRolesHas(roles: map<(Uuid, string), seq<string>>, tenant: Uuid, descs: seq<Role>, i: nat)
    requires i < |descs| && forall j, k :: 0 <= j < k < |descs| ==> descs[j].name != descs[k].name
    ensures var roles' := AddRoles(roles, tenant, descs);
            (tenant, descs[i].name) in roles' && roles'[(tenant, descs[i].name)] == descs[i].permissions
    decreases |descs|
  {
    var roles1 := roles[(tenant, descs[0].name) := descs[0].permissions];
    if i == 0 {
      AddRolesKeeps(roles1, tenant, descs[1..], descs[0].name);
    } else {
      AddRolesHas(roles1, tenant, descs[1..], i - 1);
    }
  }

  lemma DescriptionsDiffer(platform: bool, j: nat, k: nat)
    requires j < k < |Descriptions(platform)|
    ensures Descriptions(platform)[j].name != Descriptions(platform)[k].name
  {
    NamesAreDistinct(j, k);
  }

  lemma CreateTenantProvisions(d: Directory, tenant: Uuid, platform: bool, admin: Option<Uuid>)
    requires Provisioned(d) && tenant !in d.tenants
    ensures Provisioned(CreateTenant(d, tenant, platform, admin))
  {
    var descs := Descriptions(platform);
    var d1 := d.(tenants := d.tenants[tenant := platform], roles := AddRoles(d.roles, tenant, descs));
    AddRolesShape(d.roles, tenant, descs);
    forall j, k | 0 <= j < k < |descs| ensures descs[j].name != descs[k].name {
      DescriptionsDiffer(platform, j, k);
    }
    hide Descriptions, AddRoles;
    forall t, i | t in d1.tenants && 0 <= i < |Descriptions(d1.tenants[t])| ensures HasRole(d1, t, i) {
      if t == tenant {
        AddRolesHas(d.roles, tenant, descs, i);
      } else {
        assert HasRole(d, t, i);
      }
    }
    CreateIdentityShape(d1, tenant, if admin.Some? then admin.value else 0, AdminRoles(platform));
    SameRoles(d1, CreateTenant(d, tenant, platform, admin));
  }

  lemma SameRoles(d: Directory, d': Directory)
    requires Provisioned(d) && d'.tenants == d.tenants && d'.roles == d.roles
    ensures Provisioned(d')
  {
    hide Descriptions;
    forall t, i | t in d'.tenants && 0 <= i < |Descriptions(d'.tenants[t])| ensures HasRole(d', t, i) {
      assert HasRole(d, t, i);
    }
  }

  lemma StepProvisions(w: World, a: Action)
    requires Provisioned(w.dir)
    ensures Provisioned(Next(w, a).dir)
  {
    hide Mint, MintForClient, CreateTenant, CreateIdentity, Provisioned;
    match a
    case Provision(t, platform, admin) =>
      if t !in w.dir.tenants {
        CreateTenantProvisions(w.dir, t, platform, admin);
      }
    case MintCode(identity, requested, mfa, enrolled) => MintFrame(w, identity, requested, mfa, enrolled);
    case MintRefresh(r, mfa, enrolled) =>
      if r < |w.records| {
        MintFrame(w, w.records[r].identity, w.records[r].scopes, mfa, enrolled);
      }
    case MintClient(t, client, scope) => MintForClientFrame(w, t, client, scope);
    case Create(k, identity, names) =>
      if k < |w.tokens| {
        CreateIdentityShape(w.dir, w.tokens[k].tenant, identity, names);
      }
      SameRoles(w.dir, Next(w, a).dir);
    case _ => SameRoles(w.dir, Next(w, a).dir);
  }

  lemma {:induction false} RunProvisions(w: World, actions: seq<Action>)
    requires Provisioned(w.dir)
    ensures Provisioned(Run(w, actions).dir)
    decreases actions
  {
    hide Next, Provisioned;
    if actions != [] {
      StepProvisions(w, actions[0]);
      RunProvisions(Next(w, actions[0]), actions[1..]);
    }
  }

  // ── An exposed permission is gained ──────────────────────────────────────

  lemma MintGives(w: World, tenant: Uuid, client: string, p: string)
    requires MayRequest(w, tenant, client, p)
    ensures var w' := Next(w, MintClient(tenant, client, None));
            && w' == w.(tokens := w.tokens + [Token(tenant, None, Strip(w.clients[(tenant, client)],
                                                                         w.dir.tenants[tenant]))])
  {
  }

  /** An identifier that no identity has. */
  lemma {:induction false} Unused(ids: set<Uuid>) returns (i: Uuid)
    ensures i !in ids && forall j :: j in ids ==> j < i
    decreases ids
  {
    i := 0;
    if ids != {} {
      var j :| j in ids;
      i := Unused(ids - {j});
      assert forall x :: x in ids ==> x == j || x in ids - {j};
      if i <= j {
        i := j + 1;
      }
    }
  }

  lemma SelfRoleExists(d: Directory, tenant: Uuid)
    requires Provisioned(d) && tenant in d.tenants
    ensures (tenant, IDENTITY_SELF) in d.roles
  {
    assert Descriptions(d.tenants[tenant])[0] == TENANT_ROLES[0];
    assert HasRole(d, tenant, 0);
  }

  lemma CreateGives(w: World, k: nat, identity: Uuid, role: string, p: string)
    requires k < |w.tokens| && identity !in w.dir.homes && IDENTITY_CREATE in w.tokens[k].scopes
    requires MayGrant(w.dir, w.tokens[k].tenant, role, w.tokens[k].scopes)
    requires p in w.dir.roles[(w.tokens[k].tenant, role)] && (w.tokens[k].tenant, IDENTITY_SELF) in w.dir.roles
    ensures var d := Next(w, Create(k, identity, [role])).dir;
            Belongs(d, identity, w.tokens[k].tenant) && p in Held(d, identity)
  {
    var tenant := w.tokens[k].tenant;
    var d := w.dir.(homes := w.dir.homes[identity := tenant]);
    var names := [IDENTITY_SELF, role];
    assert [IDENTITY_SELF] + [role] == names && names[1..] == [role] && [role][1..] == [];
    var d1 := AssignRole(d, tenant, identity, IDENTITY_SELF);
    var d2 := AssignRole(d1, tenant, identity, role);
    assert AssignAll(d1, tenant, identity, [role]) == AssignAll(d2, tenant, identity, []);
    assert Next(w, Create(k, identity, [role])).dir == d2;
    assert Joins(d2, Assignment(identity, tenant, role), identity);
  }

  lemma AssignGives(w: World, k: nat, identity: Uuid, role: string, p: string)
    requires k < |w.tokens| && IDENTITY_UPDATE in w.tokens[k].scopes
    requires MayGrant(w.dir, w.tokens[k].tenant, role, w.tokens[k].scopes)
    requires p in w.dir.roles[(w.tokens[k].tenant, role)] && Belongs(w.dir, identity, w.tokens[k].tenant)
    ensures var d := Next(w, Assign(k, identity, role)).dir;
            Belongs(d, identity, w.tokens[k].tenant) && p in Held(d, identity)
  {
    var tenant := w.tokens[k].tenant;
    var d := AssignRole(w.dir, tenant, identity, role);
    assert Joins(d, Assignment(identity, tenant, role), identity);
  }

  lemma TwoPlay(w: World, a: Action, b: Action, tenant: Uuid)
    requires !a.SetClient? && !b.SetClient?
    ensures AllPlay(w, [a, b], tenant, true) && Run(w, [a, b]) == Next(Next(w, a), b)
  {
    hide Next;
    assert [a, b][1..] == [b] && [b][1..] == [];
    assert AllPlay(Next(Next(w, a), b), [], tenant, true);
    assert AllPlay(Next(w, a), [b], tenant, true);
    assert Run(Next(w, a), [b]) == Run(Next(Next(w, a), b), []);
  }

  lemma FourPlay(w: World, a: Action, b: Action, c: Action, d: Action, tenant: Uuid)
    requires !a.SetClient? && !b.SetClient? && !c.SetClient? && !d.SetClient?
    ensures AllPlay(w, [a, b, c, d], tenant, true)
    ensures Run(w, [a, b, c, d]) == Next(Next(Next(Next(w, a), b), c), d)
  {
    hide Next;
    assert [a, b, c, d][1..] == [b, c, d] && [b, c, d][1..] == [c, d];
    TwoPlay(Next(Next(w, a), b), c, d, tenant);
    assert AllPlay(Next(w, a), [b, c, d], tenant, true);
    assert Run(Next(w, a), [b, c, d]) == Run(Next(Next(w, a), b), [c, d]);
  }

  lemma ByCreating(w: World, tenant: Uuid, client: string, role: string, p: string)
    requires Exposes(w, tenant, client, role, p) && MayRequest(w, tenant, client, IDENTITY_CREATE)
    requires w.tokens == [] && (tenant, IDENTITY_SELF) in w.dir.roles
    ensures CanGain(w, tenant, p)
  {
    var i := Unused(w.dir.homes.Keys);
    var mint, create := MintClient(tenant, client, None), Create(0, i, [role]);
    MintGives(w, tenant, client, IDENTITY_CREATE);
    TwoPlay(w, mint, create, tenant);
    CreateGives(Next(w, mint), 0, i, role, p);
    assert Gains(w, [mint, create], tenant, i, p);
  }

  lemma ByAssigning(w: World, tenant: Uuid, client: string, role: string, p: string, i: Uuid)
    requires Exposes(w, tenant, client, role, p) && MayRequest(w, tenant, client, IDENTITY_UPDATE)
    requires w.tokens == [] && Belongs(w.dir, i, tenant)
    ensures CanGain(w, tenant, p)
  {
    var mint, assign := MintClient(tenant, client, None), Assign(0, i, role);
    MintGives(w, tenant, client, IDENTITY_UPDATE);
    TwoPlay(w, mint, assign, tenant);
    AssignGives(Next(w, mint), 0, i, role, p);
    assert Gains(w, [mint, assign], tenant, i, p);
  }

  /** Creates an identity without further roles. */
  lemma CreatePeoples(w: World, k: nat, identity: Uuid)
    requires k < |w.tokens| && identity !in w.dir.homes && IDENTITY_CREATE in w.tokens[k].scopes
    ensures var w' := Next(w, Create(k, identity, []));
            && w'.tokens == w.tokens && w'.clients == w.clients && w'.dir.tenants == w.dir.tenants
            && w'.dir.roles == w.dir.roles && Belongs(w'.dir, identity, w.tokens[k].tenant)
  {
    var tenant := w.tokens[k].tenant;
    AssignAllShape(w.dir.(homes := w.dir.homes[identity := tenant]), tenant, identity, [IDENTITY_SELF] + []);
  }

  lemma ByCreatingThenAssigning(w: World, tenant: Uuid, client: string, role: string, p: string, creator: string)
    requires Exposes(w, tenant, client, role, p) && MayRequest(w, tenant, client, IDENTITY_UPDATE)
    requires MayRequest(w, tenant, creator, IDENTITY_CREATE) && w.tokens == []
    ensures CanGain(w, tenant, p)
  {
    var i := Unused(w.dir.homes.Keys);
    var mint, create := MintClient(tenant, creator, None), Create(0, i, []);
    var again, assign := MintClient(tenant, client, None), Assign(1, i, role);
    var w1 := Next(w, mint);
    var w2 := Next(w1, create);
    MintGives(w, tenant, creator, IDENTITY_CREATE);
    CreatePeoples(w1, 0, i);
    MintGives(w2, tenant, client, IDENTITY_UPDATE);
    FourPlay(w, mint, create, again, assign, tenant);
    AssignGives(Next(w2, again), 1, i, role, p);
    assert Gains(w, [mint, create, again, assign], tenant, i, p);
  }

  lemma ExposedIsGained(w: World, tenant: Uuid, client: string, role: string, p: string)
    requires Exposes(w, tenant, client, role, p) && w.tokens == [] && (tenant, IDENTITY_SELF) in w.dir.roles
    ensures CanGain(w, tenant, p)
  {
    hide CanGain;
    if MayRequest(w, tenant, client, IDENTITY_CREATE) {
      ByCreating(w, tenant, client, role, p);
    } else if i :| Belongs(w.dir, i, tenant) {
      ByAssigning(w, tenant, client, role, p, i);
    } else {
      var m :| MayRequest(w, tenant, m, IDENTITY_CREATE);
      ByCreatingThenAssigning(w, tenant, client, role, p, m);
    }
  }

  // ── The theorems ─────────────────────────────────────────────────────────

  /** A reachable state, once every token has expired. */
  ghost function Quiet(w: World, before: seq<Action>): World { Run(w, before).(tokens := [], records := []) }

  lemma QuietFits(w: World, before: seq<Action>)
    requires IsInitial(w)
    ensures DirFits(Quiet(w, before).dir) && Provisioned(Quiet(w, before).dir)
  {
    RunContained(w, before);
    RunProvisions(w, before);
  }

  /**
   From any reachable state without live tokens and with the tenant's clients left
   as they are: some run makes an identity of the tenant hold a permission that is
   not self-service and that nobody in the tenant held, if and only if some client
   and role of the tenant expose it.
   */
  lemma GainedExactly(w: World, before: seq<Action>, tenant: Uuid, p: string)
    requires IsInitial(w) && tenant in Quiet(w, before).dir.tenants && IsNew(Quiet(w, before), tenant, p)
    ensures CanGain(Quiet(w, before), tenant, p) <==> IsExposed(Quiet(w, before), tenant, p)
  {
    hide Run, Gains, IsNew, Exposes;
    QuietFits(w, before);
    var q := Quiet(w, before);
    SelfRoleExists(q.dir, tenant);
    if CanGain(q, tenant, p) {
      var actions, i :| Gains(q, actions, tenant, i, p);
      UnexposedIsNotGained(q, tenant, p, actions, i);
    }
    if IsExposed(q, tenant, p) {
      var n, r :| Exposes(q, tenant, n, r, p);
      ExposedIsGained(q, tenant, n, r, p);
    }
  }

  /** So the promise that granting creates nothing holds of a state exactly when no client and role break it. */
  lemma PromiseHoldsExactly(w: World, before: seq<Action>, tenant: Uuid)
    requires IsInitial(w) && tenant in Quiet(w, before).dir.tenants
    ensures var q := Quiet(w, before);
            (forall p :: IsNew(q, tenant, p) ==> !CanGain(q, tenant, p)) <==>
            (forall n, r, p :: Exposes(q, tenant, n, r, p) ==> !IsNew(q, tenant, p))
  {
    hide Quiet, IsNew, CanGain, Exposes;
    var q := Quiet(w, before);
    forall p | IsNew(q, tenant, p) ensures CanGain(q, tenant, p) <==> IsExposed(q, tenant, p) {
      GainedExactly(w, before, tenant, p);
    }
  }

  // ── The management client ────────────────────────────────────────────────

  ghost predicate HasManagement(w: World, tenant: Uuid) {
    && tenant in w.dir.tenants && (tenant, "management") in w.clients
    && w.clients[(tenant, "management")] == ManagementScopes(Descriptions(w.dir.tenants[tenant]))
  }

  lemma {:induction false} ManagementHas(descs: seq<Role>, i: nat, q: string)
    requires i < |descs| && q in descs[i].permissions
    ensures q in ManagementScopes(descs)
    decreases |descs|
  {
    if i > 0 {
      ManagementHas(descs[1..], i - 1, q);
    }
  }

  /** Stripping leaves an ordinary tenant's own permissions, and a platform tenant's all. */
  lemma RoleSurvives(platform: bool, i: nat, q: string, scopes: seq<string>)
    requires i < |Descriptions(platform)| && q in Descriptions(platform)[i].permissions && q in scopes
    ensures q in Strip(scopes, platform)
  {
    hide TENANT_ROLES, PLATFORM_ROLES;
    if !platform {
      TenantRolesAreLocal(i);
      FilterMembers(scopes, s => !IsPlatform(s), q);
    }
  }

  lemma ManagementRequests(w: World, tenant: Uuid, i: nat, q: string)
    requires HasManagement(w, tenant)
    requires i < |Descriptions(w.dir.tenants[tenant])| && q in Descriptions(w.dir.tenants[tenant])[i].permissions
    ensures MayRequest(w, tenant, "management", q)
  {
    hide Descriptions, ManagementScopes, Strip;
    var platform := w.dir.tenants[tenant];
    ManagementHas(Descriptions(platform), i, q);
    RoleSurvives(platform, i, q, ManagementScopes(Descriptions(platform)));
  }

  lemma CreatorIsDescribed(platform: bool)
    ensures 2 < |Descriptions(platform)| && IDENTITY_CREATE in Descriptions(platform)[2].permissions
  {
    assert Descriptions(platform)[2] == TENANT_ROLES[2];
  }

  /** With the management client as provisioned, every role of the tenant is exposed. */
  lemma ManagementExposes(w: World, tenant: Uuid, role: string, p: string)
    requires DirFits(w.dir) && HasManagement(w, tenant)
    requires (tenant, role) in w.dir.roles && p in w.dir.roles[(tenant, role)]
    ensures Exposes(w, tenant, "management", role, p)
  {
    hide Descriptions, ManagementScopes, MayRequest;
    var descs := Descriptions(w.dir.tenants[tenant]);
    assert RoleFits(w.dir, (tenant, role));
    var i :| 0 <= i < |descs| && descs[i] == Role(role, w.dir.roles[(tenant, role)]);
    forall q | q in w.dir.roles[(tenant, role)] ensures MayRequest(w, tenant, "management", q) {
      ManagementRequests(w, tenant, i, q);
    }
    CreatorIsDescribed(w.dir.tenants[tenant]);
    ManagementRequests(w, tenant, 2, IDENTITY_CREATE);
  }

  /**
   In every reachable state in which a tenant's management client is as provisioned,
   every permission of every role of the tenant that nobody holds can be gained.
   */
  lemma ManagementClientCreates(w: World, before: seq<Action>, tenant: Uuid, role: string, p: string)
    requires IsInitial(w) && HasManagement(Quiet(w, before), tenant) && IsNew(Quiet(w, before), tenant, p)
    requires var roles := Quiet(w, before).dir.roles; (tenant, role) in roles && p in roles[(tenant, role)]
    ensures CanGain(Quiet(w, before), tenant, p)
  {
    hide Quiet, IsNew, CanGain, HasManagement;
    QuietFits(w, before);
    ManagementIn(Quiet(w, before), tenant);
    ManagementExposes(Quiet(w, before), tenant, role, p);
    GainedExactly(w, before, tenant, p);
  }

  lemma ManagementIn(w: World, tenant: Uuid)
    requires HasManagement(w, tenant)
    ensures tenant in w.dir.tenants
  {
  }

  ghost function Nobody(): World { World(Directory(map[], map[], map[], {}), map[], [], []) }

  /**
   In particular, in a tenant provisioned without an administrator, right after its
   provisioning, every permission of its roles can be gained from nobody.
   */
  lemma FreshTenantCreates(tenant: Uuid, platform: bool, i: nat, p: string)
    requires i < |Descriptions(platform)| && p in Descriptions(platform)[i].permissions && !IsSelfService(p)
    ensures IsInitial(Nobody())
    ensures var q := Quiet(Nobody(), [Provision(tenant, platform, None)]);
            IsNew(q, tenant, p) && CanGain(q, tenant, p)
  {
    var provision := Provision(tenant, platform, None);
    hide Descriptions, ManagementScopes, AddRoles, CanGain;
    var q := Quiet(Nobody(), [provision]);
    assert [provision][1..] == [];
    assert Run(Nobody(), [provision]) == Run(Next(Nobody(), provision), []);
    QuietFits(Nobody(), [provision]);
    assert HasRole(q.dir, tenant, i);
    ManagementClientCreates(Nobody(), [provision], tenant, Descriptions(platform)[i].name, p);
  }
}
