/**
 What each client operation does to the stored row and answers, column by column.
 With the lookups answering as the store does, this is what every caller sees.
 */
module ClientEffects {
  import opened Wrappers
  import opened Redis
  import opened ClientCache

  /** The same but for the caches. */
  ghost predicate SameStore(s: Repo, s': Repo) {
    s' == s.(byId := s'.byId, byName := s'.byName)
  }

  /** One row is rewritten, and no other row, name or identifier. */
  ghost predicate Rewrites(s: Repo, s': Repo, tenant: Uuid, id: Uuid, c: Client) {
    && s' == s.(rows := s'.rows, byId := s'.byId, byName := s'.byName)
    && s'.rows.Keys == s.rows.Keys && (tenant, id) in s'.rows && s'.rows[(tenant, id)] == c
    && forall k :: k in s.rows && k != (tenant, id) ==> s'.rows[k] == s.rows[k]
  }

  /** Columns that no operation changes. */
  ghost predicate SameClient(c: Client, c': Client) {
    c'.id == c.id && c'.tenant == c.tenant && c'.name == c.name && c'.confidential == c.confidential
  }

  // ── Reading ──────────────────────────────────────────────────────────────

  /** The client is filed under both its keys, for an hour. */
  ghost predicate IsFiled(s: Repo, c: Client) {
    && (c.tenant, c.id) in s.byId && s.byId[(c.tenant, c.id)] == Entry(c, s.now + 3600)
    && (c.tenant, c.name) in s.byName && s.byName[(c.tenant, c.name)] == Entry(c, s.now + 3600)
  }

  /** A lookup answers with the stored row, changes no row, and files what it had to fetch. */
  lemma FetchedExactly(s: Repo, tenant: Uuid, id: Uuid)
    requires Inv(s)
    ensures var (s', r) := Get(s, tenant, id);
            && SameStore(s, s') && (r.Some? <==> (tenant, id) in s.rows)
            && (r.Some? ==>
                  r.value == s.rows[(tenant, id)]
                  && (if IsLive(s.byId, (tenant, id), s.now) then s' == s else IsFiled(s', r.value)))
  {
    assert IdEntryFits(s, (tenant, id));
  }

  lemma FetchedByNameExactly(s: Repo, tenant: Uuid, name: string)
    requires Inv(s)
    ensures var (s', r) := GetByName(s, tenant, name);
            && SameStore(s, s')
            && (r.Some? <==> exists id: Uuid :: (tenant, id) in s.rows && s.rows[(tenant, id)].name == name)
            && (r.Some? ==>
                  r.value.name == name && (tenant, r.value.id) in s.rows && s.rows[(tenant, r.value.id)] == r.value
                  && (if IsLive(s.byName, (tenant, name), s.now) then s' == s else IsFiled(s', r.value)))
  {
    assert NameEntryFits(s, (tenant, name));
    if (tenant, name) in s.names {
      assert IdEntryFits(s, (tenant, s.names[(tenant, name)]));
    }
  }

  /** A token is accepted exactly while the client is active at no later version than the token's. */
  lemma AcceptedExactly(s: Repo, tenant: Uuid, id: Uuid, version: int)
    requires Inv(s)
    ensures Accepts(s, tenant, id, version) <==>
              && (tenant, id) in s.rows && s.rows[(tenant, id)].status == Active
              && s.rows[(tenant, id)].version <= version
  {
    FetchedExactly(s, tenant, id);
    hide Get;
  }

  // ── Writing ──────────────────────────────────────────────────────────────

  /** A client is created exactly when the tenant has none of that name; it starts active. */
  lemma CreatedExactly(s: Repo, tenant: Uuid, name: string, confidential: bool, secret: nat, version: int,
                       settings: nat)
    requires Inv(s)
    ensures var (s', r) := Create(s, tenant, name, confidential, secret, version, settings);
            var c := Client(s.nextId, tenant, name, confidential, secret, Active, version, settings);
            if exists id: Uuid :: (tenant, id) in s.rows && s.rows[(tenant, id)].name == name
            then r == None && s' == s
            else && r == Some(c) && IsFiled(s', c)
                 && s'.rows == s.rows[(tenant, s.nextId) := c] && s'.nextId == s.nextId + 1 && s'.now == s.now
  {
  }

  /** A deleted client is found by neither key, and nothing happens to any other. */
  lemma DeletedExactly(s: Repo, tenant: Uuid, id: Uuid)
    requires Inv(s)
    ensures var (s', ok) := Delete(s, tenant, id);
            && (ok <==> (tenant, id) in s.rows) && (!ok ==> s' == s)
            && s'.rows == s.rows - {(tenant, id)} && s'.nextId == s.nextId && s'.now == s.now
            && (ok ==> Get(s', tenant, id).1 == None && GetByName(s', tenant, s.rows[(tenant, id)].name).1 == None)
  {
    var s' := Delete(s, tenant, id).0;
    DeleteKeeps(s, tenant, id);
    FetchedExactly(s', tenant, id);
    if (tenant, id) in s.rows {
      FetchedByNameExactly(s', tenant, s.rows[(tenant, id)].name);
    }
    hide Get, GetByName;
  }

  lemma UpdatedExactly(s: Repo, tenant: Uuid, id: Uuid, u: Updates)
    ensures var (s', r) := Update(s, tenant, id, u);
            if (tenant, id) !in s.rows then r == None && s' == s
            else r == Some(Apply(s.rows[(tenant, id)], u)) && Rewrites(s, s', tenant, id, r.value)
  {
  }

  /** A request to leave the active state. */
  ghost predicate Leaves(c: Client, status: Option<Status>) {
    status.Some? && status.value != Active && c.status == Active
  }

  ghost predicate IsChanged(c: Client, c': Client, status: Option<Status>, settings: Option<nat>) {
    && SameClient(c, c') && c'.secret == c.secret
    && c'.settings == (if settings.Some? then settings.value else c.settings)
    && c'.version == (if Leaves(c, status) then c.version + 1 else c.version)
    && c'.status == (if status.None? then c.status
                     else if status == Some(Suspended) || status == Some(Disabled) then status.value else Active)
  }

  /** Which update a change comes down to. */
  lemma ChangeUpdates(s: Repo, tenant: Uuid, id: Uuid, status: Option<Status>, settings: Option<nat>)
    requires Inv(s) && (tenant, id) in s.rows
    requires !(Leaves(s.rows[(tenant, id)], status) && s.rows[(tenant, id)].version == 2147483647)
    ensures var c := s.rows[(tenant, id)];
            var version := if Leaves(c, status) then Some(c.version + 1) else None;
            var s1 := if status.Some? && status.value != Active then Get(s, tenant, id).0 else s;
            UpdateClient(s, tenant, id, status, settings)
            == Update(s1, tenant, id, Updates(None, version, status, settings))
  {
    FetchedExactly(s, tenant, id);
    hide Get, Update, Inv;
  }

  /**
   An update writes the given columns, and advances the version exactly when an active
   client is asked to leave the active state, which is refused at the largest version.
   */
  lemma ChangedExactly(s: Repo, tenant: Uuid, id: Uuid, status: Option<Status>, settings: Option<nat>)
    requires Inv(s)
    ensures var (s', r) := UpdateClient(s, tenant, id, status, settings);
            if (tenant, id) !in s.rows
               || (Leaves(s.rows[(tenant, id)], status) && s.rows[(tenant, id)].version == 2147483647)
            then r == None && SameStore(s, s')
            else r.Some? && Rewrites(s, s', tenant, id, r.value)
                 && IsChanged(s.rows[(tenant, id)], r.value, status, settings)
  {
    FetchedExactly(s, tenant, id);
    var s1 := Get(s, tenant, id).0;
    hide Get, Update, Inv, Apply, Rewrites, IsChanged;
    if && (tenant, id) in s.rows
       && !(Leaves(s.rows[(tenant, id)], status) && s.rows[(tenant, id)].version == 2147483647)
    {
      var c := s.rows[(tenant, id)];
      ChangeUpdates(s, tenant, id, status, settings);
      hide UpdateClient;
      var u := Updates(None, if Leaves(c, status) then Some(c.version + 1) else None, status, settings);
      AppliedIsChanged(c, status, settings);
      UpdatedExactly(s, tenant, id, u);
      UpdatedExactly(s1, tenant, id, u);
      StillRewrites(s, s1, Update(s1, tenant, id, u).0, tenant, id, Apply(c, u));
    }
  }

  lemma AppliedIsChanged(c: Client, status: Option<Status>, settings: Option<nat>)
    ensures var version := if Leaves(c, status) then Some(c.version + 1) else None;
            IsChanged(c, Apply(c, Updates(None, version, status, settings)), status, settings)
  {
  }

  lemma StillRewrites(s: Repo, s1: Repo, s': Repo, tenant: Uuid, id: Uuid, c: Client)
    requires SameStore(s, s1)
    ensures Rewrites(s1, s', tenant, id, c) ==> Rewrites(s, s', tenant, id, c)
  {
  }

  ghost predicate Advances(c: Client, c': Client) {
    c'.version == if c.version == 2147483647 then -2147483648 else c.version + 1
  }

  /** A rotation of the version advances it, around the 32-bit limit, and changes nothing else. */
  lemma VersionRotatedExactly(s: Repo, tenant: Uuid, id: Uuid)
    requires Inv(s) && ((tenant, id) in s.rows ==> s.rows[(tenant, id)].version <= 2147483647)
    ensures var (s', r) := RotateVersion(s, tenant, id);
            if (tenant, id) !in s.rows then r == None && SameStore(s, s')
            else r.Some? && Rewrites(s, s', tenant, id, r.value)
                 && Advances(s.rows[(tenant, id)], r.value)
                 && r.value == s.rows[(tenant, id)].(version := r.value.version)
  {
    FetchedExactly(s, tenant, id);
    hide Get;
  }

  /** A rotation of the secret, of a confidential client, writes it and advances the version. */
  lemma SecretRotatedExactly(s: Repo, tenant: Uuid, id: Uuid, secret: nat)
    requires Inv(s) && ((tenant, id) in s.rows ==> s.rows[(tenant, id)].version <= 2147483647)
    ensures var (s', r) := RotateSecret(s, tenant, id, secret);
            if (tenant, id) !in s.rows || !s.rows[(tenant, id)].confidential then r == None && SameStore(s, s')
            else r.Some? && Rewrites(s, s', tenant, id, r.value)
                 && r.value.secret == secret && Advances(s.rows[(tenant, id)], r.value)
                 && r.value == s.rows[(tenant, id)].(secret := secret, version := r.value.version)
  {
    FetchedExactly(s, tenant, id);
    hide Get;
  }
}
