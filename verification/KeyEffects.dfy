/**
 What the key store's queries mean and what each write does to the rows. Identifiers
 are drawn in order, so a key is newer exactly when its identifier is larger.
 */
module KeyEffects {
  import opened Wrappers
  import opened Redis
  import opened KeyViews
  import KeyRotation

  /** Rows are kept in the order of their identifiers. */
  ghost predicate Chronological(s: Repo) {
    && (forall i, j :: 0 <= i < j < |s.rows| ==> s.rows[i].id < s.rows[j].id)
    && (forall k :: k in s.rows ==> k.id < s.nextId)
  }

  // ── The queries ──────────────────────────────────────────────────────────

  /** The key with the largest identifier among those that satisfy `p`, if any does. */
  ghost predicate IsLatest(r: Option<Key>, rows: seq<Key>, p: Key -> bool) {
    match r
    case None => forall k :: k in rows ==> !p(k)
    case Some(k) => k in rows && p(k) && forall l :: l in rows && p(l) ==> l.id <= k.id
  }

  lemma {:induction false} NewestIsLatest(rows: seq<Key>, p: Key -> bool)
    requires forall i, j :: 0 <= i < j < |rows| ==> rows[i].id < rows[j].id
    ensures IsLatest(Newest(rows, p), rows, p)
  {
    if rows != [] {
      var front, last := rows[..|rows| - 1], rows[|rows| - 1];
      NewestIsLatest(front, p);
      assert rows == front + [last];
    }
  }

  /** The tenant's unrevoked keys, each once, from the largest identifier to the smallest. */
  ghost predicate IsListing(keys: seq<Key>, rows: seq<Key>, tenant: Uuid) {
    && (forall k :: k in keys <==> k in rows && k.tenant == tenant && k.state != Revoked)
    && (forall i, j :: 0 <= i < j < |keys| ==> keys[j].id < keys[i].id)
  }

  lemma {:induction false} PublishedIsListing(rows: seq<Key>, tenant: Uuid)
    requires forall i, j :: 0 <= i < j < |rows| ==> rows[i].id < rows[j].id
    ensures IsListing(Published(rows, tenant), rows, tenant)
  {
    if rows != [] {
      var front, last := rows[..|rows| - 1], rows[|rows| - 1];
      PublishedIsListing(front, tenant);
      assert rows == front + [last];
      forall k | k in front ensures k.id < last.id {
        var i :| 0 <= i < |front| && front[i] == k;
        assert rows[i] == k;
      }
    }
  }

  /** In every reachable state the tenant's signing key is its latest active one, and its JWKS that listing. */
  lemma TenantAnswers(s: Repo, ops: seq<Op>, tenant: Uuid)
    requires IsInitial(s)
    ensures var s' := Run(s, ops);
            && IsLatest(GetActive(s', tenant).1, s'.rows,
                        (k: Key) => k.tenant == tenant && k.state == Active)
            && IsListing(ListJwks(s', tenant).1, s'.rows, tenant)
  {
    hide Run, GetActive, ListJwks;
    var s' := Run(s, ops);
    KeyRotation.TenantViewsExact(s, ops, tenant);
    InitialChronological(s);
    assert Inv(s) by { KeyRotation.InitialFits(s); }
    RunChronological(s, ops);
    NewestIsLatest(s'.rows, ActiveOf(tenant));
    PublishedIsListing(s'.rows, tenant);
    hide Newest, Published;
    var p, q := ActiveOf(tenant), (k: Key) => k.tenant == tenant && k.state == Active;
    assert forall k :: p(k) <==> q(k);
  }

  lemma InitialChronological(s: Repo)
    requires IsInitial(s)
    ensures Chronological(s)
  {
  }

  // ── The writes ───────────────────────────────────────────────────────────

  /** Everything but the rows and the views is as before. */
  ghost predicate SameClock(s: Repo, s': Repo) {
    s'.now == s.now && s'.nextId == s.nextId && s'.revokedAt == s.revokedAt
  }

  /** The key is filed under its identifier and its kid, for half an hour. */
  ghost predicate IsFiled(s: Repo, k: Key) {
    && k.id in s.views.byId && s.views.byId[k.id] == Entry(k, s.now + 1800)
    && (k.tenant, k.kid) in s.views.byKid && s.views.byKid[(k.tenant, k.kid)] == Entry(k, s.now + 1800)
  }

  /** A key is created exactly when its tenant has none of that kid, and starts active. */
  lemma CreatedExactly(s: Repo, tenant: Uuid, kid: string)
    ensures var (s', r) := Create(s, tenant, kid);
            if exists k :: k in s.rows && k.tenant == tenant && k.kid == kid
            then r == None && s' == s
            else var key := Key(s.nextId, tenant, kid, Active);
                 && r == Some(key) && s'.rows == s.rows + [key] && IsFiled(s', key)
                 && s'.nextId == s.nextId + 1 && s'.now == s.now && s'.revokedAt == s.revokedAt
  {
    NewestMeans(s.rows, ByKid(tenant, kid));
    hide Newest;
    if k :| k in s.rows && k.tenant == tenant && k.kid == kid {
      assert ByKid(tenant, kid)(k);
    }
  }

  /** An update moves the stored key, and no other, to the state. */
  lemma UpdatedExactly(s: Repo, id: Uuid, state: KeyState)
    requires Inv(s)
    ensures var (s', r) := UpdateState(s, id, state);
            && SameClock(s, s') && |s'.rows| == |s.rows|
            && (forall i :: 0 <= i < |s.rows| ==>
                  s'.rows[i] == if s.rows[i].id == id then s.rows[i].(state := state) else s.rows[i])
            && (r.Some? <==> exists k :: k in s.rows && k.id == id)
            && (r.Some? ==> r.value in s'.rows && r.value.id == id && IsFiled(s', r.value))
  {
    NewestMeans(s.rows, ById(id));
    TransformMembers(s.rows, SetState(id, state));
    hide Newest, Transform;
    var found := Newest(s.rows, ById(id));
    if k :| k in s.rows && k.id == id {
      assert ById(id)(k);
    }
    if found.Some? {
      var i :| 0 <= i < |s.rows| && s.rows[i] == found.value;
      assert UpdateState(s, id, state).0.rows[i] == found.value.(state := state);
    } else {
      assert forall k :: k in s.rows ==> !ById(id)(k);
    }
  }

  /** A deletion removes the stored key, and no other. */
  lemma DeletedExactly(s: Repo, id: Uuid)
    ensures var (s', ok) := Delete(s, id);
            && SameClock(s, s') && (ok <==> exists k :: k in s.rows && k.id == id)
            && forall k :: k in s'.rows <==> k in s.rows && k.id != id
  {
    NewestMeans(s.rows, ById(id));
    hide Newest, Remove;
    forall k ensures k in Remove(s.rows, id) <==> k in s.rows && k.id != id {
      RemoveMembers(s.rows, id, k);
    }
    if k :| k in s.rows && k.id == id {
      assert ById(id)(k);
    } else {
      assert forall k :: k in s.rows ==> !ById(id)(k);
    }
  }

  /** Revoking all of a tenant's keys revokes each of them, and no other. */
  lemma RevokedExactly(s: Repo, tenant: Uuid)
    ensures var s' := RevokeAll(s, tenant);
            && s'.now == s.now && s'.nextId == s.nextId && |s'.rows| == |s.rows|
            && forall i :: 0 <= i < |s.rows| ==>
                 s'.rows[i] == if s.rows[i].tenant == tenant then s.rows[i].(state := Revoked) else s.rows[i]
  {
    TransformMembers(s.rows, RevokeIn(tenant));
    hide Transform;
  }

  /** Reading changes no row, and files what it had to fetch for as long as its view allows. */
  lemma FetchedExactly(s: Repo, id: Uuid, tenant: Uuid, kid: string)
    requires Inv(s)
    ensures var (a, r) := GetById(s, id);
            && a == s.(views := a.views)
            && (r.Some? && !IsLive(s.views.byId, id, s.now) ==>
                  id in a.views.byId && a.views.byId[id] == Entry(r.value, s.now + 1800))
    ensures var (b, r) := GetByKid(s, tenant, kid);
            && b == s.(views := b.views)
            && (r.Some? && !IsLive(s.views.byKid, (tenant, kid), s.now) ==>
                  (tenant, kid) in b.views.byKid && b.views.byKid[(tenant, kid)] == Entry(r.value, s.now + 1800))
    ensures var (c, r) := GetActive(s, tenant);
            && c == s.(views := c.views)
            && (r.Some? && !IsLive(s.views.active, tenant, s.now) ==>
                  tenant in c.views.active && c.views.active[tenant] == Entry(r.value, s.now + 300))
    ensures var (d, keys) := ListJwks(s, tenant);
            && d == s.(views := d.views)
            && (!IsLive(s.views.jwks, tenant, s.now) ==>
                  tenant in d.views.jwks && d.views.jwks[tenant] == Entry(keys, s.now + 3600))
  {
    NewestMeans(s.rows, ById(id));
    NewestMeans(s.rows, ByKid(tenant, kid));
    NewestMeans(s.rows, ActiveOf(tenant));
    hide Newest, Published, Inv;
  }

  // ── Order over runs ──────────────────────────────────────────────────────

  lemma {:induction false} RemoveKeepsOrder(rows: seq<Key>, id: Uuid)
    requires forall i, j :: 0 <= i < j < |rows| ==> rows[i].id < rows[j].id
    ensures forall i, j :: 0 <= i < j < |Remove(rows, id)| ==> Remove(rows, id)[i].id < Remove(rows, id)[j].id
  {
    if rows != [] {
      var front, last := rows[..|rows| - 1], rows[|rows| - 1];
      var left := Remove(front, id);
      RemoveKeepsOrder(front, id);
      assert Remove(rows, id) == left + if last.id == id then [] else [last];
      forall i | 0 <= i < |left| ensures left[i].id < last.id {
        RemoveMembers(front, id, left[i]);
        var k :| 0 <= k < |front| && front[k] == left[i];
        assert rows[k] == left[i];
      }
    }
  }

  lemma DeleteChronological(s: Repo, id: Uuid)
    requires Chronological(s)
    ensures Chronological(Delete(s, id).0)
  {
    DeletedExactly(s, id);
    RemoveKeepsOrder(s.rows, id);
    hide Remove, Newest;
  }

  lemma StepChronological(s: Repo, op: Op)
    requires Inv(s) && Chronological(s)
    ensures Chronological(Step(s, op))
  {
    hide Newest, Published, Transform, Remove, Inv;
    var s' := Step(s, op);
    match op
    case DoUpdate(id, state) =>
      UpdatedExactly(s, id, state);
      SameIdsChronological(s, s');
    case DoDelete(id) => DeleteChronological(s, id);
    case DoRevokeAll(tenant) =>
      RevokedExactly(s, tenant);
      SameIdsChronological(s, s');
    case _ =>
  }

  lemma SameIdsChronological(s: Repo, s': Repo)
    requires Chronological(s) && |s'.rows| == |s.rows| && s'.nextId == s.nextId
    requires forall i :: 0 <= i < |s.rows| ==> s'.rows[i].id == s.rows[i].id
    ensures Chronological(s')
  {
  }

  lemma {:induction false} RunChronological(s: Repo, ops: seq<Op>)
    requires Chronological(s) && Inv(s)
    ensures Chronological(Run(s, ops))
    decreases ops
  {
    hide Step, Inv, Chronological;
    if ops != [] {
      KeyRotation.StepKeeps(s, ops[0]);
      StepChronological(s, ops[0]);
      RunChronological(Step(s, ops[0]), ops[1..]);
    }
  }
}
