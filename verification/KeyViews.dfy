/**
 Signing keys behind four cached views: by id, by kid, the active key and the
 JWKS of a tenant. Rows are kept in creation order, so "newest first" is "last
 first". Every write refreshes or drops the entries it touches, except that
 `revoke_all_for_tenant` leaves the id and kid entries to expire.
 */
module KeyViews {
  import opened Wrappers
  import opened Redis

  type Uuid = nat

  const KEY_TTL: nat := 1800
  const ACTIVE_TTL: nat := 300
  const JWKS_TTL: nat := 3600

  datatype KeyState = Active | Expired | Revoked

  /** `id` also stands for the key pair. */
  datatype Key = Key(id: Uuid, tenant: Uuid, kid: string, state: KeyState)

  datatype Views = Views(
    byId: map<Uuid, Entry<Key>>,
    byKid: map<(Uuid, string), Entry<Key>>,
    active: map<Uuid, Entry<Key>>,
    jwks: map<Uuid, Entry<seq<Key>>>)

  /** `revokedAt` is history: when a tenant's keys were last revoked all at once. */
  datatype Repo = Repo(now: nat, nextId: Uuid, rows: seq<Key>, views: Views, revokedAt: map<Uuid, nat>)

  predicate IsInitial(s: Repo) {
    s.rows == [] && s.views == Views(map[], map[], map[], map[]) && s.revokedAt == map[]
  }

  // ── The bare store ───────────────────────────────────────────────────────

  function ById(id: Uuid): Key -> bool { (k: Key) => k.id == id }

  function ByKid(tenant: Uuid, kid: string): Key -> bool { (k: Key) => k.tenant == tenant && k.kid == kid }

  function ActiveOf(tenant: Uuid): Key -> bool { (k: Key) => k.tenant == tenant && k.state.Active? }

  /** The newest row that satisfies `p`. */
  function Newest(rows: seq<Key>, p: Key -> bool): Option<Key> {
    if rows == [] then None
    else if p(rows[|rows| - 1]) then Some(rows[|rows| - 1]) else Newest(rows[..|rows| - 1], p)
  }

  /** The tenant's keys that are not revoked, newest first. */
  function Published(rows: seq<Key>, tenant: Uuid): seq<Key> {
    if rows == [] then []
    else
      var k := rows[|rows| - 1];
      (if k.tenant == tenant && !k.state.Revoked? then [k] else []) + Published(rows[..|rows| - 1], tenant)
  }

  function SetState(id: Uuid, state: KeyState): Key -> Key { (k: Key) => if k.id == id then k.(state := state) else k }

  function RevokeIn(tenant: Uuid): Key -> Key { (k: Key) => if k.tenant == tenant then k.(state := Revoked) else k }

  function Transform(rows: seq<Key>, f: Key -> Key): seq<Key> {
    if rows == [] then [] else Transform(rows[..|rows| - 1], f) + [f(rows[|rows| - 1])]
  }

  function Remove(rows: seq<Key>, id: Uuid): seq<Key> {
    if rows == [] then []
    else Remove(rows[..|rows| - 1], id) + if rows[|rows| - 1].id == id then [] else [rows[|rows| - 1]]
  }

  // ── The repository ───────────────────────────────────────────────────────

  function Create(s: Repo, tenant: Uuid, kid: string): (Repo, Option<Key>) {
    if Newest(s.rows, ByKid(tenant, kid)).Some? then (s, None)
    else
      var key := Key(s.nextId, tenant, kid, Active);
      (s.(nextId := s.nextId + 1, rows := s.rows + [key],
          views := Views(SetEx(s.views.byId, key.id, key, s.now, KEY_TTL),
                         SetEx(s.views.byKid, (tenant, kid), key, s.now, KEY_TTL),
                         s.views.active - {tenant}, s.views.jwks - {tenant})),
       Some(key))
  }

  function GetById(s: Repo, id: Uuid): (Repo, Option<Key>) {
    match Read(s.views.byId, id, s.now)
    case Some(k) => (s, Some(k))
    case None =>
      match Newest(s.rows, ById(id))
      case None => (s, None)
      case Some(k) => (s.(views := s.views.(byId := SetEx(s.views.byId, k.id, k, s.now, KEY_TTL))), Some(k))
  }

  function GetByKid(s: Repo, tenant: Uuid, kid: string): (Repo, Option<Key>) {
    match Read(s.views.byKid, (tenant, kid), s.now)
    case Some(k) => (s, Some(k))
    case None =>
      match Newest(s.rows, ByKid(tenant, kid))
      case None => (s, None)
      case Some(k) =>
        (s.(views := s.views.(byKid := SetEx(s.views.byKid, (k.tenant, k.kid), k, s.now, KEY_TTL))), Some(k))
  }

  function GetActive(s: Repo, tenant: Uuid): (Repo, Option<Key>) {
    match Read(s.views.active, tenant, s.now)
    case Some(k) => (s, Some(k))
    case None =>
      match Newest(s.rows, ActiveOf(tenant))
      case None => (s, None)
      case Some(k) => (s.(views := s.views.(active := SetEx(s.views.active, k.tenant, k, s.now, ACTIVE_TTL))), Some(k))
  }

  function ListJwks(s: Repo, tenant: Uuid): (Repo, seq<Key>) {
    match Read(s.views.jwks, tenant, s.now)
    case Some(keys) => (s, keys)
    case None =>
      var keys := Published(s.rows, tenant);
      (s.(views := s.views.(jwks := SetEx(s.views.jwks, tenant, keys, s.now, JWKS_TTL))), keys)
  }

  function UpdateState(s: Repo, id: Uuid, state: KeyState): (Repo, Option<Key>) {
    match Newest(s.rows, ById(id))
    case None => (s, None)
    case Some(k) =>
      var key := k.(state := state);
      (s.(rows := Transform(s.rows, SetState(id, state)),
          views := Views(SetEx(s.views.byId, id, key, s.now, KEY_TTL),
                         SetEx(s.views.byKid, (key.tenant, key.kid), key, s.now, KEY_TTL),
                         s.views.active - {key.tenant}, s.views.jwks - {key.tenant})),
       Some(key))
  }

  function Delete(s: Repo, id: Uuid): (Repo, bool) {
    match Newest(s.rows, ById(id))
    case None => (s, false)
    case Some(k) =>
      (s.(rows := Remove(s.rows, id),
          views := Views(s.views.byId - {id}, s.views.byKid - {(k.tenant, k.kid)},
                         s.views.active - {k.tenant}, s.views.jwks - {k.tenant})),
       true)
  }

  function RevokeAll(s: Repo, tenant: Uuid): Repo {
    s.(rows := Transform(s.rows, RevokeIn(tenant)),
       views := s.views.(active := s.views.active - {tenant}, jwks := s.views.jwks - {tenant}),
       revokedAt := s.revokedAt[tenant := s.now])
  }

  datatype Op =
    | Wait(seconds: nat)
    | DoCreate(tenant: Uuid, kid: string)
    | DoGet(id: Uuid)
    | DoGetByKid(tenant: Uuid, kid: string)
    | DoGetActive(tenant: Uuid)
    | DoListJwks(tenant: Uuid)
    | DoUpdate(id: Uuid, state: KeyState)
    | DoDelete(id: Uuid)
    | DoRevokeAll(tenant: Uuid)

  function Step(s: Repo, op: Op): Repo {
    match op
    case Wait(seconds) => s.(now := s.now + seconds)
    case DoCreate(tenant, kid) => Create(s, tenant, kid).0
    case DoGet(id) => GetById(s, id).0
    case DoGetByKid(tenant, kid) => GetByKid(s, tenant, kid).0
    case DoGetActive(tenant) => GetActive(s, tenant).0
    case DoListJwks(tenant) => ListJwks(s, tenant).0
    case DoUpdate(id, state) => UpdateState(s, id, state).0
    case DoDelete(id) => Delete(s, id).0
    case DoRevokeAll(tenant) => RevokeAll(s, tenant)
  }

  function Run(s: Repo, ops: seq<Op>): Repo
    decreases ops
  {
    if ops == [] then s else Run(Step(s, ops[0]), ops[1..])
  }

  // ── Facts about the store queries ────────────────────────────────────────

  lemma {:induction false} NewestMeans(rows: seq<Key>, p: Key -> bool)
    ensures match Newest(rows, p)
            case None => forall k :: k in rows ==> !p(k)
            case Some(k) => k in rows && p(k)
  {
    if rows != [] {
      NewestMeans(rows[..|rows| - 1], p);
      assert rows == rows[..|rows| - 1] + [rows[|rows| - 1]];
    }
  }

  lemma NewestAppend(rows: seq<Key>, k: Key, p: Key -> bool)
    ensures Newest(rows + [k], p) == if p(k) then Some(k) else Newest(rows, p)
  {
  }

  lemma {:induction false} TransformMembers(rows: seq<Key>, f: Key -> Key)
    ensures |Transform(rows, f)| == |rows|
    ensures forall i :: 0 <= i < |rows| ==> Transform(rows, f)[i] == f(rows[i])
  {
    if rows != [] {
      TransformMembers(rows[..|rows| - 1], f);
    }
  }

  lemma {:induction false} NewestTransform(rows: seq<Key>, f: Key -> Key, p: Key -> bool)
    requires forall k :: k in rows ==> (p(f(k)) <==> p(k))
    ensures Newest(Transform(rows, f), p) ==
            match Newest(rows, p) case None => None case Some(k) => Some(f(k))
  {
    if rows != [] {
      var front := rows[..|rows| - 1];
      NewestTransform(front, f, p);
      assert Transform(rows, f)[..|Transform(rows, f)| - 1] == Transform(front, f);
      assert rows[|rows| - 1] in rows;
    }
  }

  lemma {:induction false} PublishedTransform(rows: seq<Key>, f: Key -> Key, tenant: Uuid)
    requires forall k :: k in rows ==> f(k).tenant == k.tenant && (k.tenant == tenant ==> f(k) == k)
    ensures Published(Transform(rows, f), tenant) == Published(rows, tenant)
  {
    if rows != [] {
      var front := rows[..|rows| - 1];
      PublishedTransform(front, f, tenant);
      assert Transform(rows, f)[..|Transform(rows, f)| - 1] == Transform(front, f);
      assert rows[|rows| - 1] in rows;
    }
  }

  lemma {:induction false} RemoveMembers(rows: seq<Key>, id: Uuid, k: Key)
    ensures k in Remove(rows, id) <==> k in rows && k.id != id
  {
    if rows != [] {
      RemoveMembers(rows[..|rows| - 1], id, k);
      assert rows == rows[..|rows| - 1] + [rows[|rows| - 1]];
    }
  }

  lemma {:induction false} NewestRemove(rows: seq<Key>, id: Uuid, p: Key -> bool)
    requires forall k :: k in rows && p(k) ==> k.id != id
    ensures Newest(Remove(rows, id), p) == Newest(rows, p)
  {
    if rows != [] {
      var front, last := rows[..|rows| - 1], rows[|rows| - 1];
      NewestRemove(front, id, p);
      assert last in rows;
      if last.id != id {
        NewestAppend(Remove(front, id), last, p);
      } else {
        assert Remove(rows, id) == Remove(front, id);
      }
    }
  }

  lemma {:induction false} PublishedRemove(rows: seq<Key>, id: Uuid, tenant: Uuid)
    requires forall k :: k in rows && k.tenant == tenant ==> k.id != id
    ensures Published(Remove(rows, id), tenant) == Published(rows, tenant)
  {
    if rows != [] {
      var front, last := rows[..|rows| - 1], rows[|rows| - 1];
      PublishedRemove(front, id, tenant);
      assert last in rows;
      if last.id != id {
        assert (Remove(front, id) + [last])[..|Remove(front, id)|] == Remove(front, id);
      } else {
        assert Remove(rows, id) == Remove(front, id);
      }
    }
  }

  // ── The invariant ────────────────────────────────────────────────────────

  ghost predicate RowsUnique(rows: seq<Key>, next: Uuid) {
    && (forall k :: k in rows ==> k.id < next)
    && (forall k, l :: k in rows && l in rows && k.id == l.id ==> k == l)
    && (forall k, l :: k in rows && l in rows && k.tenant == l.tenant && k.kid == l.kid ==> k == l)
  }

  /** The entry answers as the store, or predates a revocation of all the tenant's keys and expires in time. */
  ghost predicate Faithful(e: Entry<Key>, found: Option<Key>, revokedAt: map<Uuid, nat>) {
    || found == Some(e.value)
    || (&& found == Some(e.value.(state := Revoked))
        && e.value.tenant in revokedAt && e.expiry <= revokedAt[e.value.tenant] + KEY_TTL)
  }

  ghost predicate IdsFaithful(byId: map<Uuid, Entry<Key>>, rows: seq<Key>, now: nat, revokedAt: map<Uuid, nat>) {
    forall i :: i in byId ==>
      byId[i].expiry <= now + KEY_TTL && Faithful(byId[i], Newest(rows, ById(i)), revokedAt)
  }

  ghost predicate KidsFaithful(byKid: map<(Uuid, string), Entry<Key>>, rows: seq<Key>, now: nat,
                               revokedAt: map<Uuid, nat>)
  {
    forall i :: i in byKid ==>
      byKid[i].expiry <= now + KEY_TTL && Faithful(byKid[i], Newest(rows, ByKid(i.0, i.1)), revokedAt)
  }

  ghost predicate ActiveExact(active: map<Uuid, Entry<Key>>, rows: seq<Key>) {
    forall t :: t in active ==> Newest(rows, ActiveOf(t)) == Some(active[t].value)
  }

  ghost predicate JwksExact(jwks: map<Uuid, Entry<seq<Key>>>, rows: seq<Key>) {
    forall t :: t in jwks ==> Published(rows, t) == jwks[t].value
  }

  ghost predicate Inv(s: Repo) {
    && RowsUnique(s.rows, s.nextId)
    && IdsFaithful(s.views.byId, s.rows, s.now, s.revokedAt)
    && KidsFaithful(s.views.byKid, s.rows, s.now, s.revokedAt)
    && ActiveExact(s.views.active, s.rows) && JwksExact(s.views.jwks, s.rows)
    && (forall t :: t in s.revokedAt ==> s.revokedAt[t] <= s.now)
  }

  // ── Each operation keeps it ──────────────────────────────────────────────

  lemma AppendUnique(rows: seq<Key>, key: Key)
    requires RowsUnique(rows, key.id) && Newest(rows, ByKid(key.tenant, key.kid)).None?
    ensures RowsUnique(rows + [key], key.id + 1)
  {
    hide Newest;
    NewestMeans(rows, ByKid(key.tenant, key.kid));
    assert forall k :: k in rows ==> !ByKid(key.tenant, key.kid)(k);
  }

  lemma AppendTenantViews(rows: seq<Key>, key: Key, active: map<Uuid, Entry<Key>>, jwks: map<Uuid, Entry<seq<Key>>>)
    requires ActiveExact(active, rows) && JwksExact(jwks, rows)
    ensures ActiveExact(active - {key.tenant}, rows + [key]) && JwksExact(jwks - {key.tenant}, rows + [key])
  {
  }

  lemma AppendKeyViews(rows: seq<Key>, key: Key, byId: map<Uuid, Entry<Key>>, byKid: map<(Uuid, string), Entry<Key>>,
                       now: nat, revokedAt: map<Uuid, nat>)
    requires IdsFaithful(byId, rows, now, revokedAt) && KidsFaithful(byKid, rows, now, revokedAt)
    ensures IdsFaithful(SetEx(byId, key.id, key, now, KEY_TTL), rows + [key], now, revokedAt)
    ensures KidsFaithful(SetEx(byKid, (key.tenant, key.kid), key, now, KEY_TTL), rows + [key], now, revokedAt)
  {
  }

  lemma CreateKeeps(s: Repo, tenant: Uuid, kid: string)
    requires Inv(s)
    ensures Inv(Create(s, tenant, kid).0)
  {
    hide Newest, Published;
    var key := Key(s.nextId, tenant, kid, Active);
    if Newest(s.rows, ByKid(tenant, kid)).None? {
      AppendUnique(s.rows, key);
      AppendTenantViews(s.rows, key, s.views.active, s.views.jwks);
      AppendKeyViews(s.rows, key, s.views.byId, s.views.byKid, s.now, s.revokedAt);
    }
  }

  lemma GetByIdKeeps(s: Repo, id: Uuid)
    requires Inv(s)
    ensures Inv(GetById(s, id).0)
  {
    hide Newest, Published;
    NewestMeans(s.rows, ById(id));
  }

  lemma GetByKidKeeps(s: Repo, tenant: Uuid, kid: string)
    requires Inv(s)
    ensures Inv(GetByKid(s, tenant, kid).0)
  {
    hide Newest, Published;
    NewestMeans(s.rows, ByKid(tenant, kid));
  }

  lemma GetActiveKeeps(s: Repo, tenant: Uuid)
    requires Inv(s)
    ensures Inv(GetActive(s, tenant).0)
  {
    hide Newest, Published;
    NewestMeans(s.rows, ActiveOf(tenant));
  }

  lemma ListJwksKeeps(s: Repo, tenant: Uuid)
    requires Inv(s)
    ensures Inv(ListJwks(s, tenant).0)
  {
  }

  /** Rewriting rows one to one, without touching ids, tenants or kids. */
  ghost predicate Relabels(f: Key -> Key) {
    forall k :: f(k).id == k.id && f(k).tenant == k.tenant && f(k).kid == k.kid
  }

  lemma TransformUnique(rows: seq<Key>, f: Key -> Key, next: Uuid)
    requires RowsUnique(rows, next) && Relabels(f)
    ensures RowsUnique(Transform(rows, f), next)
  {
    TransformMembers(rows, f);
    forall k | k in Transform(rows, f)
      ensures exists l :: l in rows && k == f(l)
    {
      var i :| 0 <= i < |rows| && Transform(rows, f)[i] == k;
      assert rows[i] in rows;
    }
  }

  /** Tenants whose rows stay as they are keep exact views. */
  lemma TransformTenantViews(rows: seq<Key>, f: Key -> Key, tenant: Uuid, active: map<Uuid, Entry<Key>>,
                             jwks: map<Uuid, Entry<seq<Key>>>)
    requires Relabels(f) && forall k :: k in rows && k.tenant != tenant ==> f(k) == k
    requires ActiveExact(active, rows) && JwksExact(jwks, rows)
    ensures ActiveExact(active - {tenant}, Transform(rows, f)) && JwksExact(jwks - {tenant}, Transform(rows, f))
  {
    hide Newest, Published, Transform;
    forall t | t in active && t != tenant
      ensures Newest(Transform(rows, f), ActiveOf(t)) == Newest(rows, ActiveOf(t))
    {
      NewestTransform(rows, f, ActiveOf(t));
      NewestMeans(rows, ActiveOf(t));
    }
    forall t | t in jwks && t != tenant
      ensures Published(Transform(rows, f), t) == Published(rows, t)
    {
      PublishedTransform(rows, f, t);
    }
  }

  /** What the two key lookups find after rows are relabelled. */
  lemma {:induction false} TransformLookups(rows: seq<Key>, f: Key -> Key, id: Uuid, tenant: Uuid, kid: string)
    requires Relabels(f)
    ensures Newest(Transform(rows, f), ById(id)) ==
            match Newest(rows, ById(id)) case None => None case Some(k) => Some(f(k))
    ensures Newest(Transform(rows, f), ByKid(tenant, kid)) ==
            match Newest(rows, ByKid(tenant, kid)) case None => None case Some(k) => Some(f(k))
  {
    hide Newest, Transform;
    NewestTransform(rows, f, ById(id));
    NewestTransform(rows, f, ByKid(tenant, kid));
  }

  lemma UpdateIds(rows: seq<Key>, key: Key, state: KeyState, byId: map<Uuid, Entry<Key>>, now: nat,
                  revokedAt: map<Uuid, nat>)
    requires IdsFaithful(byId, rows, now, revokedAt) && Newest(rows, ById(key.id)) == Some(key)
    ensures IdsFaithful(SetEx(byId, key.id, key.(state := state), now, KEY_TTL),
                        Transform(rows, SetState(key.id, state)), now, revokedAt)
  {
    hide Newest, Transform;
    forall i | i in byId || i == key.id
      ensures Newest(Transform(rows, SetState(key.id, state)), ById(i))
           == if i == key.id then Some(key.(state := state)) else Newest(rows, ById(i))
    {
      TransformLookups(rows, SetState(key.id, state), i, 0, "");
      NewestMeans(rows, ById(i));
    }
  }

  lemma UpdateKids(rows: seq<Key>, key: Key, state: KeyState, byKid: map<(Uuid, string), Entry<Key>>, now: nat,
                   revokedAt: map<Uuid, nat>, next: Uuid)
    requires KidsFaithful(byKid, rows, now, revokedAt) && RowsUnique(rows, next) && key in rows
    ensures KidsFaithful(SetEx(byKid, (key.tenant, key.kid), key.(state := state), now, KEY_TTL),
                         Transform(rows, SetState(key.id, state)), now, revokedAt)
  {
    hide Newest, Transform;
    forall i | i in byKid || i == (key.tenant, key.kid)
      ensures Newest(Transform(rows, SetState(key.id, state)), ByKid(i.0, i.1))
           == if i == (key.tenant, key.kid) then Some(key.(state := state)) else Newest(rows, ByKid(i.0, i.1))
    {
      TransformLookups(rows, SetState(key.id, state), 0, i.0, i.1);
      NewestMeans(rows, ByKid(i.0, i.1));
    }
  }

  lemma UpdateKeeps(s: Repo, id: Uuid, state: KeyState)
    requires Inv(s)
    ensures Inv(UpdateState(s, id, state).0)
  {
    hide Newest, Published, Transform;
    NewestMeans(s.rows, ById(id));
    if Newest(s.rows, ById(id)).Some? {
      var key := Newest(s.rows, ById(id)).value;
      TransformUnique(s.rows, SetState(id, state), s.nextId);
      TransformTenantViews(s.rows, SetState(id, state), key.tenant, s.views.active, s.views.jwks);
      UpdateIds(s.rows, key, state, s.views.byId, s.now, s.revokedAt);
      UpdateKids(s.rows, key, state, s.views.byKid, s.now, s.revokedAt, s.nextId);
    }
  }

  lemma DeleteKeeps(s: Repo, id: Uuid)
    requires Inv(s)
    ensures Inv(Delete(s, id).0)
  {
    hide Newest, Published, Remove;
    NewestMeans(s.rows, ById(id));
    if Newest(s.rows, ById(id)).Some? {
      var s' := Delete(s, id).0;
      forall k
        ensures k in s'.rows <==> k in s.rows && k.id != id
      {
        RemoveMembers(s.rows, id, k);
      }
      forall i | i in s'.views.byId
        ensures Newest(s'.rows, ById(i)) == Newest(s.rows, ById(i))
      {
        NewestRemove(s.rows, id, ById(i));
      }
      forall i | i in s'.views.byKid
        ensures Newest(s'.rows, ByKid(i.0, i.1)) == Newest(s.rows, ByKid(i.0, i.1))
      {
        NewestRemove(s.rows, id, ByKid(i.0, i.1));
      }
      forall t | t in s'.views.active
        ensures Newest(s'.rows, ActiveOf(t)) == Newest(s.rows, ActiveOf(t))
      {
        NewestRemove(s.rows, id, ActiveOf(t));
      }
      forall t | t in s'.views.jwks
        ensures Published(s'.rows, t) == Published(s.rows, t)
      {
        PublishedRemove(s.rows, id, t);
      }
    }
  }

  lemma RevokedFaithful(e: Entry<Key>, found: Option<Key>, revokedAt: map<Uuid, nat>, tenant: Uuid, now: nat)
    requires Faithful(e, found, revokedAt) && e.expiry <= now + KEY_TTL
    requires tenant in revokedAt ==> revokedAt[tenant] <= now
    ensures Faithful(e, match found case None => None case Some(k) => Some(RevokeIn(tenant)(k)),
                     revokedAt[tenant := now])
  {
  }

  lemma RevokeAllKeeps(s: Repo, tenant: Uuid)
    requires Inv(s)
    ensures Inv(RevokeAll(s, tenant))
  {
    hide Newest, Published, Transform;
    var s' := RevokeAll(s, tenant);
    TransformUnique(s.rows, RevokeIn(tenant), s.nextId);
    TransformTenantViews(s.rows, RevokeIn(tenant), tenant, s.views.active, s.views.jwks);
    forall i | i in s.views.byId
      ensures Faithful(s.views.byId[i], Newest(s'.rows, ById(i)), s'.revokedAt)
    {
      TransformLookups(s.rows, RevokeIn(tenant), i, 0, "");
      RevokedFaithful(s.views.byId[i], Newest(s.rows, ById(i)), s.revokedAt, tenant, s.now);
    }
    forall i | i in s.views.byKid
      ensures Faithful(s.views.byKid[i], Newest(s'.rows, ByKid(i.0, i.1)), s'.revokedAt)
    {
      TransformLookups(s.rows, RevokeIn(tenant), 0, i.0, i.1);
      RevokedFaithful(s.views.byKid[i], Newest(s.rows, ByKid(i.0, i.1)), s.revokedAt, tenant, s.now);
    }
  }
}
