/**
 Clients behind a cache that files every entry under two keys, and the token
 version that revokes a client's tokens. As long as `set` writes both keys and
 `delete` finds the second through the first, the two stay in step, every read
 answers as the store would, and so every version bump starts from the current
 version.
 */
module ClientCache {
  import opened Wrappers
  import opened Redis

  type Uuid = nat

  const CACHE_TTL: nat := 3600
  const VERSION_MAX: int := 0x7fff_ffff
  const VERSION_MIN: int := -0x8000_0000

  datatype Status = Active | Disabled | Inactive | Suspended | Pending

  /** The status column as read back: only two of its values come back as other than active. */
  function ReadBack(status: Status): Status {
    if status.Suspended? || status.Disabled? then status else Active
  }

  /** `settings` stands for the columns that nothing here depends on. */
  datatype Client = Client(
    id: Uuid, tenant: Uuid, name: string, confidential: bool, secret: nat, status: Status, version: int, settings: nat)

  datatype Updates = Updates(secret: Option<nat>, version: Option<int>, status: Option<Status>, settings: Option<nat>)

  function Apply(c: Client, u: Updates): Client {
    c.(secret := if u.secret.Some? then u.secret.value else c.secret,
       version := if u.version.Some? then u.version.value else c.version,
       status := if u.status.Some? then ReadBack(u.status.value) else c.status,
       settings := if u.settings.Some? then u.settings.value else c.settings)
  }

  /** `names` is the unique index on tenant and name. */
  datatype Repo = Repo(
    now: nat, nextId: Uuid,
    rows: map<(Uuid, Uuid), Client>, names: map<(Uuid, string), Uuid>,
    byId: map<(Uuid, Uuid), Entry<Client>>, byName: map<(Uuid, string), Entry<Client>>)

  predicate IsInitial(s: Repo) {
    s.rows == map[] && s.names == map[] && s.byId == map[] && s.byName == map[]
  }

  // ── The bare store ───────────────────────────────────────────────────────

  function Stored(s: Repo, tenant: Uuid, id: Uuid): Option<Client> {
    if (tenant, id) in s.rows then Some(s.rows[(tenant, id)]) else None
  }

  function StoredByName(s: Repo, tenant: Uuid, name: string): Option<Client> {
    if (tenant, name) in s.names then Stored(s, tenant, s.names[(tenant, name)]) else None
  }

  // ── The repository ───────────────────────────────────────────────────────

  /** Both keys, same entry. */
  function CacheSet(s: Repo, c: Client): Repo {
    s.(byId := SetEx(s.byId, (c.tenant, c.id), c, s.now, CACHE_TTL),
       byName := SetEx(s.byName, (c.tenant, c.name), c, s.now, CACHE_TTL))
  }

  /** Reads the id entry to learn the name, then deletes both keys. */
  function CacheDelete(s: Repo, tenant: Uuid, id: Uuid): Repo {
    var cached := Read(s.byId, (tenant, id), s.now);
    s.(byId := s.byId - {(tenant, id)},
       byName := if cached.Some? then s.byName - {(tenant, cached.value.name)} else s.byName)
  }

  function Create(s: Repo, tenant: Uuid, name: string, confidential: bool, secret: nat, version: int, settings: nat)
    : (Repo, Option<Client>)
  {
    if (tenant, name) in s.names then (s, None)
    else
      var c := Client(s.nextId, tenant, name, confidential, secret, Active, version, settings);
      (CacheSet(s.(nextId := s.nextId + 1, rows := s.rows[(tenant, c.id) := c],
                   names := s.names[(tenant, name) := c.id]), c),
       Some(c))
  }

  function Get(s: Repo, tenant: Uuid, id: Uuid): (Repo, Option<Client>) {
    match Read(s.byId, (tenant, id), s.now)
    case Some(c) => (s, Some(c))
    case None =>
      match Stored(s, tenant, id)
      case None => (s, None)
      case Some(c) => (CacheSet(s, c), Some(c))
  }

  function GetByName(s: Repo, tenant: Uuid, name: string): (Repo, Option<Client>) {
    match Read(s.byName, (tenant, name), s.now)
    case Some(c) => (s, Some(c))
    case None =>
      match StoredByName(s, tenant, name)
      case None => (s, None)
      case Some(c) => (CacheSet(s, c), Some(c))
  }

  function Update(s: Repo, tenant: Uuid, id: Uuid, u: Updates): (Repo, Option<Client>) {
    match Stored(s, tenant, id)
    case None => (s, None)
    case Some(c) =>
      var c' := Apply(c, u);
      (CacheSet(s.(rows := s.rows[(tenant, id) := c']), c'), Some(c'))
  }

  function Delete(s: Repo, tenant: Uuid, id: Uuid): (Repo, bool) {
    match Stored(s, tenant, id)
    case None => (s, false)
    case Some(c) =>
      (CacheDelete(s.(rows := s.rows - {(tenant, id)}, names := s.names - {(tenant, c.name)}), tenant, id), true)
  }

  // ── The service ──────────────────────────────────────────────────────────

  /** Unchecked 32-bit addition. */
  function Wrap(v: int): int {
    if v > VERSION_MAX then v - (VERSION_MAX - VERSION_MIN + 1) else v
  }

  /** A request to leave the active state advances the version, if the client is active and the version can advance. */
  function UpdateClient(s: Repo, tenant: Uuid, id: Uuid, status: Option<Status>, settings: Option<nat>)
    : (Repo, Option<Client>)
  {
    if status.Some? && status != Some(Active) then
      var (s1, current) := Get(s, tenant, id);
      if current.None? then (s1, None)
      else if !current.value.status.Active? then Update(s1, tenant, id, Updates(None, None, status, settings))
      else if current.value.version == VERSION_MAX then (s1, None)
      else Update(s1, tenant, id, Updates(None, Some(current.value.version + 1), status, settings))
    else Update(s, tenant, id, Updates(None, None, status, settings))
  }

  function RotateVersion(s: Repo, tenant: Uuid, id: Uuid): (Repo, Option<Client>) {
    var (s1, current) := Get(s, tenant, id);
    if current.None? then (s1, None)
    else Update(s1, tenant, id, Updates(None, Some(Wrap(current.value.version + 1)), None, None))
  }

  function RotateSecret(s: Repo, tenant: Uuid, id: Uuid, secret: nat): (Repo, Option<Client>) {
    var (s1, current) := Get(s, tenant, id);
    if current.None? || !current.value.confidential then (s1, None)
    else Update(s1, tenant, id, Updates(Some(secret), Some(Wrap(current.value.version + 1)), None, None))
  }

  /** Whether a token that carries `version` is accepted for the client. */
  predicate Accepts(s: Repo, tenant: Uuid, id: Uuid, version: int) {
    var found := Get(s, tenant, id).1;
    found.Some? && found.value.status.Active? && found.value.version <= version
  }

  datatype Op =
    | Wait(seconds: nat)
    | DoCreate(tenant: Uuid, name: string, confidential: bool, secret: nat, version: int, settings: nat)
    | DoGet(tenant: Uuid, id: Uuid)
    | DoGetByName(tenant: Uuid, name: string)
    | DoDelete(tenant: Uuid, id: Uuid)
    | DoUpdateClient(tenant: Uuid, id: Uuid, status: Option<Status>, change: Option<nat>)
    | DoRotateVersion(tenant: Uuid, id: Uuid)
    | DoRotateSecret(tenant: Uuid, id: Uuid, secret: nat)

  function Step(s: Repo, op: Op): Repo {
    match op
    case Wait(seconds) => s.(now := s.now + seconds)
    case DoCreate(tenant, name, confidential, secret, version, settings) =>
      Create(s, tenant, name, confidential, secret, version, settings).0
    case DoGet(tenant, id) => Get(s, tenant, id).0
    case DoGetByName(tenant, name) => GetByName(s, tenant, name).0
    case DoDelete(tenant, id) => Delete(s, tenant, id).0
    case DoUpdateClient(tenant, id, status, settings) => UpdateClient(s, tenant, id, status, settings).0
    case DoRotateVersion(tenant, id) => RotateVersion(s, tenant, id).0
    case DoRotateSecret(tenant, id, secret) => RotateSecret(s, tenant, id, secret).0
  }

  function Run(s: Repo, ops: seq<Op>): Repo
    decreases ops
  {
    if ops == [] then s else Run(Step(s, ops[0]), ops[1..])
  }

  // ── The invariant ────────────────────────────────────────────────────────

  ghost predicate Indexed(rows: map<(Uuid, Uuid), Client>, names: map<(Uuid, string), Uuid>, next: Uuid) {
    && (forall k :: k in rows ==> rows[k].tenant == k.0 && rows[k].id == k.1 && k.1 < next)
    && (forall k :: k in rows ==> (k.0, rows[k].name) in names && names[(k.0, rows[k].name)] == k.1)
    && (forall n :: n in names ==> (n.0, names[n]) in rows && rows[(n.0, names[n])].name == n.1)
  }

  /** A live id entry is the stored row and has its twin under the name. */
  ghost predicate IdEntryFits(s: Repo, k: (Uuid, Uuid)) {
    IsLive(s.byId, k, s.now) ==>
      && k in s.rows && s.byId[k].value == s.rows[k]
      && (k.0, s.rows[k].name) in s.byName && s.byName[(k.0, s.rows[k].name)] == s.byId[k]
  }

  /** A live name entry is the stored row and has its twin under the id. */
  ghost predicate NameEntryFits(s: Repo, n: (Uuid, string)) {
    IsLive(s.byName, n, s.now) ==>
      && n in s.names && (n.0, s.names[n]) in s.byId && s.byId[(n.0, s.names[n])] == s.byName[n]
  }

  ghost predicate Inv(s: Repo) {
    && Indexed(s.rows, s.names, s.nextId)
    && (forall k :: IdEntryFits(s, k))
    && (forall n :: NameEntryFits(s, n))
  }

  lemma CacheSetKeeps(s: Repo, c: Client)
    requires Indexed(s.rows, s.names, s.nextId) && (c.tenant, c.id) in s.rows && s.rows[(c.tenant, c.id)] == c
    requires forall k :: k != (c.tenant, c.id) ==> IdEntryFits(s, k)
    requires forall n :: n != (c.tenant, c.name) ==> NameEntryFits(s, n)
    ensures Inv(CacheSet(s, c))
  {
    var s' := CacheSet(s, c);
    forall k
      ensures IdEntryFits(s', k)
    {
      assert k != (c.tenant, c.id) ==> IdEntryFits(s, k);
    }
    forall n
      ensures NameEntryFits(s', n)
    {
      assert n != (c.tenant, c.name) ==> NameEntryFits(s, n);
    }
  }

  lemma GetKeeps(s: Repo, tenant: Uuid, id: Uuid)
    requires Inv(s)
    ensures Inv(Get(s, tenant, id).0)
    ensures Get(s, tenant, id).1 == Stored(s, tenant, id)
    ensures Get(s, tenant, id).0.rows == s.rows && Get(s, tenant, id).0.nextId == s.nextId
  {
    assert IdEntryFits(s, (tenant, id));
    if Read(s.byId, (tenant, id), s.now).None? && (tenant, id) in s.rows {
      CacheSetKeeps(s, s.rows[(tenant, id)]);
    }
  }

  lemma GetByNameKeeps(s: Repo, tenant: Uuid, name: string)
    requires Inv(s)
    ensures Inv(GetByName(s, tenant, name).0)
    ensures GetByName(s, tenant, name).1 == StoredByName(s, tenant, name)
    ensures GetByName(s, tenant, name).0.rows == s.rows && GetByName(s, tenant, name).0.nextId == s.nextId
  {
    assert NameEntryFits(s, (tenant, name));
    var stored := StoredByName(s, tenant, name);
    if stored.Some? {
      assert IdEntryFits(s, (tenant, stored.value.id));
    }
    if Read(s.byName, (tenant, name), s.now).None? && stored.Some? {
      CacheSetKeeps(s, stored.value);
    }
  }

  lemma InsertIndexed(rows: map<(Uuid, Uuid), Client>, names: map<(Uuid, string), Uuid>, c: Client)
    requires Indexed(rows, names, c.id) && (c.tenant, c.name) !in names
    ensures Indexed(rows[(c.tenant, c.id) := c], names[(c.tenant, c.name) := c.id], c.id + 1)
  {
  }

  lemma CreateKeeps(s: Repo, tenant: Uuid, name: string, confidential: bool, secret: nat, version: int, settings: nat)
    requires Inv(s)
    ensures Inv(Create(s, tenant, name, confidential, secret, version, settings).0)
  {
    hide CacheSet, Indexed;
    if (tenant, name) !in s.names {
      var c := Client(s.nextId, tenant, name, confidential, secret, Active, version, settings);
      InsertIndexed(s.rows, s.names, c);
      var s1 := s.(nextId := s.nextId + 1, rows := s.rows[(tenant, c.id) := c],
                   names := s.names[(tenant, name) := c.id]);
      forall k | k != (tenant, c.id)
        ensures IdEntryFits(s1, k)
      {
        assert IdEntryFits(s, k);
      }
      forall n | n != (tenant, name)
        ensures NameEntryFits(s1, n)
      {
        assert NameEntryFits(s, n);
      }
      CacheSetKeeps(s1, c);
    }
  }

  lemma UpdateKeeps(s: Repo, tenant: Uuid, id: Uuid, u: Updates)
    requires Inv(s)
    ensures Inv(Update(s, tenant, id, u).0)
  {
    if (tenant, id) in s.rows {
      var c' := Apply(s.rows[(tenant, id)], u);
      var s1 := s.(rows := s.rows[(tenant, id) := c']);
      forall k | k != (tenant, id)
        ensures IdEntryFits(s1, k)
      {
        assert IdEntryFits(s, k);
      }
      forall n | n != (tenant, c'.name)
        ensures NameEntryFits(s1, n)
      {
        assert NameEntryFits(s, n);
      }
      CacheSetKeeps(s1, c');
    }
  }

  lemma DeleteKeeps(s: Repo, tenant: Uuid, id: Uuid)
    requires Inv(s)
    ensures Inv(Delete(s, tenant, id).0)
  {
    if (tenant, id) in s.rows {
      var s' := Delete(s, tenant, id).0;
      var name := s.rows[(tenant, id)].name;
      assert IdEntryFits(s, (tenant, id)) && NameEntryFits(s, (tenant, name));
      forall k
        ensures IdEntryFits(s', k)
      {
        assert IdEntryFits(s, k);
      }
      forall n
        ensures NameEntryFits(s', n)
      {
        assert NameEntryFits(s, n);
      }
    }
  }

  lemma WaitKeeps(s: Repo, seconds: nat)
    requires Inv(s)
    ensures Inv(s.(now := s.now + seconds))
  {
    var s' := s.(now := s.now + seconds);
    forall k
      ensures IdEntryFits(s', k)
    {
      assert IdEntryFits(s, k);
    }
    forall n
      ensures NameEntryFits(s', n)
    {
      assert NameEntryFits(s, n);
    }
  }
}
