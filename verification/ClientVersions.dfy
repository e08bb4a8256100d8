/** The cached repository refines the bare store, and a version bump revokes for good. */
module ClientVersions {
  import opened Wrappers
  import opened Redis
  import opened ClientCache

  /** The effect of a read-then-update: the bare store's row, updated from the bare store's row. */
  lemma ServiceKeeps(s: Repo, tenant: Uuid, id: Uuid, status: Option<Status>, settings: Option<nat>, secret: nat)
    requires Inv(s)
    ensures Inv(UpdateClient(s, tenant, id, status, settings).0)
    ensures Inv(RotateVersion(s, tenant, id).0)
    ensures Inv(RotateSecret(s, tenant, id, secret).0)
  {
    hide Get, Update, Inv;
    var (s1, current) := Get(s, tenant, id);
    GetKeeps(s, tenant, id);
    UpdateKeeps(s, tenant, id, Updates(None, None, status, settings));
    UpdateKeeps(s1, tenant, id, Updates(None, None, status, settings));
    if current.Some? {
      var v := current.value.version;
      UpdateKeeps(s1, tenant, id, Updates(None, Some(v + 1), status, settings));
      UpdateKeeps(s1, tenant, id, Updates(None, Some(Wrap(v + 1)), None, None));
      UpdateKeeps(s1, tenant, id, Updates(Some(secret), Some(Wrap(v + 1)), None, None));
    }
  }

  lemma StepKeeps(s: Repo, op: Op)
    requires Inv(s)
    ensures Inv(Step(s, op))
  {
    hide Create, Get, GetByName, Delete, UpdateClient, RotateVersion, RotateSecret, Inv;
    match op
    case Wait(seconds) => WaitKeeps(s, seconds);
    case DoCreate(tenant, name, confidential, secret, version, settings) =>
      CreateKeeps(s, tenant, name, confidential, secret, version, settings);
    case DoGet(tenant, id) => GetKeeps(s, tenant, id);
    case DoGetByName(tenant, name) => GetByNameKeeps(s, tenant, name);
    case DoDelete(tenant, id) => DeleteKeeps(s, tenant, id);
    case DoUpdateClient(tenant, id, status, settings) => ServiceKeeps(s, tenant, id, status, settings, 0);
    case DoRotateVersion(tenant, id) => ServiceKeeps(s, tenant, id, None, None, 0);
    case DoRotateSecret(tenant, id, secret) => ServiceKeeps(s, tenant, id, None, None, secret);
  }

  lemma {:induction false} RunKeeps(s: Repo, ops: seq<Op>)
    requires Inv(s)
    ensures Inv(Run(s, ops))
    decreases ops
  {
    hide Step, Inv;
    if ops != [] {
      StepKeeps(s, ops[0]);
      RunKeeps(Step(s, ops[0]), ops[1..]);
    }
  }

  /** After any run, both lookups answer exactly as the bare store. */
  lemma ReadsAnswerLikeStore(s: Repo, ops: seq<Op>, tenant: Uuid, id: Uuid, name: string)
    requires IsInitial(s)
    ensures var s' := Run(s, ops);
            && Get(s', tenant, id).1 == Stored(s', tenant, id)
            && GetByName(s', tenant, name).1 == StoredByName(s', tenant, name)
  {
    hide Get, GetByName;
    RunKeeps(s, ops);
    GetKeeps(Run(s, ops), tenant, id);
    GetByNameKeeps(Run(s, ops), tenant, name);
  }

  /** After any run, a stored client is cached under both keys with one entry, or under neither. */
  lemma KeysAreTwins(s: Repo, ops: seq<Op>, tenant: Uuid, id: Uuid)
    requires IsInitial(s) && (tenant, id) in Run(s, ops).rows
    ensures var s' := Run(s, ops);
            var n := (tenant, s'.rows[(tenant, id)].name);
            && (IsLive(s'.byId, (tenant, id), s'.now) <==> IsLive(s'.byName, n, s'.now))
            && (IsLive(s'.byId, (tenant, id), s'.now) ==> s'.byId[(tenant, id)] == s'.byName[n])
  {
    RunKeeps(s, ops);
    var s' := Run(s, ops);
    assert IdEntryFits(s', (tenant, id));
    assert NameEntryFits(s', (tenant, s'.rows[(tenant, id)].name));
  }

  // ── Versions ─────────────────────────────────────────────────────────────

  /** The request would advance the version of this client past its 32-bit range. */
  ghost predicate Overflows(s: Repo, op: Op, tenant: Uuid, id: Uuid) {
    && (op == DoRotateVersion(tenant, id) || (op.DoRotateSecret? && op.tenant == tenant && op.id == id))
    && (tenant, id) in s.rows && s.rows[(tenant, id)].version == VERSION_MAX
  }

  ghost predicate NeverOverflows(s: Repo, ops: seq<Op>, tenant: Uuid, id: Uuid)
    decreases ops
  {
    ops == [] || (!Overflows(s, ops[0], tenant, id) && NeverOverflows(Step(s, ops[0]), ops[1..], tenant, id))
  }

  /** The client is gone for good or its version is at least `v`. */
  ghost predicate AtLeast(s: Repo, tenant: Uuid, id: Uuid, v: int) {
    id < s.nextId && ((tenant, id) in s.rows ==> v <= s.rows[(tenant, id)].version <= VERSION_MAX)
  }

  lemma UpdateRow(s: Repo, t: Uuid, i: Uuid, u: Updates, tenant: Uuid, id: Uuid)
    ensures var s' := Update(s, t, i, u).0;
            && s'.nextId == s.nextId
            && ((tenant, id) in s'.rows <==> (tenant, id) in s.rows)
            && ((tenant, id) in s.rows ==>
                  s'.rows[(tenant, id)] ==
                  if (t, i) == (tenant, id) then Apply(s.rows[(tenant, id)], u) else s.rows[(tenant, id)])
  {
  }

  lemma UpdateClientKeepsVersion(s: Repo, op: Op, tenant: Uuid, id: Uuid, v: int)
    requires Inv(s) && AtLeast(s, tenant, id, v) && op.DoUpdateClient?
    ensures AtLeast(Step(s, op), tenant, id, v)
  {
    hide Get, Update, Inv;
    var (s1, current) := Get(s, op.tenant, op.id);
    GetKeeps(s, op.tenant, op.id);
    UpdateRow(s, op.tenant, op.id, Updates(None, None, op.status, op.change), tenant, id);
    UpdateRow(s1, op.tenant, op.id, Updates(None, None, op.status, op.change), tenant, id);
    if current.Some? {
      UpdateRow(s1, op.tenant, op.id, Updates(None, Some(current.value.version + 1), op.status, op.change), tenant, id);
    }
  }

  lemma RotationKeepsVersion(s: Repo, op: Op, tenant: Uuid, id: Uuid, v: int)
    requires Inv(s) && AtLeast(s, tenant, id, v) && !Overflows(s, op, tenant, id)
    requires op.DoRotateVersion? || op.DoRotateSecret?
    ensures AtLeast(Step(s, op), tenant, id, v)
  {
    hide Get, Update, Inv;
    var (s1, current) := Get(s, op.tenant, op.id);
    GetKeeps(s, op.tenant, op.id);
    if current.Some? {
      var next := Some(Wrap(current.value.version + 1));
      UpdateRow(s1, op.tenant, op.id, Updates(None, next, None, None), tenant, id);
      if op.DoRotateSecret? {
        UpdateRow(s1, op.tenant, op.id, Updates(Some(op.secret), next, None, None), tenant, id);
      }
    }
  }

  lemma StepKeepsVersion(s: Repo, op: Op, tenant: Uuid, id: Uuid, v: int)
    requires Inv(s) && AtLeast(s, tenant, id, v) && !Overflows(s, op, tenant, id)
    ensures AtLeast(Step(s, op), tenant, id, v)
  {
    hide Inv, UpdateClient, RotateVersion, RotateSecret;
    match op
    case DoGet(t, i) => GetKeeps(s, t, i);
    case DoGetByName(t, n) => GetByNameKeeps(s, t, n);
    case DoUpdateClient(_, _, _, _) => UpdateClientKeepsVersion(s, op, tenant, id, v);
    case DoRotateVersion(_, _) => RotationKeepsVersion(s, op, tenant, id, v);
    case DoRotateSecret(_, _, _) => RotationKeepsVersion(s, op, tenant, id, v);
    case _ =>
  }

  /** Below its 32-bit limit a client's version never decreases, and a deleted client never returns. */
  lemma {:induction false} VersionNeverDecreases(s: Repo, ops: seq<Op>, tenant: Uuid, id: Uuid, v: int)
    requires Inv(s) && AtLeast(s, tenant, id, v) && NeverOverflows(s, ops, tenant, id)
    ensures AtLeast(Run(s, ops), tenant, id, v) && Inv(Run(s, ops))
    decreases ops
  {
    hide Step, Inv, Overflows;
    if ops != [] {
      StepKeeps(s, ops[0]);
      StepKeepsVersion(s, ops[0], tenant, id, v);
      VersionNeverDecreases(Step(s, ops[0]), ops[1..], tenant, id, v);
    }
  }

  /** A rotation, or a request to leave the active state while the client reads as active. */
  ghost predicate Revokes(s: Repo, op: Op, tenant: Uuid, id: Uuid) {
    && (tenant, id) in s.rows
    && var c := s.rows[(tenant, id)];
       || op == DoRotateVersion(tenant, id)
       || (op.DoRotateSecret? && op.tenant == tenant && op.id == id && c.confidential)
       || (&& op.DoUpdateClient? && op.tenant == tenant && op.id == id && op.status.Some?
           && !op.status.value.Active? && c.status.Active?)
  }

  /** Reading a stored client gives its row and leaves the rows alone. */
  lemma GetReads(s: Repo, tenant: Uuid, id: Uuid)
    requires Inv(s) && (tenant, id) in s.rows
    ensures var (s', current) := Get(s, tenant, id);
            current == Some(s.rows[(tenant, id)]) && s'.rows == s.rows && s'.nextId == s.nextId
    ensures id < s.nextId
  {
    hide Get;
    GetKeeps(s, tenant, id);
  }

  lemma RevokingAdvances(s: Repo, op: Op, tenant: Uuid, id: Uuid)
    requires Inv(s) && Revokes(s, op, tenant, id) && s.rows[(tenant, id)].version < VERSION_MAX
    ensures (tenant, id) in Step(s, op).rows
    ensures Step(s, op).rows[(tenant, id)].version == s.rows[(tenant, id)].version + 1
    ensures Step(s, op).nextId == s.nextId && id < s.nextId
  {
    hide Get, Update, Inv;
    GetReads(s, tenant, id);
    var (s1, current) := Get(s, tenant, id);
    var next := Some(current.value.version + 1);
    if op.DoRotateVersion? {
      UpdateRow(s1, tenant, id, Updates(None, next, None, None), tenant, id);
    } else if op.DoRotateSecret? {
      UpdateRow(s1, tenant, id, Updates(Some(op.secret), next, None, None), tenant, id);
    } else {
      UpdateRow(s1, tenant, id, Updates(None, next, op.status, op.change), tenant, id);
    }
  }

  /**
   No token minted before a rotation or a disabling transition is accepted again,
   whatever follows, a reactivation included, as long as the version stays within
   its 32-bit range.
   */
  lemma RevokedVersionsStayRevoked(s: Repo, before: seq<Op>, op: Op, after: seq<Op>, tenant: Uuid, id: Uuid,
                                   version: int)
    requires IsInitial(s) && Revokes(Run(s, before), op, tenant, id)
    requires version <= Run(s, before).rows[(tenant, id)].version < VERSION_MAX
    requires NeverOverflows(Step(Run(s, before), op), after, tenant, id)
    ensures !Accepts(Run(Step(Run(s, before), op), after), tenant, id, version)
  {
    hide Step, Get, Overflows, Inv;
    RunKeeps(s, before) by { assert Inv(s) by { InitialFits(s); } }
    var s1 := Run(s, before);
    var v := s1.rows[(tenant, id)].version + 1;
    StepKeeps(s1, op);
    RevokingAdvances(s1, op, tenant, id);
    assert AtLeast(Step(s1, op), tenant, id, v);
    VersionNeverDecreases(Step(s1, op), after, tenant, id, v);
    GetKeeps(Run(Step(s1, op), after), tenant, id);
  }

  lemma InitialFits(s: Repo)
    requires IsInitial(s)
    ensures Inv(s)
  {
  }

  /** Either rotation: of the version alone, or of the secret and the version. */
  ghost predicate Rotates(s: Repo, op: Op, tenant: Uuid, id: Uuid) {
    && (tenant, id) in s.rows
    && (|| op == DoRotateVersion(tenant, id)
        || (op.DoRotateSecret? && op.tenant == tenant && op.id == id && s.rows[(tenant, id)].confidential))
  }

  lemma RotationWraps(s: Repo, op: Op, tenant: Uuid, id: Uuid)
    requires Inv(s) && Rotates(s, op, tenant, id)
    ensures var c := s.rows[(tenant, id)];
            && (tenant, id) in Step(s, op).rows
            && Step(s, op).rows[(tenant, id)].version == Wrap(c.version + 1)
            && Step(s, op).rows[(tenant, id)].status == c.status
  {
    hide Get, Update, Inv;
    GetReads(s, tenant, id);
    var (s1, current) := Get(s, tenant, id);
    var next := Some(Wrap(current.value.version + 1));
    if op.DoRotateVersion? {
      UpdateRow(s1, tenant, id, Updates(None, next, None, None), tenant, id);
    } else {
      UpdateRow(s1, tenant, id, Updates(Some(op.secret), next, None, None), tenant, id);
    }
  }

  /**
   At the limit the property fails: either rotation of an active client wraps the
   version around, and every token minted before is accepted.
   */
  lemma RotationAtTheLimit(s: Repo, op: Op, tenant: Uuid, id: Uuid, version: int)
    requires Inv(s) && Rotates(s, op, tenant, id) && s.rows[(tenant, id)].status.Active?
    requires VERSION_MIN <= version <= s.rows[(tenant, id)].version <= VERSION_MAX
    ensures Accepts(Step(s, op), tenant, id, version) <==> s.rows[(tenant, id)].version == VERSION_MAX
  {
    hide Step, Get, Inv;
    RotationWraps(s, op, tenant, id);
    StepKeeps(s, op);
    GetKeeps(Step(s, op), tenant, id);
  }

  /**
   The limit is two requests away from the start: creation takes the caller's
   version, and one rotation of either kind then lets every earlier token through.
   */
  lemma RotationWrapsFromTheStart(s: Repo, tenant: Uuid, name: string, secret: nat, renewed: nat, ofSecret: bool,
                                  version: int)
    requires IsInitial(s) && VERSION_MIN <= version <= VERSION_MAX
    ensures var create := DoCreate(tenant, name, true, secret, VERSION_MAX, 0);
            var rotate :=
              if ofSecret then DoRotateSecret(tenant, s.nextId, renewed) else DoRotateVersion(tenant, s.nextId);
            && Revokes(Run(s, [create]), rotate, tenant, s.nextId)
            && Accepts(Run(s, [create]), tenant, s.nextId, VERSION_MAX)
            && Accepts(Run(s, [create, rotate]), tenant, s.nextId, version)
  {
    var create := DoCreate(tenant, name, true, secret, VERSION_MAX, 0);
    var rotate := if ofSecret then DoRotateSecret(tenant, s.nextId, renewed) else DoRotateVersion(tenant, s.nextId);
    assert [create, rotate][1..] == [rotate] && [create][1..] == [] && [rotate][1..] == [];
    var s1 := Step(s, create);
    InitialFits(s);
    StepKeeps(s, create);
    assert Run(s, [create]) == Run(s1, []);
    assert Run(s1, [rotate]) == Run(Step(s1, rotate), []);
    RotationAtTheLimit(s1, rotate, tenant, s.nextId, version);
  }

  function Rotations(tenant: Uuid, id: Uuid, n: nat): seq<Op> {
    if n == 0 then [] else [DoRotateVersion(tenant, id)] + Rotations(tenant, id, n - 1)
  }

  lemma {:induction false} RotationsAdvance(s: Repo, tenant: Uuid, id: Uuid, n: nat)
    requires Inv(s) && (tenant, id) in s.rows && s.rows[(tenant, id)].version + n <= VERSION_MAX
    ensures var s' := Run(s, Rotations(tenant, id, n));
            && Inv(s') && (tenant, id) in s'.rows
            && s'.rows[(tenant, id)].version == s.rows[(tenant, id)].version + n
            && s'.rows[(tenant, id)].status == s.rows[(tenant, id)].status
    decreases n
  {
    hide Step, Inv;
    if n > 0 {
      var op := DoRotateVersion(tenant, id);
      RotationWraps(s, op, tenant, id);
      StepKeeps(s, op);
      RotationsAdvance(Step(s, op), tenant, id, n - 1);
      assert Rotations(tenant, id, n)[1..] == Rotations(tenant, id, n - 1);
    }
  }

  /**
   A client created at version 1, as both callers of the service create it, is at the
   limit after `VERSION_MAX - 1` rotations, and the next one lets every token through.
   */
  lemma RotationsReachTheLimit(s: Repo, tenant: Uuid, name: string, secret: nat, version: int)
    requires IsInitial(s) && VERSION_MIN <= version <= VERSION_MAX
    ensures var s1 := Step(s, DoCreate(tenant, name, true, secret, 1, 0));
            var s2 := Run(s1, Rotations(tenant, s.nextId, VERSION_MAX - 1));
            && Accepts(s1, tenant, s.nextId, 1) && !Accepts(s2, tenant, s.nextId, VERSION_MAX - 1)
            && Accepts(Step(s2, DoRotateVersion(tenant, s.nextId)), tenant, s.nextId, version)
  {
    var create := DoCreate(tenant, name, true, secret, 1, 0);
    InitialFits(s);
    StepKeeps(s, create);
    var s1 := Step(s, create);
    assert s1.rows[(tenant, s.nextId)].version == 1 && s1.rows[(tenant, s.nextId)].status.Active?;
    assert Accepts(s1, tenant, s.nextId, 1);
    hide Step, Get, Inv, Run;
    RotationsAdvance(s1, tenant, s.nextId, VERSION_MAX - 1);
    var s2 := Run(s1, Rotations(tenant, s.nextId, VERSION_MAX - 1));
    GetKeeps(s2, tenant, s.nextId);
    RotationAtTheLimit(s2, DoRotateVersion(tenant, s.nextId), tenant, s.nextId, version);
  }

  // ── The repository as an object ──────────────────────────────────────────

  class CachedClients {
    var now: nat
    var nextId: Uuid
    var rows: map<(Uuid, Uuid), Client>
    var names: map<(Uuid, string), Uuid>
    var byId: map<(Uuid, Uuid), Entry<Client>>
    var byName: map<(Uuid, string), Entry<Client>>

    function Value(): Repo
      reads this
    {
      Repo(now, nextId, rows, names, byId, byName)
    }

    method SetBoth(c: Client)
      modifies this`byId, this`byName
      ensures Value() == CacheSet(old(Value()), c)
    {
      byId := SetEx(byId, (c.tenant, c.id), c, now, CACHE_TTL);
      byName := SetEx(byName, (c.tenant, c.name), c, now, CACHE_TTL);
    }

    method DeleteBoth(tenant: Uuid, id: Uuid)
      modifies this`byId, this`byName
      ensures Value() == CacheDelete(old(Value()), tenant, id)
    {
      var cached := Read(byId, (tenant, id), now);
      if cached.Some? {
        byName := byName - {(tenant, cached.value.name)};
      }
      byId := byId - {(tenant, id)};
    }

    method CreateClient(tenant: Uuid, name: string, confidential: bool, secret: nat, version: int, settings: nat)
      returns (r: Option<Client>)
      modifies this
      ensures (Value(), r) == Create(old(Value()), tenant, name, confidential, secret, version, settings)
    {
      if (tenant, name) in names {
        return None;
      }
      var c := Client(nextId, tenant, name, confidential, secret, Active, version, settings);
      nextId := nextId + 1;
      rows := rows[(tenant, c.id) := c];
      names := names[(tenant, name) := c.id];
      SetBoth(c);
      return Some(c);
    }

    method Fetch(tenant: Uuid, id: Uuid) returns (r: Option<Client>)
      modifies this`byId, this`byName
      ensures (Value(), r) == Get(old(Value()), tenant, id)
    {
      r := Read(byId, (tenant, id), now);
      if r.None? {
        r := Stored(Value(), tenant, id);
        if r.Some? {
          SetBoth(r.value);
        }
      }
    }

    method FetchByName(tenant: Uuid, name: string) returns (r: Option<Client>)
      modifies this`byId, this`byName
      ensures (Value(), r) == GetByName(old(Value()), tenant, name)
    {
      r := Read(byName, (tenant, name), now);
      if r.None? {
        r := StoredByName(Value(), tenant, name);
        if r.Some? {
          SetBoth(r.value);
        }
      }
    }

    method UpdateRow(tenant: Uuid, id: Uuid, u: Updates) returns (r: Option<Client>)
      modifies this`rows, this`byId, this`byName
      ensures (Value(), r) == Update(old(Value()), tenant, id, u)
    {
      if (tenant, id) !in rows {
        return None;
      }
      var updated := Apply(rows[(tenant, id)], u);
      rows := rows[(tenant, id) := updated];
      SetBoth(updated);
      return Some(updated);
    }

    method DeleteClient(tenant: Uuid, id: Uuid) returns (ok: bool)
      modifies this`rows, this`names, this`byId, this`byName
      ensures (Value(), ok) == Delete(old(Value()), tenant, id)
    {
      if (tenant, id) !in rows {
        return false;
      }
      names := names - {(tenant, rows[(tenant, id)].name)};
      rows := rows - {(tenant, id)};
      DeleteBoth(tenant, id);
      return true;
    }

    /** Reads the current client only when the request leaves the active state. */
    method ChangeClient(tenant: Uuid, id: Uuid, status: Option<Status>, settings: Option<nat>)
      returns (r: Option<Client>)
      modifies this`rows, this`byId, this`byName
      ensures (Value(), r) == UpdateClient(old(Value()), tenant, id, status, settings)
    {
      hide Get, Update;
      var version: Option<int> := None;
      if status.Some? && status.value != Active {
        var current := Fetch(tenant, id);
        if current.None? {
          return None;
        }
        if current.value.status == Active {
          if current.value.version == VERSION_MAX {
            return None;
          }
          version := Some(current.value.version + 1);
        }
      }
      r := UpdateRow(tenant, id, Updates(None, version, status, settings));
    }

    method RotateTokenVersion(tenant: Uuid, id: Uuid) returns (r: Option<Client>)
      modifies this`rows, this`byId, this`byName
      ensures (Value(), r) == RotateVersion(old(Value()), tenant, id)
    {
      hide Get, Update;
      r := Fetch(tenant, id);
      if r.Some? {
        r := UpdateRow(tenant, id, Updates(None, Some(Wrap(r.value.version + 1)), None, None));
      }
    }
  }
}
