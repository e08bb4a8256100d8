/** The key repository and the rotation service as they update store and cache, call by call. */
module KeyRepository {
  import opened Wrappers
  import opened Redis
  import opened KeyViews
  import KeyRotation

  class CachedKeys {
    var now: nat
    var nextId: Uuid
    var rows: seq<Key>
    var byId: map<Uuid, Entry<Key>>
    var byKid: map<(Uuid, string), Entry<Key>>
    var active: map<Uuid, Entry<Key>>
    var jwks: map<Uuid, Entry<seq<Key>>>
    ghost var revokedAt: map<Uuid, nat>

    ghost function Value(): Repo
      reads this
    {
      Repo(now, nextId, rows, Views(byId, byKid, active, jwks), revokedAt)
    }

    constructor (now: nat)
      ensures IsInitial(Value()) && this.now == now
    {
      this.now, nextId, rows := now, 0, [];
      byId, byKid, active, jwks := map[], map[], map[], map[];
      revokedAt := map[];
    }

    method CreateKey(tenant: Uuid, kid: string) returns (r: Option<Key>)
      modifies this
      ensures (Value(), r) == Create(old(Value()), tenant, kid)
    {
      if Newest(rows, ByKid(tenant, kid)).Some? {
        return None;
      }
      var key := Key(nextId, tenant, kid, Active);
      nextId := nextId + 1;
      rows := rows + [key];
      byId := SetEx(byId, key.id, key, now, KEY_TTL);
      byKid := SetEx(byKid, (key.tenant, key.kid), key, now, KEY_TTL);
      jwks := jwks - {tenant};
      active := active - {tenant};
      return Some(key);
    }

    method Get(id: Uuid) returns (r: Option<Key>)
      modifies this`byId
      ensures (Value(), r) == GetById(old(Value()), id)
    {
      r := Read(byId, id, now);
      if r.None? {
        r := Newest(rows, ById(id));
        if r.Some? {
          byId := SetEx(byId, r.value.id, r.value, now, KEY_TTL);
        }
      }
    }

    method FindByKid(tenant: Uuid, kid: string) returns (r: Option<Key>)
      modifies this`byKid
      ensures (Value(), r) == GetByKid(old(Value()), tenant, kid)
    {
      r := Read(byKid, (tenant, kid), now);
      if r.None? {
        r := Newest(rows, ByKid(tenant, kid));
        if r.Some? {
          byKid := SetEx(byKid, (r.value.tenant, r.value.kid), r.value, now, KEY_TTL);
        }
      }
    }

    method ActiveForTenant(tenant: Uuid) returns (r: Option<Key>)
      modifies this`active
      ensures (Value(), r) == GetActive(old(Value()), tenant)
    {
      r := Read(active, tenant, now);
      if r.None? {
        r := Newest(rows, ActiveOf(tenant));
        if r.Some? {
          active := SetEx(active, r.value.tenant, r.value, now, ACTIVE_TTL);
        }
      }
    }

    method ListForJwks(tenant: Uuid) returns (r: seq<Key>)
      modifies this`jwks
      ensures (Value(), r) == ListJwks(old(Value()), tenant)
    {
      var cached := Read(jwks, tenant, now);
      if cached.Some? {
        return cached.value;
      }
      r := Published(rows, tenant);
      jwks := SetEx(jwks, tenant, r, now, JWKS_TTL);
    }

    method Update(id: Uuid, state: KeyState) returns (r: Option<Key>)
      modifies this
      ensures (Value(), r) == UpdateState(old(Value()), id, state)
    {
      var found := Newest(rows, ById(id));
      if found.None? {
        return None;
      }
      rows := Transform(rows, SetState(id, state));
      var updated := found.value.(state := state);
      byId := SetEx(byId, id, updated, now, KEY_TTL);
      byKid := SetEx(byKid, (updated.tenant, updated.kid), updated, now, KEY_TTL);
      jwks := jwks - {updated.tenant};
      active := active - {updated.tenant};
      return Some(updated);
    }

    method DeleteKey(id: Uuid) returns (ok: bool)
      modifies this
      ensures (Value(), ok) == Delete(old(Value()), id)
    {
      var key := Newest(rows, ById(id));
      if key.None? {
        return false;
      }
      rows := Remove(rows, id);
      byId := byId - {id};
      byKid := byKid - {(key.value.tenant, key.value.kid)};
      jwks := jwks - {key.value.tenant};
      active := active - {key.value.tenant};
      return true;
    }

    method RevokeAllForTenant(tenant: Uuid)
      modifies this
      ensures Value() == RevokeAll(old(Value()), tenant)
    {
      rows := Transform(rows, RevokeIn(tenant));
      jwks := jwks - {tenant};
      active := active - {tenant};
      revokedAt := revokedAt[tenant := now];
    }

    /** Reads the active key, creates its successor and only then retires it. */
    method RotateKeys(tenant: Uuid, kid: string, revokeExisting: bool) returns (r: Option<Key>)
      requires Inv(Value()) && Newest(rows, ByKid(tenant, kid)).None?
      modifies this
      ensures Inv(Value())
      ensures var points := KeyRotation.Rotate(old(Value()), tenant, kid, revokeExisting);
              Value() == points[|points| - 1]
      ensures r == Some(Key(old(nextId), tenant, kid, Active))
    {
      hide Inv, GetActive, Create, UpdateState;
      ghost var points := KeyRotation.Rotate(Value(), tenant, kid, revokeExisting);
      KeyRotation.RotationPointsFit(Value(), tenant, kid, revokeExisting);
      KeyRotation.ActiveAnswer(Value(), tenant);
      var current := ActiveForTenant(tenant);
      CreatedKey(Value(), tenant, kid);
      r := CreateKey(tenant, kid);
      if current.Some? {
        var _ := Update(current.value.id, if revokeExisting then Revoked else Expired);
      }
      assert Value() == points[|points| - 1];
    }
  }

  lemma CreatedKey(s: Repo, tenant: Uuid, kid: string)
    requires Newest(s.rows, ByKid(tenant, kid)).None?
    ensures Create(s, tenant, kid).1 == Some(Key(s.nextId, tenant, kid, Active))
  {
  }
}
