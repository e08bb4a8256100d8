/**
 What the cached views answer after any run, and what rotation does to the
 signing key and to tokens already signed. A token verifies when its kid, looked
 up through the kid view, names the key that signed it and that key is not
 revoked.
 */
module KeyRotation {
  import opened Wrappers
  import opened KeyViews

  lemma StepKeeps(s: Repo, op: Op)
    requires Inv(s)
    ensures Inv(Step(s, op))
  {
    hide Create, GetById, GetByKid, GetActive, ListJwks, UpdateState, Delete, RevokeAll;
    match op
    case Wait(_) =>
    case DoCreate(tenant, kid) => CreateKeeps(s, tenant, kid);
    case DoGet(id) => GetByIdKeeps(s, id);
    case DoGetByKid(tenant, kid) => GetByKidKeeps(s, tenant, kid);
    case DoGetActive(tenant) => GetActiveKeeps(s, tenant);
    case DoListJwks(tenant) => ListJwksKeeps(s, tenant);
    case DoUpdate(id, state) => UpdateKeeps(s, id, state);
    case DoDelete(id) => DeleteKeeps(s, id);
    case DoRevokeAll(tenant) => RevokeAllKeeps(s, tenant);
  }

  lemma {:induction false} RunKeeps(s: Repo, ops: seq<Op>)
    requires Inv(s)
    ensures Inv(Run(s, ops))
    decreases ops
  {
    hide Step, Inv;
    if ops != [] {
      StepKeeps(s, ops[0]);
      RunKeeps(Step(s, ops[0]), ops[1..]);
    }
  }

  // ── What the views answer ────────────────────────────────────────────────

  /** After any run the active view and the JWKS view answer as the store would. */
  lemma TenantViewsExact(s: Repo, ops: seq<Op>, tenant: Uuid)
    requires IsInitial(s)
    ensures var s' := Run(s, ops);
            && GetActive(s', tenant).1 == Newest(s'.rows, ActiveOf(tenant))
            && ListJwks(s', tenant).1 == Published(s'.rows, tenant)
  {
    RunKeeps(s, ops);
  }

  /**
   After any run the id view and the kid view answer as the store would, except
   with a key from before a revocation of all the tenant's keys less than
   `KEY_TTL` seconds ago, which the store has as revoked.
   */
  lemma KeyViewsExact(s: Repo, ops: seq<Op>, id: Uuid, tenant: Uuid, kid: string)
    requires IsInitial(s)
    ensures var s' := Run(s, ops);
            && AnswersWithin(GetById(s', id).1, Newest(s'.rows, ById(id)), s')
            && AnswersWithin(GetByKid(s', tenant, kid).1, Newest(s'.rows, ByKid(tenant, kid)), s')
  {
    hide Newest;
    RunKeeps(s, ops);
  }

  ghost predicate AnswersWithin(answer: Option<Key>, stored: Option<Key>, s: Repo) {
    || answer == stored
    || (&& answer.Some? && stored == Some(answer.value.(state := Revoked))
        && answer.value.tenant in s.revokedAt && s.now < s.revokedAt[answer.value.tenant] + KEY_TTL)
  }

  // ── Tokens ───────────────────────────────────────────────────────────────

  ghost predicate Verifies(s: Repo, tenant: Uuid, kid: string, signer: Uuid) {
    var found := GetByKid(s, tenant, kid).1;
    found.Some? && !found.value.state.Revoked? && found.value.id == signer
  }

  lemma CreateAnswers(s: Repo, tenant: Uuid, kid: string, t: Uuid, k: string)
    requires Newest(s.rows, ByKid(tenant, kid)).None?
    ensures GetByKid(Create(s, tenant, kid).0, t, k).1 ==
            if (t, k) == (tenant, kid) then Create(s, tenant, kid).1 else GetByKid(s, t, k).1
  {
  }

  lemma UpdateAnswers(s: Repo, id: Uuid, state: KeyState, t: Uuid, k: string)
    requires Inv(s) && Newest(s.rows, ById(id)).Some?
    ensures var key := Newest(s.rows, ById(id)).value;
            GetByKid(UpdateState(s, id, state).0, t, k).1 ==
            if (t, k) == (key.tenant, key.kid) then Some(key.(state := state)) else GetByKid(s, t, k).1
  {
    hide Newest, Transform;
    TransformLookups(s.rows, SetState(id, state), id, t, k);
    NewestMeans(s.rows, ById(id));
    NewestMeans(s.rows, ByKid(t, k));
  }

  // ── Rotation ─────────────────────────────────────────────────────────────

  /** The state after each repository call of a rotation: read the active key, create, retire the old one. */
  function Rotate(s: Repo, tenant: Uuid, kid: string, revokeExisting: bool): seq<Repo> {
    var (s1, current) := GetActive(s, tenant);
    var s2 := Create(s1, tenant, kid).0;
    if current.None? then [s, s1, s2]
    else [s, s1, s2, UpdateState(s2, current.value.id, if revokeExisting then Revoked else Expired).0]
  }

  lemma RotationPointsFit(s: Repo, tenant: Uuid, kid: string, revokeExisting: bool)
    requires Inv(s)
    ensures forall i :: 0 <= i < |Rotate(s, tenant, kid, revokeExisting)| ==>
              Inv(Rotate(s, tenant, kid, revokeExisting)[i])
  {
    hide GetActive, Create, UpdateState, Inv;
    var (s1, current) := GetActive(s, tenant);
    GetActiveKeeps(s, tenant);
    CreateKeeps(s1, tenant, kid);
    if current.Some? {
      UpdateKeeps(Create(s1, tenant, kid).0, current.value.id, if revokeExisting then Revoked else Expired);
    }
  }

  /** The active key is the newest row's, before and after the older key is retired. */
  lemma NewKeyIsActive(rows: seq<Key>, key: Key, id: Uuid, state: KeyState)
    requires key.state.Active? && key.id != id
    ensures Newest(rows + [key], ActiveOf(key.tenant)) == Some(key)
    ensures Newest(Transform(rows + [key], SetState(id, state)), ActiveOf(key.tenant)) == Some(key)
  {
  }

  lemma ActiveAnswer(s: Repo, tenant: Uuid)
    requires Inv(s)
    ensures GetActive(s, tenant).1 == Newest(s.rows, ActiveOf(tenant)) && GetActive(s, tenant).0.rows == s.rows
  {
  }

  /**
   A tenant with a signing key has one at every intermediate point of a rotation,
   and from the creation of the new key on it is that key.
   */
  lemma RotationAlwaysSigns(s: Repo, tenant: Uuid, kid: string, revokeExisting: bool, i: nat)
    requires Inv(s) && Newest(s.rows, ByKid(tenant, kid)).None?
    requires i < |Rotate(s, tenant, kid, revokeExisting)|
    ensures var signing := GetActive(Rotate(s, tenant, kid, revokeExisting)[i], tenant).1;
            && (i < 2 ==> signing == GetActive(s, tenant).1)
            && (2 <= i ==> signing == Some(Key(s.nextId, tenant, kid, Active)))
  {
    hide Newest, Transform, Inv;
    var points := Rotate(s, tenant, kid, revokeExisting);
    RotationPointsFit(s, tenant, kid, revokeExisting);
    ActiveAnswer(s, tenant);
    ActiveAnswer(points[i], tenant);
    var key := Key(s.nextId, tenant, kid, Active);
    var current := GetActive(s, tenant).1;
    if current.None? {
      NewKeyIsActive(s.rows, key, s.nextId + 1, Revoked);
    } else {
      ActiveKeyIsOlder(s, tenant);
      NewKeyIsActive(s.rows, key, current.value.id, if revokeExisting then Revoked else Expired);
      RotatedRows(s, tenant, kid, revokeExisting);
    }
  }

  lemma ActiveKeyIsOlder(s: Repo, tenant: Uuid)
    requires Inv(s) && GetActive(s, tenant).1.Some?
    ensures var k := GetActive(s, tenant).1.value;
            && k in s.rows && k.id < s.nextId && k.tenant == tenant && k.state.Active?
            && Newest(s.rows, ById(k.id)) == Some(k)
  {
    hide Newest;
    NewestMeans(s.rows, ActiveOf(tenant));
    var k := GetActive(s, tenant).1.value;
    NewestMeans(s.rows, ById(k.id));
  }

  /** The rows at the four points. */
  lemma RotatedRows(s: Repo, tenant: Uuid, kid: string, revokeExisting: bool)
    requires Inv(s) && Newest(s.rows, ByKid(tenant, kid)).None? && GetActive(s, tenant).1.Some?
    ensures var points := Rotate(s, tenant, kid, revokeExisting);
            var key, k := Key(s.nextId, tenant, kid, Active), GetActive(s, tenant).1.value;
            && |points| == 4 && points[1].rows == s.rows && points[2].rows == s.rows + [key]
            && Newest(points[2].rows, ById(k.id)) == Some(k)
            && points[3].rows == Transform(s.rows + [key], SetState(k.id, if revokeExisting then Revoked else Expired))
  {
    hide Newest, Transform;
    ActiveKeyIsOlder(s, tenant);
    NewestAppend(s.rows, Key(s.nextId, tenant, kid, Active), ById(GetActive(s, tenant).1.value.id));
  }

  /** What each point of a rotation answers for each kid. */
  lemma RotationAnswers(s: Repo, tenant: Uuid, kid: string, revokeExisting: bool, t: Uuid, k: string)
    requires Inv(s) && Newest(s.rows, ByKid(tenant, kid)).None? && GetActive(s, tenant).1.Some?
    ensures var points := Rotate(s, tenant, kid, revokeExisting);
            var key, current := Key(s.nextId, tenant, kid, Active), GetActive(s, tenant).1.value;
            && |points| == 4
            && GetByKid(points[1], t, k).1 == GetByKid(s, t, k).1
            && GetByKid(points[2], t, k).1 == (if (t, k) == (tenant, kid) then Some(key) else GetByKid(s, t, k).1)
            && GetByKid(points[3], t, k).1 ==
               if (t, k) == (tenant, current.kid)
               then Some(current.(state := if revokeExisting then Revoked else Expired))
               else GetByKid(points[2], t, k).1
  {
    hide Newest, Transform, UpdateState, Inv;
    var points := Rotate(s, tenant, kid, revokeExisting);
    var current := GetActive(s, tenant).1.value;
    ActiveKeyIsOlder(s, tenant);
    RotatedRows(s, tenant, kid, revokeExisting);
    RotationPointsFit(s, tenant, kid, revokeExisting);
    CreateAnswers(points[1], tenant, kid, t, k);
    UpdateAnswers(points[2], current.id, if revokeExisting then Revoked else Expired, t, k);
  }

  /** Rotating a tenant without a signing key only adds one. */
  lemma FirstKeyAnswers(s: Repo, tenant: Uuid, kid: string, revokeExisting: bool, t: Uuid, k: string)
    requires Inv(s) && Newest(s.rows, ByKid(tenant, kid)).None? && GetActive(s, tenant).1.None?
    ensures var points := Rotate(s, tenant, kid, revokeExisting);
            && |points| == 3
            && GetByKid(points[1], t, k).1 == GetByKid(s, t, k).1
            && ((t, k) != (tenant, kid) ==> GetByKid(points[2], t, k).1 == GetByKid(s, t, k).1)
  {
    hide Newest, Inv;
    ActiveAnswer(s, tenant);
    CreateAnswers(GetActive(s, tenant).0, tenant, kid, t, k);
  }

  /** Graceful rotation never stops a token from verifying, at any intermediate point. */
  lemma GracefulKeepsTokens(s: Repo, tenant: Uuid, kid: string, i: nat, t: Uuid, k: string, signer: Uuid)
    requires Inv(s) && Newest(s.rows, ByKid(tenant, kid)).None?
    requires i < |Rotate(s, tenant, kid, false)| && Verifies(s, t, k, signer)
    ensures Verifies(Rotate(s, tenant, kid, false)[i], t, k, signer)
  {
    hide Newest, Rotate, Create, UpdateState, GetActive;
    VerifyingIsStored(s, t, k, signer);
    NewestMeans(s.rows, ByKid(t, k));
    if GetActive(s, tenant).1.Some? {
      RotationAnswers(s, tenant, kid, false, t, k);
      ActiveKeyIsOlder(s, tenant);
    } else {
      FirstKeyAnswers(s, tenant, kid, false, t, k);
    }
    assert Rotate(s, tenant, kid, false)[0] == s by { RotateStarts(s, tenant, kid, false); }
  }

  lemma RotateStarts(s: Repo, tenant: Uuid, kid: string, revokeExisting: bool)
    ensures |Rotate(s, tenant, kid, revokeExisting)| >= 3 && Rotate(s, tenant, kid, revokeExisting)[0] == s
  {
  }

  /** Whatever verifies is stored, revoked or not, under that kid and id. */
  lemma VerifyingIsStored(s: Repo, t: Uuid, k: string, signer: Uuid)
    requires Inv(s) && Verifies(s, t, k, signer)
    ensures Newest(s.rows, ByKid(t, k)).Some? && Newest(s.rows, ByKid(t, k)).value.id == signer
  {
  }

  /**
   Emergency rotation at once stops every token that the replaced key signed, if
   there was one, and no other.
   */
  lemma EmergencyStopsExactly(s: Repo, tenant: Uuid, kid: string, t: Uuid, k: string, signer: Uuid)
    requires Inv(s) && Newest(s.rows, ByKid(tenant, kid)).None? && Verifies(s, t, k, signer)
    ensures var points, current := Rotate(s, tenant, kid, true), GetActive(s, tenant).1;
            Verifies(points[|points| - 1], t, k, signer) <==> !(current.Some? && current.value.id == signer)
  {
    RotateStarts(s, tenant, kid, true);
    hide Newest, Create, UpdateState, GetActive, Rotate;
    VerifyingIsStored(s, t, k, signer);
    NewestMeans(s.rows, ByKid(t, k));
    if GetActive(s, tenant).1.Some? {
      RotationAnswers(s, tenant, kid, true, t, k);
      ActiveKeyIsOlder(s, tenant);
    } else {
      FirstKeyAnswers(s, tenant, kid, true, t, k);
    }
  }

  // ── A revoked key stays down ─────────────────────────────────────────────

  /** The key is revoked wherever it is still stored or cached by kid. */
  ghost predicate IsDown(s: Repo, id: Uuid) {
    && id < s.nextId
    && (forall k :: k in s.rows && k.id == id ==> k.state.Revoked?)
    && (forall i :: i in s.views.byKid && s.views.byKid[i].value.id == id ==> s.views.byKid[i].value.state.Revoked?)
  }

  ghost predicate Restores(op: Op, id: Uuid) {
    op.DoUpdate? && op.id == id && !op.state.Revoked?
  }

  lemma StepKeepsDown(s: Repo, op: Op, id: Uuid)
    requires IsDown(s, id) && !Restores(op, id)
    ensures IsDown(Step(s, op), id)
  {
    hide Newest, Published, Transform, Remove;
    match op
    case DoGetByKid(tenant, kid) => NewestMeans(s.rows, ByKid(tenant, kid));
    case DoUpdate(i, state) =>
      NewestMeans(s.rows, ById(i));
      TransformMembers(s.rows, SetState(i, state));
    case DoDelete(i) =>
      forall k
        ensures k in Remove(s.rows, i) <==> k in s.rows && k.id != i
      {
        RemoveMembers(s.rows, i, k);
      }
    case DoRevokeAll(tenant) => TransformMembers(s.rows, RevokeIn(tenant));
    case _ =>
  }

  /** A revoked key's tokens never verify again, unless the key is moved to another state. */
  lemma {:induction false} RevokedKeyStaysDown(s: Repo, ops: seq<Op>, id: Uuid, t: Uuid, k: string)
    requires IsDown(s, id) && forall i :: 0 <= i < |ops| ==> !Restores(ops[i], id)
    ensures !Verifies(Run(s, ops), t, k, id)
    decreases ops
  {
    hide Newest, Step;
    if ops == [] {
      NewestMeans(s.rows, ByKid(t, k));
    } else {
      StepKeepsDown(s, ops[0], id);
      RevokedKeyStaysDown(Step(s, ops[0]), ops[1..], id, t, k);
    }
  }

  /** Revoking a stored key takes it down. */
  lemma UpdateTakesDown(s: Repo, id: Uuid)
    requires Inv(s) && Newest(s.rows, ById(id)).Some?
    ensures IsDown(UpdateState(s, id, Revoked).0, id)
  {
    hide Newest, Transform;
    var s' := UpdateState(s, id, Revoked).0;
    NewestMeans(s.rows, ById(id));
    TransformMembers(s.rows, SetState(id, Revoked));
    forall i | i in s.views.byKid && s.views.byKid[i].value.id == id
      ensures i == (s'.views.byId[id].value.tenant, s'.views.byId[id].value.kid)
    {
      NewestMeans(s.rows, ByKid(i.0, i.1));
    }
  }

  /** The exception is real: expiring a revoked key lets its tokens verify again. */
  lemma ExpiringRestores(s: Repo, id: Uuid)
    requires Inv(s) && Newest(s.rows, ById(id)).Some?
    ensures var key := Newest(s.rows, ById(id)).value;
            Verifies(UpdateState(s, id, Expired).0, key.tenant, key.kid, id)
  {
    hide Newest, UpdateState;
    var key := Newest(s.rows, ById(id)).value;
    NewestMeans(s.rows, ById(id));
    UpdateAnswers(s, id, Expired, key.tenant, key.kid);
  }

  // ── Exactly when it stays down ───────────────────────────────────────────

  ghost predicate Refuses(s: Repo, id: Uuid) {
    forall t, k :: !Verifies(s, t, k, id)
  }

  /** At no point of the run does a token of the key verify. */
  ghost predicate DownThroughout(s: Repo, ops: seq<Op>, id: Uuid)
    decreases ops
  {
    Refuses(s, id) && (ops == [] || DownThroughout(Step(s, ops[0]), ops[1..], id))
  }

  /** No operation of the run moves the key, while it is stored, to a state other than revoked. */
  ghost predicate NeverRestored(s: Repo, ops: seq<Op>, id: Uuid)
    decreases ops
  {
    ops == [] || (&& !(Restores(ops[0], id) && Newest(s.rows, ById(id)).Some?)
                  && NeverRestored(Step(s, ops[0]), ops[1..], id))
  }

  lemma DownRefuses(s: Repo, id: Uuid)
    requires IsDown(s, id)
    ensures Refuses(s, id)
  {
    hide Newest;
    forall t, k ensures !Verifies(s, t, k, id) {
      NewestMeans(s.rows, ByKid(t, k));
    }
  }

  /** Moving a stored key to any state but revoked makes its tokens verify. */
  lemma RestoringRestores(s: Repo, op: Op, id: Uuid)
    requires Inv(s) && Restores(op, id) && Newest(s.rows, ById(id)).Some?
    ensures !Refuses(Step(s, op), id)
  {
    hide Newest, UpdateState, Inv;
    var key := Newest(s.rows, ById(id)).value;
    NewestMeans(s.rows, ById(id));
    UpdateAnswers(s, id, op.state, key.tenant, key.kid);
    assert Verifies(Step(s, op), key.tenant, key.kid, id);
  }

  lemma UnrestoredStaysDown(s: Repo, op: Op, id: Uuid)
    requires IsDown(s, id) && !(Restores(op, id) && Newest(s.rows, ById(id)).Some?)
    ensures IsDown(Step(s, op), id)
  {
    hide Newest;
    if !Restores(op, id) {
      StepKeepsDown(s, op, id);
    }
  }

  /**
   A revoked key's tokens are refused at every point of a run if and only if the
   run never moves the key to another state while it is stored.
   */
  lemma {:induction false} StaysDownExactly(s: Repo, ops: seq<Op>, id: Uuid)
    requires Inv(s) && IsDown(s, id)
    ensures DownThroughout(s, ops, id) <==> NeverRestored(s, ops, id)
    decreases ops
  {
    hide Step, Inv, IsDown, Refuses, Newest;
    DownRefuses(s, id);
    if ops != [] {
      StepKeeps(s, ops[0]);
      if Restores(ops[0], id) && Newest(s.rows, ById(id)).Some? {
        RestoringRestores(s, ops[0], id);
      } else {
        UnrestoredStaysDown(s, ops[0], id);
        StaysDownExactly(Step(s, ops[0]), ops[1..], id);
      }
    }
  }

  lemma CreatedKey(s: Repo, tenant: Uuid, kid: string)
    requires IsInitial(s)
    ensures var s1 := Step(s, DoCreate(tenant, kid));
            && s1.rows == [Key(s.nextId, tenant, kid, Active)] && Verifies(s1, tenant, kid, s.nextId)
            && Newest(s1.rows, ById(s.nextId)) == Some(Key(s.nextId, tenant, kid, Active))
  {
  }

  /** Such a run exists: create a key, revoke it, expire it, and its tokens verify as before. */
  lemma RevivedFromTheStart(s: Repo, tenant: Uuid, kid: string)
    requires IsInitial(s)
    ensures var create, revoke, expire :=
              DoCreate(tenant, kid), DoUpdate(s.nextId, Revoked), DoUpdate(s.nextId, Expired);
            && Verifies(Run(s, [create]), tenant, kid, s.nextId)
            && Refuses(Run(s, [create, revoke]), s.nextId)
            && Verifies(Run(s, [create, revoke, expire]), tenant, kid, s.nextId)
  {
    var create, revoke, expire := DoCreate(tenant, kid), DoUpdate(s.nextId, Revoked), DoUpdate(s.nextId, Expired);
    InitialFits(s);
    CreatedKey(s, tenant, kid);
    hide Refuses, Verifies, IsDown, Inv, Newest, Step, IsInitial;
    var s1 := Step(s, create);
    var s2 := Step(s1, revoke);
    StepKeeps(s, create);
    StepKeeps(s1, revoke);
    RunThree(s, create, revoke, expire);
    UpdateStep(s1, s.nextId, Revoked);
    UpdateStep(s2, s.nextId, Expired);
    UpdateTakesDown(s1, s.nextId);
    DownRefuses(s2, s.nextId);
    RevokedRow(s1, tenant, kid, s.nextId);
    ExpiringRestores(s2, s.nextId);
  }

  lemma InitialFits(s: Repo)
    requires IsInitial(s)
    ensures Inv(s)
  {
  }

  lemma UpdateStep(s: Repo, id: Uuid, state: KeyState)
    ensures Step(s, DoUpdate(id, state)) == UpdateState(s, id, state).0
  {
  }

  lemma RunThree(s: Repo, a: Op, b: Op, c: Op)
    ensures Run(s, [a]) == Step(s, a) && Run(s, [a, b]) == Step(Step(s, a), b)
    ensures Run(s, [a, b, c]) == Step(Step(Step(s, a), b), c)
  {
    hide Step;
    assert [a, b, c][1..] == [b, c] && [b, c][1..] == [c] && [a, b][1..] == [b];
    assert [a][1..] == [] && [b][1..] == [] && [c][1..] == [];
    var s1 := Step(s, a);
    assert Run(s, [a]) == Run(s1, []) && Run(s1, [b]) == Run(Step(s1, b), []);
    assert Run(Step(s1, b), [c]) == Run(Step(Step(s1, b), c), []);
    assert Run(s1, [b, c]) == Run(Step(s1, b), [c]);
  }

  lemma RevokedRow(s: Repo, tenant: Uuid, kid: string, id: Uuid)
    requires s.rows == [Key(id, tenant, kid, Active)]
    ensures Newest(Step(s, DoUpdate(id, Revoked)).rows, ById(id)) == Some(Key(id, tenant, kid, Revoked))
  {
  }
}
