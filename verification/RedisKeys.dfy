/**
 The flat key strings that all caches share one Redis with. Printing is injective
 over every family, so the store may be modelled as one typed map per family.
 */
module RedisKeys {
  import opened Redis

  datatype Kind =
    | SsoToken | AuthCode | PasswordReset | MagicLink | MfaUsed | MfaAttempts | SsoEpoch | PasswordResetThrottle
    | LoginAccountAttempts | LoginTenantAttempts | LoginIpAttempts

  datatype Key =
    | Transient(kind: Kind, key: string)
    | ClientById(tenant: string, id: string)
    | ClientByName(tenant: string, name: string)
    | MfaVerified(tenant: string, id: string)
    | KeyById(id: string)
    | KeyByKid(tenant: string, kid: string)
    | KeyActive(tenant: string)
    | KeyJwks(tenant: string)
    | Permissions(id: string)
    | IdentityById(pool: string, id: string)
    | TenantById(id: string)
    | TenantBySlug(slug: string)

  predicate IsUuidChar(c: char) { '0' <= c <= '9' || 'a' <= c <= 'f' || c == '-' }

  /** A printed UUID. */
  predicate IsUuid(s: string) {
    |s| == 36 && forall i :: 0 <= i < |s| ==> IsUuidChar(s[i])
  }

  /** Identifiers are UUIDs; names, kids, slugs and transient keys are any strings at all. */
  predicate IsKey(k: Key) {
    match k
    case Transient(_, _) => true
    case ClientById(tenant, id) => IsUuid(tenant) && IsUuid(id)
    case ClientByName(tenant, _) => IsUuid(tenant)
    case MfaVerified(tenant, id) => IsUuid(tenant) && IsUuid(id)
    case KeyById(id) => IsUuid(id)
    case KeyByKid(tenant, _) => IsUuid(tenant)
    case KeyActive(tenant) => IsUuid(tenant)
    case KeyJwks(tenant) => IsUuid(tenant)
    case Permissions(id) => IsUuid(id)
    case IdentityById(pool, id) => IsUuid(pool) && IsUuid(id)
    case TenantById(id) => IsUuid(id)
    case TenantBySlug(_) => true
  }

  function Prefix(kind: Kind): string {
    match kind
    case SsoToken => "sso"
    case AuthCode => "auth_code"
    case PasswordReset => "pwd_reset"
    case MagicLink => "magic_link"
    case MfaUsed => "mfa_used"
    case MfaAttempts => "mfa_att"
    case SsoEpoch => "sso_epoch"
    case PasswordResetThrottle => "pwd_reset_throttle"
    case LoginAccountAttempts => "login_att_acct"
    case LoginTenantAttempts => "login_att_tenant"
    case LoginIpAttempts => "login_att_ip"
  }

  /** The fields of a key; all but the last are free of colons. */
  function Fields(k: Key): seq<string> {
    match k
    case Transient(kind, key) => [Prefix(kind), key]
    case ClientById(tenant, id) => ["t", tenant, "client", id]
    case ClientByName(tenant, name) => ["t", tenant, "client", "name", name]
    case MfaVerified(tenant, id) => ["t", tenant, "mfa", "verified", id]
    case KeyById(id) => ["key", "id", id]
    case KeyByKid(tenant, kid) => ["key", "tenant", tenant, "kid", kid]
    case KeyActive(tenant) => ["key", "tenant", tenant, "active"]
    case KeyJwks(tenant) => ["key", "tenant", tenant, "jwks"]
    case Permissions(id) => ["auth", "perms", id]
    case IdentityById(pool, id) => ["p", pool, "i", "id", id]
    case TenantById(id) => ["tenant", "v2", id]
    case TenantBySlug(slug) => ["tenant", "v2", "slug", slug]
  }

  function Join(fields: seq<string>): string {
    if fields == [] then ""
    else if |fields| == 1 then fields[0]
    else fields[0] + ":" + Join(fields[1..])
  }

  function Print(k: Key): string { Join(Fields(k)) }

  // ── Splitting at the first colon ─────────────────────────────────────────

  predicate Plain(s: string) { forall i :: 0 <= i < |s| ==> s[i] != ':' }

  /** Where the first field ends, the next begins. */
  lemma SplitUnique(a: string, x: string, b: string, y: string)
    requires Plain(a) && Plain(b) && a + ":" + x == b + ":" + y
    ensures a == b && x == y
  {
    var s := a + ":" + x;
    assert s[|a|] == ':' && s[|b|] == ':';
    assert forall i :: 0 <= i < |a| ==> s[i] == a[i];
    assert forall i :: 0 <= i < |b| ==> s[i] == b[i];
    assert |a| == |b|;
    assert a == s[..|a|] && b == s[..|b|];
    assert x == s[|a| + 1..] && y == s[|b| + 1..];
  }

  lemma PlainHasNoColon(s: string, a: string, x: string)
    requires Plain(s)
    ensures s != a + ":" + x
  {
    assert (a + ":" + x)[|a|] == ':';
  }

  ghost predicate PlainFront(f: seq<string>) {
    f != [] && forall i :: 0 <= i < |f| - 1 ==> Plain(f[i])
  }

  /** Equal strings have equal fields, one by one, as far as both go on. */
  lemma {:induction false} PeelFields(f: seq<string>, g: seq<string>, n: nat)
    requires PlainFront(f) && PlainFront(g) && Join(f) == Join(g)
    requires n < |f| && n < |g|
    ensures f[..n] == g[..n] && Join(f[n..]) == Join(g[n..])
  {
    hide Join;
    if n == 0 {
      assert f[0..] == f && g[0..] == g;
    } else {
      JoinCons(f);
      JoinCons(g);
      SplitUnique(f[0], Join(f[1..]), g[0], Join(g[1..]));
      PeelFields(f[1..], g[1..], n - 1);
      assert f[1..][n - 1..] == f[n..] && g[1..][n - 1..] == g[n..];
      assert f[..n] == [f[0]] + f[1..][..n - 1] && g[..n] == [g[0]] + g[1..][..n - 1];
    }
  }

  lemma JoinCons(f: seq<string>)
    requires |f| >= 2
    ensures Join(f) == f[0] + ":" + Join(f[1..])
  {
  }

  /** Field lists of one length are determined by their printing. */
  lemma SameLengthEqual(f: seq<string>, g: seq<string>)
    requires PlainFront(f) && PlainFront(g) && Join(f) == Join(g) && |f| == |g|
    ensures f == g
  {
    var n := |f| - 1;
    PeelFields(f, g, n);
    assert f[n..] == [f[n]] && g[n..] == [g[n]];
    assert f == f[..n] + [f[n]] && g == g[..n] + [g[n]];
  }

  /** A list that ends in a colon-free field prints like no longer one. */
  lemma ShorterDiffers(f: seq<string>, g: seq<string>)
    requires PlainFront(f) && PlainFront(g) && |f| < |g| && Plain(f[|f| - 1])
    ensures Join(f) != Join(g)
  {
    if Join(f) == Join(g) {
      var n := |f| - 1;
      PeelFields(f, g, n);
      assert f[n..] == [f[n]] && g[n..][1..] == g[n + 1..];
      PlainHasNoColon(f[n], g[n], Join(g[n + 1..]));
    }
  }

  // ── Every family ─────────────────────────────────────────────────────────

  lemma FieldsArePlain(k: Key)
    requires IsKey(k)
    ensures PlainFront(Fields(k)) && |Fields(k)| >= 2
    ensures !k.Transient? && !k.ClientByName? && !k.KeyByKid? && !k.TenantBySlug? ==>
              Plain(Fields(k)[|Fields(k)| - 1])
  {
    if k.Transient? {
      PrefixIsPlain(k.kind);
    }
  }

  lemma PrefixIsPlain(kind: Kind)
    ensures Plain(Prefix(kind))
  {
  }

  /** No transient prefix is the first field of another family. */
  lemma PrefixIsTransient(kind: Kind)
    ensures Prefix(kind) != "t" && Prefix(kind) != "key" && Prefix(kind) != "auth"
    ensures Prefix(kind) != "p" && Prefix(kind) != "tenant"
  {
  }

  /** Two keys of the same printing have the same number of fields. */
  lemma SameLength(k: Key, l: Key)
    requires IsKey(k) && IsKey(l) && Print(k) == Print(l)
    ensures |Fields(k)| <= |Fields(l)|
  {
    FieldsArePlain(k);
    FieldsArePlain(l);
    if |Fields(l)| < |Fields(k)| {
      PeelFields(Fields(k), Fields(l), 1);
      assert Fields(k)[0] == Fields(k)[..1][0] == Fields(l)[..1][0] == Fields(l)[0];
      if l.Transient? {
        PrefixIsTransient(l.kind);
      } else if Plain(Fields(l)[|Fields(l)| - 1]) {
        ShorterDiffers(Fields(l), Fields(k));
      } else {
        OpenEndedIsLongest(k, l);
      }
    }
  }

  /** A family whose last field is free text has as many fields as any family with its first field. */
  lemma OpenEndedIsLongest(k: Key, l: Key)
    requires Fields(k)[0] == Fields(l)[0] && !k.Transient? && !l.Transient?
    requires l.ClientByName? || l.KeyByKid? || l.TenantBySlug?
    ensures |Fields(k)| <= |Fields(l)|
  {
  }

  /** The families are disjoint and every key string names one key. */
  lemma PrintInjective(k: Key, l: Key)
    requires IsKey(k) && IsKey(l) && Print(k) == Print(l)
    ensures k == l
  {
    FieldsArePlain(k);
    FieldsArePlain(l);
    SameLength(k, l);
    SameLength(l, k);
    SameLengthEqual(Fields(k), Fields(l));
    FieldsInjective(k, l);
  }

  lemma FieldsInjective(k: Key, l: Key)
    requires Fields(k) == Fields(l)
    ensures k == l
  {
  }

  // ── Composite transient keys ─────────────────────────────────────────────

  function EpochKey(tenant: string, identity: string): string { tenant + ":" + identity }

  function SelfAttemptsKey(identity: string): string { "self" + ":" + identity }

  lemma EpochKeyInjective(t: string, i: string, u: string, j: string)
    requires Plain(t) && Plain(u) && EpochKey(t, i) == EpochKey(u, j)
    ensures t == u && i == j
  {
    SplitUnique(t, i, u, j);
  }

  /** The per-identity attempt counter never meets a per-challenge one. */
  lemma SelfAttemptsApart(identity: string, jti: string)
    requires Plain(jti)
    ensures SelfAttemptsKey(identity) != jti
  {
    PlainHasNoColon(jti, "self", identity);
  }

  // ── The flat store ───────────────────────────────────────────────────────

  /** What one key reads is changed by writes to that key only. */
  lemma WritesStayInFamily(entries: map<string, Entry<string>>, k: Key, l: Key, e: Entry<string>, now: nat)
    requires IsKey(k) && IsKey(l) && k != l
    ensures Read(entries[Print(k) := e], Print(l), now) == Read(entries, Print(l), now)
    ensures Read(entries - {Print(k)}, Print(l), now) == Read(entries, Print(l), now)
  {
    if Print(k) == Print(l) {
      PrintInjective(k, l);
    }
  }
}
