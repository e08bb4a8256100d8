/**
 Scope predicates and the two-stage narrowing applied before every
 identity-bearing token is minted.
 */
module Scopes {
  import opened Wrappers

  const IDENTITY_CREATE := "IdentityCreate"
  const IDENTITY_READ := "IdentityRead"
  const IDENTITY_UPDATE := "IdentityUpdate"
  const IDENTITY_DELETE := "IdentityDelete"
  const TENANT_CREATE := "TenantCreate"

  const OIDC_SCOPES: seq<string> := ["openid", "profile", "email", "address", "phone", "offline_access"]
  const SELF_SERVICE_SCOPES: seq<string> := [IDENTITY_READ, IDENTITY_UPDATE, IDENTITY_DELETE]

  predicate IsOidc(scope: string) { scope in OIDC_SCOPES }

  predicate IsSelfService(scope: string) { scope in SELF_SERVICE_SCOPES }

  /** Scopes that act across tenants. */
  predicate IsPlatform(scope: string) { "Platform" <= scope || scope == TENANT_CREATE }

  /** The elements of `xs` satisfying `keep`, in order. */
  function Filter(xs: seq<string>, keep: string -> bool): seq<string> {
    if xs == [] then []
    else (if keep(xs[0]) then [xs[0]] else []) + Filter(xs[1..], keep)
  }

  ghost predicate Subsequence(xs: seq<string>, ys: seq<string>) {
    xs == []
    || (ys != [] && xs[0] == ys[0] && Subsequence(xs[1..], ys[1..]))
    || (ys != [] && Subsequence(xs, ys[1..]))
  }

  /**
   Narrows `requested` to what the identity holds, then, under
   `requireAdminMfa`, to the self-service floor when no second factor is
   verified. Standard OIDC scopes pass both stages. An empty grant is refused.
   */
  function Permitted(requested: seq<string>, held: set<string>, requireAdminMfa: bool, enrolled: bool)
    : Result<seq<string>, ()>
  {
    var granted := Filter(requested, s => IsOidc(s) || s in held);
    var narrowed :=
      if requireAdminMfa && !enrolled
      then Filter(granted, s => IsSelfService(s) || IsOidc(s))
      else granted;
    if narrowed == [] then Failure(()) else Success(narrowed)
  }

  /** Removes cross-tenant scopes unless the tenant is the platform tenant. */
  function Strip(scopes: seq<string>, tenantIsPlatform: bool): seq<string> {
    if tenantIsPlatform then scopes else Filter(scopes, s => !IsPlatform(s))
  }

  lemma {:induction false} FilterIsSubsequence(xs: seq<string>, keep: string -> bool)
    ensures Subsequence(Filter(xs, keep), xs)
  {
    if xs != [] {
      FilterIsSubsequence(xs[1..], keep);
      if keep(xs[0]) {
        assert Filter(xs, keep)[1..] == Filter(xs[1..], keep);
      } else {
        assert Filter(xs, keep) == Filter(xs[1..], keep);
      }
    }
  }

  /** Filtering keeps exactly the elements that satisfy the test. */
  lemma {:induction false} FilterMembers(xs: seq<string>, keep: string -> bool, x: string)
    ensures x in Filter(xs, keep) <==> x in xs && keep(x)
  {
    if xs != [] {
      FilterMembers(xs[1..], keep, x);
      assert xs == [xs[0]] + xs[1..];
    }
  }

  /** What is kept of a sequence, in order and as often as it occurs, is exactly what satisfies the test. */
  ghost predicate Sifted(kept: seq<string>, from: seq<string>, keep: string -> bool) {
    Subsequence(kept, from) && forall x :: multiset(kept)[x] == if keep(x) then multiset(from)[x] else 0
  }

  lemma FilterSifts(xs: seq<string>, keep: string -> bool)
    ensures Sifted(Filter(xs, keep), xs, keep)
  {
    FilterIsSubsequence(xs, keep);
    forall x ensures multiset(Filter(xs, keep))[x] == if keep(x) then multiset(xs)[x] else 0 {
      FilterCounts(xs, keep, x);
    }
  }

  lemma {:induction false} FilterCounts(xs: seq<string>, keep: string -> bool, x: string)
    ensures multiset(Filter(xs, keep))[x] == if keep(x) then multiset(xs)[x] else 0
  {
    if xs != [] {
      FilterCounts(xs[1..], keep, x);
      assert xs == [xs[0]] + xs[1..];
    }
  }

  lemma SiftedTwice(a: seq<string>, b: seq<string>, c: seq<string>, first: string -> bool, second: string -> bool,
                    both: string -> bool)
    requires Sifted(b, c, first) && Sifted(a, b, second)
    requires forall x :: both(x) == (first(x) && second(x))
    ensures Sifted(a, c, both)
  {
    SubsequenceTransitive(a, b, c);
  }

  /** Exactly the cross-tenant scopes are gone, and only outside the platform tenant. */
  ghost predicate IsStripped(kept: seq<string>, from: seq<string>, tenantIsPlatform: bool) {
    Sifted(kept, from, x => tenantIsPlatform || !IsPlatform(x))
  }

  lemma StripSifts(scopes: seq<string>, tenantIsPlatform: bool)
    ensures IsStripped(Strip(scopes, tenantIsPlatform), scopes, tenantIsPlatform)
  {
    if tenantIsPlatform {
      SubsequenceReflexive(scopes);
    } else {
      FilterSifts(scopes, s => !IsPlatform(s));
    }
  }

  lemma {:induction false} SubsequenceReflexive(xs: seq<string>)
    ensures Subsequence(xs, xs)
  {
    if xs != [] {
      SubsequenceReflexive(xs[1..]);
    }
  }

  lemma {:induction false} SubsequenceTransitive(xs: seq<string>, ys: seq<string>, zs: seq<string>)
    requires Subsequence(xs, ys) && Subsequence(ys, zs)
    ensures Subsequence(xs, zs)
    decreases |ys| + |zs|
  {
    if xs != [] && zs != [] {
      if ys[0] == zs[0] && Subsequence(ys[1..], zs[1..]) {
        if xs[0] == ys[0] && Subsequence(xs[1..], ys[1..]) {
          SubsequenceTransitive(xs[1..], ys[1..], zs[1..]);
        } else {
          SubsequenceTransitive(xs, ys[1..], zs[1..]);
        }
      } else {
        SubsequenceTransitive(xs, ys, zs[1..]);
      }
    }
  }

  lemma StripIsSubsequence(scopes: seq<string>, tenantIsPlatform: bool)
    ensures Subsequence(Strip(scopes, tenantIsPlatform), scopes)
  {
    FilterIsSubsequence(scopes, s => !IsPlatform(s));
    SubsequenceReflexive(scopes);
  }

  lemma PermittedIsSubsequence(requested: seq<string>, held: set<string>, requireAdminMfa: bool, enrolled: bool)
    requires Permitted(requested, held, requireAdminMfa, enrolled).Success?
    ensures Subsequence(Permitted(requested, held, requireAdminMfa, enrolled).value, requested)
  {
    var granted := Filter(requested, s => IsOidc(s) || s in held);
    FilterIsSubsequence(requested, s => IsOidc(s) || s in held);
    if requireAdminMfa && !enrolled {
      FilterIsSubsequence(granted, s => IsSelfService(s) || IsOidc(s));
      SubsequenceTransitive(Filter(granted, s => IsSelfService(s) || IsOidc(s)), granted, requested);
    }
  }

  /** An identity holding these permissions may be granted this scope. */
  ghost predicate MayHold(scope: string, held: set<string>, requireAdminMfa: bool, enrolled: bool) {
    IsOidc(scope) || (scope in held && (requireAdminMfa && !enrolled ==> IsSelfService(scope)))
  }

  /**
   Exactly which scopes survive the narrowing: those requested that are OIDC
   scopes or held, and self-service (or OIDC) when the policy applies to an
   identity without a verified factor. The request is refused exactly when
   nothing survives.
   */
  ghost predicate Survives(scope: string, requested: seq<string>, held: set<string>,
    requireAdminMfa: bool, enrolled: bool)
  {
    scope in requested && MayHold(scope, held, requireAdminMfa, enrolled)
  }

  lemma PermittedExactly(requested: seq<string>, held: set<string>, requireAdminMfa: bool, enrolled: bool)
    ensures match Permitted(requested, held, requireAdminMfa, enrolled)
            case Success(granted) =>
              forall x :: x in granted <==> Survives(x, requested, held, requireAdminMfa, enrolled)
            case Failure(_) =>
              forall x :: !Survives(x, requested, held, requireAdminMfa, enrolled)
  {
    var granted := Filter(requested, s => IsOidc(s) || s in held);
    var narrowed :=
      if requireAdminMfa && !enrolled then Filter(granted, s => IsSelfService(s) || IsOidc(s)) else granted;
    forall x
      ensures x in narrowed <==> Survives(x, requested, held, requireAdminMfa, enrolled)
    {
      FilterMembers(requested, s => IsOidc(s) || s in held, x);
      FilterMembers(granted, s => IsSelfService(s) || IsOidc(s), x);
    }
  }

  /** What is left to an identity without a factor where the policy asks for one. */
  lemma FloorExactly(scope: string, held: set<string>)
    ensures MayHold(scope, held, true, false) <==>
              || scope in ["openid", "profile", "email", "address", "phone", "offline_access"]
              || (scope in held && scope in ["IdentityRead", "IdentityUpdate", "IdentityDelete"])
    ensures IsPlatform(scope) <==> (8 <= |scope| && scope[..8] == "Platform") || scope == "TenantCreate"
  {
  }

  /** The narrowing grants each surviving scope as often and in the order in which it was requested. */
  lemma PermittedSifts(requested: seq<string>, held: set<string>, requireAdminMfa: bool, enrolled: bool)
    requires Permitted(requested, held, requireAdminMfa, enrolled).Success?
    ensures Sifted(Permitted(requested, held, requireAdminMfa, enrolled).value, requested,
                   x => MayHold(x, held, requireAdminMfa, enrolled))
  {
    var first := s => IsOidc(s) || s in held;
    var second := s => IsSelfService(s) || IsOidc(s);
    var both := x => MayHold(x, held, requireAdminMfa, enrolled);
    var granted := Filter(requested, first);
    FilterSifts(requested, first);
    if requireAdminMfa && !enrolled {
      FilterSifts(granted, second);
      SiftedTwice(Filter(granted, second), granted, requested, first, second, both);
    }
  }
}
