/**
 From host names to tenants and back: the Host header of a request is parsed
 against the base domain to find the tenant's slug, and the issuer is printed from
 the slug. The two agree for every slug a tenant may have.
 */
module TenantHost {
  import opened Wrappers

  // ── Slugs ────────────────────────────────────────────────────────────────

  predicate IsDigit(c: char) { '0' <= c <= '9' }

  predicate IsSlugChar(c: char) { 'a' <= c <= 'z' || IsDigit(c) || c == '-' }

  predicate IsValidSlug(s: string) {
    && 3 <= |s| <= 63
    && s[0] != '-' && s[|s| - 1] != '-'
    && (forall i :: 0 <= i < |s| - 1 ==> !(s[i] == '-' && s[i + 1] == '-'))
    && !("xn-" <= s)
    && (exists i :: 0 <= i < |s| && !IsDigit(s[i]))
    && (forall i :: 0 <= i < |s| ==> IsSlugChar(s[i]))
  }

  const RESERVED: seq<string> := [
    "knox", "root", "system", "sys", "platform", "tenant", "tenants", "localhost",
    "www", "api", "app", "admin", "console", "dashboard", "portal",
    "login", "logout", "auth", "authn", "authz", "sso", "oauth", "oauth2", "idp", "id",
    "mail", "smtp", "imap", "pop", "mx", "ns", "ns1", "ns2", "dns", "autodiscover", "autoconfig",
    "dmarc", "dkim", "spf",
    "cdn", "static", "assets", "img", "media", "files", "download",
    "docs", "doc", "help", "support", "status", "health", "metrics", "grafana", "prometheus", "observe", "aspire",
    "dev", "develop", "staging", "stage", "test", "testing", "demo", "preview",
    "internal", "intranet", "vpn", "git", "ci", "build", "deploy", "registry",
    "blog", "news", "about", "legal", "privacy", "terms"]

  /** `extra` holds the names a deployment reserves in addition. */
  predicate IsReserved(slug: string, extra: seq<string>) {
    Lower(slug) in RESERVED || Lower(slug) in extra
  }

  // ── String operations ────────────────────────────────────────────────────

  /** Unicode white space. */
  predicate IsSpace(c: char) {
    var u := c as int;
    9 <= u <= 13 || u == 32 || u == 0x85 || u == 0xA0 || u == 0x1680 || 0x2000 <= u <= 0x200A
    || u == 0x2028 || u == 0x2029 || u == 0x202F || u == 0x205F || u == 0x3000
  }

  function TrimStart(s: string): string {
    if s != [] && IsSpace(s[0]) then TrimStart(s[1..]) else s
  }

  function TrimEnd(s: string): string {
    if s != [] && IsSpace(s[|s| - 1]) then TrimEnd(s[..|s| - 1]) else s
  }

  function Trim(s: string): string { TrimEnd(TrimStart(s)) }

  function LowerChar(c: char): char { if 'A' <= c <= 'Z' then c + ' ' else c }

  function Lower(s: string): string { seq(|s|, i requires 0 <= i < |s| => LowerChar(s[i])) }

  /** Everything before the first `c`. */
  function UpTo(s: string, c: char): string {
    if s == [] || s[0] == c then [] else [s[0]] + UpTo(s[1..], c)
  }

  function TrimDots(s: string): string {
    if s != [] && s[|s| - 1] == '.' then TrimDots(s[..|s| - 1]) else s
  }

  function StripSuffix(s: string, suffix: string): Option<string> {
    if |suffix| <= |s| && s[|s| - |suffix|..] == suffix then Some(s[..|s| - |suffix|]) else None
  }

  // ── Parsing and printing ─────────────────────────────────────────────────

  /** Trimmed, lower case, without brackets or port, without trailing dots. */
  function NormalHost(host: string): string {
    var h := Lower(Trim(host));
    TrimDots(if h != [] && h[0] == '[' then UpTo(h[1..], ']') else UpTo(h, ':'))
  }

  function NormalBase(base: string): string { TrimDots(UpTo(Lower(Trim(base)), ':')) }

  /** Exactly one label in front of the base domain, and a slug a tenant may have. */
  function Label(h: string, base: string, extra: seq<string>): Option<string> {
    match StripSuffix(h, base)
    case None => None
    case Some(rest) =>
      match StripSuffix(rest, ".")
      case None => None
      case Some(slug) =>
        if slug == [] || '.' in slug || !IsValidSlug(slug) || IsReserved(slug, extra) then None else Some(slug)
  }

  /** `isIp` is the standard library's address parser. */
  function SlugFromHost(host: string, base: string, extra: seq<string>, isIp: string -> bool): Option<string> {
    if isIp(NormalHost(host)) then None else Label(NormalHost(host), NormalBase(base), extra)
  }

  /** The host part of the issuer, with the public port when there is one. */
  function IssuerHost(slug: string, base: string, port: Option<string>): string {
    slug + "." + base + if port.Some? then ":" + port.value else ""
  }

  function Issuer(scheme: string, slug: string, base: string, port: Option<string>): string {
    scheme + "://" + IssuerHost(slug, base, port)
  }

  /** All that is assumed of the address parser: what it accepts has a colon or is made of digits and dots. */
  predicate LooksLikeAddress(s: string) {
    ':' in s || forall i :: 0 <= i < |s| ==> IsDigit(s[i]) || s[i] == '.'
  }

  predicate IsPort(port: Option<string>) {
    port.Some? ==> port.value != [] && forall i :: 0 <= i < |port.value| ==> IsDigit(port.value[i])
  }

  // ── Lemmas about the string operations ───────────────────────────────────

  lemma {:induction false} UpToAppend(a: string, b: string, c: char)
    requires forall i :: 0 <= i < |a| ==> a[i] != c
    ensures UpTo(a + b, c) == a + UpTo(b, c)
  {
    if a == [] {
      assert a + b == b;
    } else {
      UpToAppend(a[1..], b, c);
      assert (a + b)[1..] == a[1..] + b;
      assert a == [a[0]] + a[1..];
    }
  }

  /** Cutting at the first `c` ignores whatever follows a `c`. */
  lemma {:induction false} UpToCuts(a: string, b: string, c: char)
    ensures UpTo(a + [c] + b, c) == UpTo(a, c)
  {
    if a == [] {
      assert (a + [c] + b)[0] == c;
    } else {
      UpToCuts(a[1..], b, c);
      assert (a + [c] + b)[1..] == a[1..] + [c] + b;
    }
  }

  lemma {:induction false} UpToHasNo(s: string, c: char)
    ensures c !in UpTo(s, c)
  {
    if s != [] && s[0] != c {
      UpToHasNo(s[1..], c);
    }
  }

  lemma {:induction false} TrimDotsAppend(a: string, b: string)
    requires TrimDots(b) != []
    ensures TrimDots(a + b) == a + TrimDots(b)
  {
    if b[|b| - 1] == '.' {
      assert (a + b)[..|a + b| - 1] == a + b[..|b| - 1];
      TrimDotsAppend(a, b[..|b| - 1]);
    }
  }

  lemma {:induction false} TrimDotsEnds(s: string)
    ensures TrimDots(s) == [] || TrimDots(s)[|TrimDots(s)| - 1] != '.'
  {
    if s != [] && s[|s| - 1] == '.' {
      TrimDotsEnds(s[..|s| - 1]);
    }
  }

  lemma {:induction false} TrimDotsMembers(s: string, c: char)
    requires c !in s
    ensures c !in TrimDots(s)
  {
    if s != [] && s[|s| - 1] == '.' {
      TrimDotsMembers(s[..|s| - 1], c);
    }
  }

  lemma NormalBaseHasNoColon(base: string)
    ensures ':' !in NormalBase(base)
  {
    UpToHasNo(Lower(Trim(base)), ':');
    TrimDotsMembers(UpTo(Lower(Trim(base)), ':'), ':');
  }

  lemma LowerAppend(a: string, b: string)
    ensures Lower(a + b) == Lower(a) + Lower(b)
  {
  }

  /** A string without capitals is its own lower case. */
  lemma LowerFixed(s: string)
    requires forall i :: 0 <= i < |s| ==> !('A' <= s[i] <= 'Z')
    ensures Lower(s) == s
  {
  }

  lemma TrimFixed(s: string)
    requires s != [] ==> !IsSpace(s[0]) && !IsSpace(s[|s| - 1])
    ensures Trim(s) == s
  {
  }

  lemma {:induction false} TrimmedEnds(s: string)
    requires Trim(s) == s && s != []
    ensures !IsSpace(s[|s| - 1])
  {
    if IsSpace(s[0]) {
      TrimStartShortens(s[1..]);
      TrimEndShortens(TrimStart(s[1..]));
    } else if IsSpace(s[|s| - 1]) {
      TrimEndShortens(s[..|s| - 1]);
    }
  }

  lemma {:induction false} TrimStartShortens(s: string)
    ensures |TrimStart(s)| <= |s|
  {
    if s != [] && IsSpace(s[0]) {
      TrimStartShortens(s[1..]);
    }
  }

  lemma {:induction false} TrimEndShortens(s: string)
    ensures |TrimEnd(s)| <= |s|
  {
    if s != [] && IsSpace(s[|s| - 1]) {
      TrimEndShortens(s[..|s| - 1]);
    }
  }

  // ── Printing, then parsing ───────────────────────────────────────────────

  /** The printed host has no white space at either end. */
  lemma IssuerHostIsTrimmed(slug: string, base: string, port: Option<string>)
    requires IsValidSlug(slug) && Trim(base) == base && base != [] && IsPort(port)
    ensures Trim(IssuerHost(slug, base, port)) == IssuerHost(slug, base, port)
  {
    var h := IssuerHost(slug, base, port);
    TrimmedEnds(base);
    assert h[0] == slug[0] && IsSlugChar(slug[0]);
    if port.Some? {
      var p := port.value;
      assert h[|h| - 1] == p[|p| - 1] && IsDigit(p[|p| - 1]);
    } else {
      assert h[|h| - 1] == base[|base| - 1];
    }
    TrimFixed(h);
  }

  /** It normalises to the slug, a dot and the normalised base domain. */
  lemma NormalIssuerHost(slug: string, base: string, port: Option<string>)
    requires IsValidSlug(slug) && Trim(base) == base && base != [] && IsPort(port) && NormalBase(base) != []
    ensures NormalHost(IssuerHost(slug, base, port)) == slug + "." + NormalBase(base)
  {
    hide UpTo, TrimDots, Lower, Trim;
    var h := IssuerHost(slug, base, port);
    IssuerHostIsTrimmed(slug, base, port);
    LowerIssuerHost(slug, base, port);
    CutIssuerHost(slug, Lower(base), port);
    TrimDotsAppend(slug + ".", UpTo(Lower(base), ':'));
  }

  function PortSuffix(port: Option<string>): string { if port.Some? then ":" + port.value else "" }

  /** Lower-casing changes the base domain only. */
  lemma LowerIssuerHost(slug: string, base: string, port: Option<string>)
    requires IsValidSlug(slug) && IsPort(port)
    ensures Lower(IssuerHost(slug, base, port)) == slug + "." + Lower(base) + PortSuffix(port)
  {
    assert IssuerHost(slug, base, port) == slug + "." + base + PortSuffix(port);
    LowerFixed(slug + ".");
    LowerFixed(PortSuffix(port));
    hide Lower, IssuerHost;
    LowerAppend(slug + ".", base);
    LowerAppend(slug + "." + base, PortSuffix(port));
  }

  /** What comes before the first colon is the slug and that part of the base domain. */
  lemma CutIssuerHost(slug: string, base: string, port: Option<string>)
    requires IsValidSlug(slug)
    ensures UpTo(slug + "." + base + PortSuffix(port), ':') == slug + "." + UpTo(base, ':')
  {
    hide UpTo;
    SlugHasNoColon(slug);
    var rest := base + PortSuffix(port);
    assert slug + "." + base + PortSuffix(port) == (slug + ".") + rest;
    UpToAppend(slug + ".", rest, ':');
    if port.Some? {
      assert rest == base + [':'] + port.value;
      UpToCuts(base, port.value, ':');
    } else {
      assert rest == base;
    }
  }

  lemma SlugHasNoColon(slug: string)
    requires IsValidSlug(slug)
    ensures ':' !in slug
  {
    forall k | 0 <= k < |slug|
      ensures slug[k] != ':'
    {
      assert IsSlugChar(slug[k]);
    }
  }

  /** Every valid, unreserved slug is found again in the host that its issuer names. */
  lemma IssuerHostParses(slug: string, base: string, port: Option<string>, extra: seq<string>, isIp: string -> bool)
    requires IsValidSlug(slug) && !IsReserved(slug, extra) && Trim(base) == base && NormalBase(base) != []
    requires IsPort(port)
    requires var host := NormalHost(IssuerHost(slug, base, port)); isIp(host) ==> LooksLikeAddress(host)
    ensures SlugFromHost(IssuerHost(slug, base, port), base, extra, isIp) == Some(slug)
  {
    hide Label, NormalBase, NormalHost, IssuerHost;
    EmptyBase(base);
    NormalIssuerHost(slug, base, port);
    NormalBaseHasNoColon(base);
    NotAnAddress(slug, NormalBase(base));
    LabelFound(slug, NormalBase(base), extra);
  }

  lemma LabelFound(slug: string, b: string, extra: seq<string>)
    requires IsValidSlug(slug) && !IsReserved(slug, extra)
    ensures Label(slug + "." + b, b, extra) == Some(slug)
  {
  }

  lemma EmptyBase(base: string)
    requires NormalBase(base) != []
    ensures base != []
  {
  }

  lemma NotAnAddress(slug: string, b: string)
    requires IsValidSlug(slug)
    ensures ':' !in b ==> !LooksLikeAddress(slug + "." + b)
  {
    var h := slug + "." + b;
    var i :| 0 <= i < |slug| && !IsDigit(slug[i]);
    assert h[i] == slug[i] && IsSlugChar(slug[i]);
    SlugHasNoColon(slug);
    assert ':' in h ==> ':' in b;
  }

  // ── Parsing, then printing ───────────────────────────────────────────────

  /**
   Whatever the Host header, a slug that is found is valid, unreserved and free of
   dots, and with the base domain it is exactly the normalised host.
   */
  lemma ParsedSlugFits(host: string, base: string, extra: seq<string>, isIp: string -> bool)
    requires SlugFromHost(host, base, extra, isIp).Some?
    ensures var slug := SlugFromHost(host, base, extra, isIp).value;
            && IsValidSlug(slug) && !IsReserved(slug, extra) && '.' !in slug
            && slug + "." + NormalBase(base) == NormalHost(host)
  {
  }

  /**
   A host names exactly one slug or none: it is no address, and normalised it is that
   slug, valid and unreserved, in front of the normalised base domain.
   */
  lemma SlugExactly(host: string, base: string, extra: seq<string>, isIp: string -> bool, slug: string)
    ensures SlugFromHost(host, base, extra, isIp) == Some(slug) <==>
              && !isIp(NormalHost(host)) && NormalHost(host) == slug + "." + NormalBase(base)
              && IsValidSlug(slug) && Lower(slug) !in RESERVED && Lower(slug) !in extra
  {
    var h, b := NormalHost(host), NormalBase(base);
    hide NormalHost, NormalBase, RESERVED, Lower;
    if h == slug + "." + b {
      assert h[|h| - |b|..] == b && h[..|h| - |b|] == slug + ".";
      assert (slug + ".")[|slug|..] == "." && (slug + ".")[..|slug|] == slug;
      assert IsValidSlug(slug) ==> '.' !in slug;
    }
  }

  /** With a base domain that normalises to nothing, no host names a tenant. */
  lemma EmptyBaseFindsNothing(host: string, base: string, extra: seq<string>, isIp: string -> bool)
    requires NormalBase(base) == []
    ensures SlugFromHost(host, base, extra, isIp) == None
  {
    var h := Lower(Trim(host));
    TrimDotsEnds(if h != [] && h[0] == '[' then UpTo(h[1..], ']') else UpTo(h, ':'));
    var n := NormalHost(host);
    assert n[|n| - 0..] == [] && n[..|n| - 0] == n;
    if |n| > 0 {
      assert n[|n| - 1..] == [n[|n| - 1]];
    }
  }

  /** Distinct tenants have distinct issuers. */
  lemma IssuersDiffer(scheme: string, slug: string, other: string, base: string, port: Option<string>)
    requires Issuer(scheme, slug, base, port) == Issuer(scheme, other, base, port)
    ensures slug == other
  {
    var tail := "." + base + if port.Some? then ":" + port.value else "";
    assert Issuer(scheme, slug, base, port) == scheme + "://" + (slug + tail);
    assert Issuer(scheme, other, base, port) == scheme + "://" + (other + tail);
    var i := Issuer(scheme, slug, base, port);
    var n := |scheme| + 3;
    assert i[n..] == slug + tail && i[n..] == other + tail;
    assert slug == i[n..][..|slug|] && other == i[n..][..|other|];
  }
}
