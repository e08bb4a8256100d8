/**
 Reuse of a redeemed refresh token as a tripwire (section 4.14.2 of RFC 9700). Its
 revoked row is what recognises the reuse, and a scheduled job deletes revoked
 rows. How long the tripwire stands, and what it does when it is touched, is told
 over whole runs.
 */
module Tripwire {
  import opened Wrappers
  import opened Redis
  import opened Pkce
  import opened Credentials
  import opened Rotation
  import Provenance
  import Scopes
  import SecondFactors

  // ── How long the row stands ──────────────────────────────────────────────

  lemma {:induction false} GoneStaysGone(s: State, reqs: seq<Request>, token: Uuid)
    requires Inv(s) && token < s.nextId && token !in s.db.refresh
    ensures token !in Run(s, reqs).db.refresh
    decreases reqs
  {
    hide Handle;
    if reqs != [] {
      StepKeeps(s, reqs[0]);
      StepEvolves(s, reqs[0]);
      GoneStaysGone(Handle(s, reqs[0]).0, reqs[1..], token);
    }
  }

  lemma PruneDeletes(s: State, token: Uuid)
    requires token in s.db.refresh && s.db.refresh[token].revoked
    ensures token !in Handle(s, Prune).0.db.refresh && Handle(s, Prune).0.nextId == s.nextId
  {
  }

  /** A revoked row is still stored, and of the same family, exactly while the pruning job has not run. */
  lemma {:induction false} RowStandsExactly(s: State, reqs: seq<Request>, token: Uuid)
    requires Inv(s) && token in s.db.refresh && s.db.refresh[token].revoked
    ensures var records := Run(s, reqs).db.refresh;
            && (token in records <==> Prune !in reqs)
            && (token in records ==>
                  && records[token].revoked && records[token].family == s.db.refresh[token].family
                  && records[token].tenant == s.db.refresh[token].tenant)
    decreases reqs
  {
    hide Handle;
    if reqs != [] {
      var s1 := Handle(s, reqs[0]).0;
      StepKeeps(s, reqs[0]);
      StepEvolves(s, reqs[0]);
      if reqs[0].Prune? {
        PruneDeletes(s, token);
        GoneStaysGone(s1, reqs[1..], token);
      } else {
        RowStandsExactly(s1, reqs[1..], token);
      }
    }
  }

  // ── What reuse does ──────────────────────────────────────────────────────

  lemma YieldsMeans(s: State, req: TokenRequest, token: Uuid)
    requires Rotate(s, req, token).1.Tokens?
    ensures Judge(s, req, token).Reissue? && token in s.db.refresh && !s.db.refresh[token].revoked
    ensures s.db.refresh[token].tenant == req.tenant
  {
    hide Judge;
    if Judge(s, req, token).Reissue? {
      Provenance.ReissueMeans(s, req, token);
    }
  }

  /** Redeeming a refresh token leaves its row in place, revoked. */
  lemma RedeemedIsRevoked(s: State, req: TokenRequest, token: Uuid)
    requires Inv(s) && Rotate(s, req, token).1.Tokens?
    ensures token in s.db.refresh
    ensures var records := Rotate(s, req, token).0.db.refresh;
            && token in records && records[token].revoked && records[token].family == s.db.refresh[token].family
            && records[token].tenant == s.db.refresh[token].tenant == req.tenant
  {
    YieldsMeans(s, req, token);
    hide Judge, Inv;
    assert token < s.nextId by { Below(s, token); }
  }

  lemma Below(s: State, token: Uuid)
    requires Inv(s) && token in s.db.refresh
    ensures token < s.nextId && s.db.refresh[token].family < s.nextId
  {
  }

  /** No token of a dead family yields tokens. */
  lemma DeadYieldsNothing(s: State, req: TokenRequest, token: Uuid, family: Uuid)
    requires FamilyDead(s.db.refresh, family) && token in s.db.refresh && s.db.refresh[token].family == family
    ensures !Rotate(s, req, token).1.Tokens?
  {
    assert !IsLiveIn(s.db.refresh, token, family);
    if Rotate(s, req, token).1.Tokens? {
      YieldsMeans(s, req, token);
    }
  }

  /** The state after `token` was redeemed and then any run. */
  ghost function Since(s: State, before: seq<Request>, redeem: TokenRequest, token: Uuid, after: seq<Request>): State {
    Run(Rotate(Run(s, before), redeem, token).0, after)
  }

  /**
   Take any run in which a refresh token is redeemed, and any run after that. Its
   reuse at an authenticated client of the tenant ends its family if and only if
   the pruning job has not run since, or the family had nothing live anyway.
   */
  lemma ReuseEndsFamilyExactly(s: State, before: seq<Request>, redeem: TokenRequest, token: Uuid,
                               after: seq<Request>, reuse: TokenRequest)
    requires IsInitial(s) && Rotate(Run(s, before), redeem, token).1.Tokens? && reuse.tenant == redeem.tenant
    requires var s2 := Since(s, before, redeem, token, after);
             AuthenticateClient(s2, reuse.tenant, reuse.client, reuse.secret).Some?
    ensures token in Run(s, before).db.refresh
    ensures var family := Run(s, before).db.refresh[token].family;
            var s2 := Since(s, before, redeem, token, after);
            && (token in s2.db.refresh <==> Prune !in after)
            && (FamilyDead(Rotate(s2, reuse, token).0.db.refresh, family) <==>
                Prune !in after || FamilyDead(s2.db.refresh, family))
  {
    hide Run, Inv, IsInitial, FamilyDead, Rotate, AuthenticateClient;
    var s1 := Run(s, before);
    RunKeeps(s, before) by { InitialFits(s); }
    RedeemedIsRevoked(s1, redeem, token);
    RotateKeeps(s1, redeem, token);
    RowStandsExactly(Rotate(s1, redeem, token).0, after, token);
    ReuseOnce(Since(s, before, redeem, token, after), reuse, token, s1.db.refresh[token].family);
  }

  lemma InitialFits(s: State)
    requires IsInitial(s)
    ensures Inv(s)
  {
  }

  /** And a reuse before the job has run ends the family for good: no token of it yields tokens in any later state. */
  lemma TouchedTripwireEnds(s: State, before: seq<Request>, redeem: TokenRequest, token: Uuid, after: seq<Request>,
                            reuse: TokenRequest, later: seq<Request>, req: TokenRequest, other: Uuid)
    requires IsInitial(s) && Rotate(Run(s, before), redeem, token).1.Tokens? && reuse.tenant == redeem.tenant
    requires Prune !in after && token in Run(s, before).db.refresh
    requires var s2 := Since(s, before, redeem, token, after);
             && AuthenticateClient(s2, reuse.tenant, reuse.client, reuse.secret).Some?
             && var records := Run(Rotate(s2, reuse, token).0, later).db.refresh;
                other in records && records[other].family == Run(s, before).db.refresh[token].family
    ensures var s2 := Since(s, before, redeem, token, after);
            !Rotate(Run(Rotate(s2, reuse, token).0, later), req, other).1.Tokens?
  {
    hide Run, Inv, IsInitial, FamilyDead, Rotate, AuthenticateClient;
    var s1, s2 := Run(s, before), Since(s, before, redeem, token, after);
    var family := s1.db.refresh[token].family;
    RunKeeps(s, before) by { InitialFits(s); }
    RotateKeeps(s1, redeem, token);
    RunKeeps(Rotate(s1, redeem, token).0, after);
    RedeemedIsRevoked(s1, redeem, token);
    RowStandsExactly(Rotate(s1, redeem, token).0, after, token);
    ReuseEndsFamilyExactly(s, before, redeem, token, after, reuse);
    Below(s2, token);
    RotateKeeps(s2, reuse, token);
    RotateDrawsOn(s2, reuse, token);
    DeadFamilyStaysDead(Rotate(s2, reuse, token).0, later, family);
    DeadYieldsNothing(Run(Rotate(s2, reuse, token).0, later), req, other, family);
  }

  lemma RotateDrawsOn(s: State, req: TokenRequest, token: Uuid)
    requires Inv(s)
    ensures s.nextId <= Rotate(s, req, token).0.nextId
  {
    hide Judge;
  }

  // ── A run in which the tripwire is gone ──────────────────────────────────

  const VERIFIER: string := "aaaaaaaaaaaaaaaaaaaaaaaaaaaaaaaaaaaaaaaaaaa"

  ghost function App(): Client {
    Client(0, 0, true, None, {"https://app/"}, ["openid"], {"authorization_code", "refresh_token"}, true, 1000, 60)
  }

  ghost function Settings(): Config {
    Config(3600, 300, 5, 3600, 60, false, false, 0, (verifier: string) => verifier,
           (secret: Uuid) => ((step: int) => ""), (code: string) => code)
  }

  ghost function Start(): State {
    State(0, 0, Cache(map[], map[], map[], map[], map[], map[], map[]),
          Tables(map[0 := Identity(0, 0, false, Active, Some("password"), {})], map[(0, "app") := App()], map[],
                 SecondFactors.Store(0, map[], map[])), map[], [])
  }

  ghost function AtToken(): TokenRequest { TokenRequest(0, false, "app", None, Settings(), true) }

  /** Everything is as at the start but for what a login has brought. */
  ghost predicate SameUsers(s: State) {
    s.now == 0 && s.db == Start().db.(refresh := s.db.refresh) && s.cache.epochs == map[]
  }

  lemma LoggedIn()
    ensures var s := Handle(Start(), DoLogin(0, "app", 0, "password", Settings())).0;
            && SameUsers(s) && s.db.refresh == map[] && s.nextId == 1 && s.cache.codes == map[]
            && s.cache.sessions == map[0 := Entry(Session(0, 0, 0, ["pwd"], 0, 0), 3600)]
  {
  }

  ghost function Ask(): AuthorizeRequest {
    AuthorizeRequest("app", "https://app/", VERIFIER, S256, 0, ["openid"], None, None)
  }

  ghost function Granted(): CodeContext {
    CodeContext(0, 0, 0, ["openid"], "https://app/", VERIFIER, S256, Auth(["pwd"], 0), 0)
  }

  lemma Authorizes(s: State)
    requires SameUsers(s) && s.db.refresh == map[] && s.nextId == 1 && s.cache.codes == map[]
    requires s.cache.sessions == map[0 := Entry(Session(0, 0, 0, ["pwd"], 0, 0), 3600)]
    ensures var s' := Handle(s, DoAuthorize(0, Ask(), Settings())).0;
            && SameUsers(s') && s'.db.refresh == map[] && s'.nextId == 2
            && s'.cache.codes == map[1 := Entry(Granted(), 60)]
  {
    assert |VERIFIER| == 43 && AllUrlSafe(VERIFIER);
    assert ValidateSession(s, 0, 0, 0, None) == Success(Session(0, 0, 0, ["pwd"], 0, 0));
    assert FindClient(s, 0, "app") == Some(App());
    assert Ask().scope[0] == "openid" && App().allowedScopes[0] == "openid";
    hide ValidateSession, AcceptsChallenge, FindClient;
  }

  ghost function Saved(family: Uuid, revoked: bool): RefreshRecord {
    RefreshRecord(0, 0, 0, ["openid"], Some(Auth(["pwd"], 0)), 1000, revoked, family)
  }

  lemma OpenIdPasses(enrolled: bool)
    ensures Scopes.Permitted(["openid"], {}, false, enrolled) == Success(["openid"])
    ensures Scopes.Strip(["openid"], false) == ["openid"]
  {
    assert "openid"[0] == 'o' && !Scopes.IsPlatform("openid");
    assert Scopes.OIDC_SCOPES[0] == "openid" && Scopes.IsOidc("openid");
    FilterOne("openid", s => Scopes.IsOidc(s) || s in {});
    FilterOne("openid", s => !Scopes.IsPlatform(s));
  }

  lemma FilterOne(x: string, keep: string -> bool)
    requires keep(x)
    ensures Scopes.Filter([x], keep) == [x]
  {
    assert [x][1..] == [];
  }

  lemma Redeems(s: State)
    requires SameUsers(s) && s.db.refresh == map[] && s.nextId == 2 && s.cache.codes == map[1 := Entry(Granted(), 60)]
    ensures var s' := Handle(s, DoRedeemCode(AtToken(), 1, Some("https://app/"), VERIFIER)).0;
            SameUsers(s') && s'.db.refresh == map[2 := Saved(3, false)] && s'.nextId == 4
  {
    assert |VERIFIER| == 43 && AllUnreserved(VERIFIER);
    OpenIdPasses(IsEnrolled(s, 0));
    assert CheckCode(s, 0, Granted(), App(), Some("https://app/"), VERIFIER, Settings()) == None;
    assert AuthenticateClient(s, 0, "app", None) == Some(App());
    hide CheckCode, AuthenticateClient, Scopes.Permitted, Scopes.Strip;
  }

  lemma Rotates(s: State)
    requires SameUsers(s) && s.db.refresh == map[2 := Saved(3, false)] && s.nextId == 4
    ensures var (s', outcome) := Rotate(s, AtToken(), 2);
            && outcome.Tokens? && SameUsers(s') && s'.nextId == 6
            && s'.db.refresh == map[2 := Saved(3, true), 4 := Saved(3, false)]
  {
    OpenIdPasses(IsEnrolled(s, 0));
    assert AuthenticateClient(s, 0, "app", None) == Some(App());
    hide AuthenticateClient, Scopes.Permitted, Scopes.Strip;
    assert Judge(s, AtToken(), 2).Reissue?;
    assert Revoke(s.db.refresh, Token(2)) == map[2 := Saved(3, true)];
  }

  lemma YieldsAgain(s: State)
    requires SameUsers(s) && s.db.refresh == map[4 := Saved(3, false)]
    ensures Rotate(s, AtToken(), 4).1.Tokens?
  {
    OpenIdPasses(IsEnrolled(s, 0));
    assert AuthenticateClient(s, 0, "app", None) == Some(App());
    hide AuthenticateClient, Scopes.Permitted, Scopes.Strip;
    assert Judge(s, AtToken(), 4).Reissue?;
  }

  ghost function LoginToRedeem(): seq<Request> {
    [DoLogin(0, "app", 0, "password", Settings()), DoAuthorize(0, Ask(), Settings()),
     DoRedeemCode(AtToken(), 1, Some("https://app/"), VERIFIER)]
  }

  lemma RunThree(s: State, a: Request, b: Request, c: Request)
    ensures Run(s, [a, b, c]) == Handle(Handle(Handle(s, a).0, b).0, c).0
  {
    hide Handle;
    assert [a, b, c][1..] == [b, c] && [b, c][1..] == [c] && [c][1..] == [];
    var s1 := Handle(s, a).0;
    var s2 := Handle(s1, b).0;
    assert Run(s2, [c]) == Run(Handle(s2, c).0, []);
    assert Run(s1, [b, c]) == Run(s2, [c]);
  }

  /**
   From an initial state: a user logs in, an application redeems the code and
   rotates the refresh token once, the job runs. Reuse of the redeemed token is now
   refused and changes nothing, and the family's live token still yields tokens.
   */
  lemma TripwireIsGone()
    ensures IsInitial(Start())
    ensures Rotate(Run(Start(), LoginToRedeem()), AtToken(), 2).1.Tokens?
    ensures var s := Since(Start(), LoginToRedeem(), AtToken(), 2, [Prune]);
            && Rotate(s, AtToken(), 2) == (s, Refused(InvalidCredentials))
            && Rotate(s, AtToken(), 4).1.Tokens?
  {
    hide Handle, Rotate, Start, SameUsers, Settings, Ask, AtToken, Granted, Saved;
    var s0 := Start();
    var login, ask := DoLogin(0, "app", 0, "password", Settings()), DoAuthorize(0, Ask(), Settings());
    var redeem := DoRedeemCode(AtToken(), 1, Some("https://app/"), VERIFIER);
    StartIsInitial();
    LoggedIn();
    var s1 := Handle(s0, login).0;
    Authorizes(s1);
    var s2 := Handle(s1, ask).0;
    Redeems(s2);
    var s3 := Handle(s2, redeem).0;
    Rotates(s3);
    var s4 := Rotate(s3, AtToken(), 2).0;
    RunThree(s0, login, ask, redeem);
    Prunes(s4);
    var s5 := Handle(s4, Prune).0;
    assert [Prune][1..] == [];
    assert Run(s4, [Prune]) == Run(s5, []);
    PrunedReuseIsIgnored(s5, AtToken(), 2);
    YieldsAgain(s5);
  }

  lemma StartIsInitial()
    ensures IsInitial(Start())
  {
  }

  lemma Prunes(s: State)
    requires SameUsers(s) && s.db.refresh == map[2 := Saved(3, true), 4 := Saved(3, false)]
    ensures var s' := Handle(s, Prune).0; SameUsers(s') && s'.db.refresh == map[4 := Saved(3, false)]
  {
    assert Pruned(s.db.refresh, 0) == map[4 := Saved(3, false)];
  }
}
