/**
 * Where the services named by generated routers lead: exactly when every router finds a backend, and
 * exactly when no router of a project leads to another project's backend.
 */
module TraefikServices {
  import opened Wrappers
  import opened TextTools
  import opened HostRules
  import opened CfTunnel
  import opened CfMeaning
  import opened TraefikConfig
  import opened TraefikNames
  import opened TraefikOwnership
  import opened TraefikRouting
  import opened TraefikMentions
  import Own = HostOwnership
  import Claims = HostClaims

  // ---------------------------------------------------------------- what a service name stands for

  /** The services of the generated configuration. */
  function Defined(ds: seq<Deployed>, urls: seq<string>, authUrl: string): Services
    requires |urls| == |ds|
  {
    ServicesOf(FirstServices(authUrl), ds, urls)
  }

  predicate Deploys(ds: seq<Deployed>, prefix: string) {
    exists o | o in ds :: o.prefix == prefix
  }

  lemma {:induction false} ServiceAt(services: Services, ds: seq<Deployed>, urls: seq<string>, s: string)
    requires |urls| == |ds|
    ensures
      var out := ServicesOf(services, ds, urls);
      && (s in out <==> s in services || Deploys(ds, s))
      && (s in out ==> (s in services && out[s] == services[s] && !Deploys(ds, s))
                       || exists o | o in ds :: o.prefix == s && out[s].owner == Some(o.project))
    decreases |ds|
  {
    if ds != [] {
      var next, out := services[ds[0].prefix := Backend(Some(ds[0].project), urls[0])], ServicesOf(services, ds, urls);
      ServiceAt(next, ds[1..], urls[1..], s);
      assert ds == [ds[0]] + ds[1..];
      assert Deploys(ds, s) <==> ds[0].prefix == s || Deploys(ds[1..], s);
      if s in out && !Deploys(ds[1..], s) && ds[0].prefix == s {
        assert out[s] == next[s];
        assert ds[0] in ds;
      }
    }
  }

  /** The name leads to the backend of a project other than `p`. */
  predicate Strays(services: Services, s: string, p: nat) {
    s in services && services[s].owner.Some? && services[s].owner != Some(p)
  }

  /** A name is defined exactly when it is the sign-in backend's or a deployed prefix, and leads to that project. */
  lemma ServiceLeads(ds: seq<Deployed>, urls: seq<string>, authUrl: string, s: string, p: nat)
    requires Separate(ds) && |urls| == |ds|
    ensures
      var services := Defined(ds, urls, authUrl);
      && (s in services <==> s == DEVICE_BACKEND || Deploys(ds, s))
      && (Strays(services, s, p) <==> exists o | o in ds :: o.prefix == s && o.project != p)
  {
    ServiceAt(FirstServices(authUrl), ds, urls, s);
    hide ServicesOf;
  }

  predicate HasBypass(d: Deployed) {
    exists i: nat | i < |Split(d.bypass, '\n')| :: BypassLine(d, i)
  }

  /** The service of any write: the deployment's own, the sign-in backend, or for a bypass its group's name. */
  lemma ServiceKinds(d: Deployed, bases: seq<string>, e: Emission)
    requires e in Emit(d, bases)
    ensures
      || e.router.service == d.prefix
      || e.router.service == DEVICE_BACKEND
      || (HasBypass(d) && exists a: nat | a < |d.aliases| :: e.router.service == AliasName(d, a))
  {
    EmitIs(d, bases, e);
    var g: nat :| IsGroup(d, g) && InGroupOf(e, d, g, bases);
    if e.router.service != d.prefix && e.router.service != DEVICE_BACKEND {
      assert e != FacingOf(d, g, bases) && e != FlowOf(d, g, bases) by {
        hide Split, GroupName, GroupHosts, MatchRule, BypassLine;
      }
      var i: nat :| i < |Split(d.bypass, '\n')| && BypassLine(d, i) && e == BypassOf(d, g, i, bases);
      GroupZero(d);
      if g > 0 {
        GroupPositive(d, g);
      }
      hide InGroupOf, Split, GroupName, GroupHosts, MatchRule, PathRule, BypassPath, BypassLine, AliasName, Emit;
      assert AliasName(d, g - 1) == e.router.service;
    }
  }

  // ---------------------------------------------------------------- references

  /** Every router of the table names a defined service. */
  predicate Resolves(m: Routers, services: Services) {
    forall k | k in m :: m[k].service in services
  }

  ghost predicate AlwaysResolves(ds: seq<Deployed>, base: string, authUrl: string) {
    forall es, urls | multiset(es) == multiset(ds) && |urls| == |es| ::
      Resolves(Table(es, base), Defined(es, urls, authUrl))
  }

  /**
   * However the deployments are ordered, every router names a defined service, if and only if the alias
   * names of every deployment with bypass lines are themselves deployed prefixes.
   */
  lemma AlwaysResolvesIff(db: Own.Db, base: string, ds: seq<Deployed>, authUrl: string)
    requires Generated(db, base, ds)
    ensures AlwaysResolves(ds, base, authUrl) <==>
            forall d, a: nat | d in ds && HasBypass(d) && a < |d.aliases| :: Deploys(ds, AliasName(d, a))
  {
    hide Table, Defined, Generated, HasBypass, AliasName, Deploys, Resolves;
    if AlwaysResolves(ds, base, authUrl) {
      forall d, a: nat | d in ds && HasBypass(d) && a < |d.aliases|
        ensures Deploys(ds, AliasName(d, a))
      {
        AliasBypassNeedsPrefix(db, base, ds, d, a, authUrl);
      }
    }
    if forall d, a: nat | d in ds && HasBypass(d) && a < |d.aliases| :: Deploys(ds, AliasName(d, a)) {
      forall es, urls | multiset(es) == multiset(ds) && |urls| == |es|
        ensures Resolves(Table(es, base), Defined(es, urls, authUrl))
      {
        SameMembers(es, ds);
        ReorderIsGenerated(db, base, ds, es);
        SameDeploys(es, ds);
        PrefixesMakeResolve(db, base, es, urls, authUrl);
      }
    }
  }

  lemma SameDeploys(es: seq<Deployed>, ds: seq<Deployed>)
    requires forall d :: d in es <==> d in ds
    ensures forall p :: Deploys(es, p) <==> Deploys(ds, p)
  {
  }

  lemma PrefixesMakeResolve(db: Own.Db, base: string, ds: seq<Deployed>, urls: seq<string>, authUrl: string)
    requires Generated(db, base, ds) && |urls| == |ds|
    requires forall d, a: nat | d in ds && HasBypass(d) && a < |d.aliases| :: Deploys(ds, AliasName(d, a))
    ensures Resolves(Table(ds, base), Defined(ds, urls, authUrl))
  {
    GeneratedIsSeparate(db, base, ds);
    hide Table, Defined, Generated, AliasName, Emit, MadeFor, Separate, PlainDeployment, Hosts, HasBypass;
    forall k | k in Table(ds, base)
      ensures Table(ds, base)[k].service in Defined(ds, urls, authUrl)
    {
      TableIsWritten(db, base, ds, k);
      var d, e :| WrittenFor(ds, base, d, e, k);
      DeploymentHosts(db, base, ds, d);
      ServiceKinds(d, [base], e);
      ServiceLeads(ds, urls, authUrl, e.router.service, 0);
      assert Deploys(ds, d.prefix);
    }
  }

  lemma AliasBypassNeedsPrefix(
      db: Own.Db, base: string, ds: seq<Deployed>, d: Deployed, a: nat, authUrl: string)
    requires Generated(db, base, ds) && AlwaysResolves(ds, base, authUrl)
    requires d in ds && HasBypass(d) && a < |d.aliases|
    ensures Deploys(ds, AliasName(d, a))
  {
    var es := CanBeLast(ds, d);
    var urls := seq(|es|, _ => "");
    SameMembers(es, ds);
    SameDeploys(es, ds);
    DeploymentHosts(db, base, ds, d);
    ReorderIsGenerated(db, base, ds, es);
    GeneratedIsSeparate(db, base, es);
    assert Resolves(Table(es, base), Defined(es, urls, authUrl));
    var i: nat :| i < |Split(d.bypass, '\n')| && BypassLine(d, i);
    hide *;
    LastBypassResolves(es, base, d, a, i, urls, authUrl);
  }

  lemma LastBypassResolves(
      ds: seq<Deployed>, base: string, d: Deployed, a: nat, i: nat, urls: seq<string>, authUrl: string)
    requires ds != [] && ds[|ds| - 1] == d && PlainDeployment(d, [base]) && a < |d.aliases| && BypassLine(d, i)
    requires Separate(ds) && |urls| == |ds| && Resolves(Table(ds, base), Defined(ds, urls, authUrl))
    ensures Deploys(ds, AliasName(d, a))
  {
    GroupPositive(d, a + 1);
    LastKeepsBypass(ds, base, d, a + 1, i);
    AliasIsNotBackend(d, a);
    ServiceLeads(ds, urls, authUrl, AliasName(d, a), 0);
    hide Table, Defined, AliasName, Separate, PlainDeployment, Hosts, LineHosts, GroupName, GroupHosts, BypassPath;
    hide BypassLine, BypassName, Deploys, Foreign;
  }

  lemma AliasIsNotBackend(d: Deployed, a: nat)
    ensures AliasName(d, a) != DEVICE_BACKEND && AliasName(d, a) != d.prefix
  {
    AliasNameIs(d, a);
    LastChar(d.prefix, ALIAS);
    NumberedReads(d.prefix + ALIAS, a);
    assert DEVICE_BACKEND[|DEVICE_BACKEND| - 1] == 'e';
    hide Stem, AliasName, Digits;
  }

  /** A bypass router of an alias never leads to its own project: its service is undefined or another project's. */
  lemma AliasBypassNeverHome(
      db: Own.Db, base: string, ds: seq<Deployed>, urls: seq<string>, authUrl: string, d: Deployed, a: nat, i: nat)
    requires Generated(db, base, ds) && |urls| == |ds| && d in ds && a < |d.aliases| && BypassLine(d, i)
    ensures
      var s, services := BypassOf(d, a + 1, i, [base]).router.service, Defined(ds, urls, authUrl);
      s !in services || Strays(services, s, d.project)
  {
    GeneratedIsSeparate(db, base, ds);
    DeploymentHosts(db, base, ds, d);
    BypassHosts(d, a + 1, i, [base]);
    GroupPositive(d, a + 1);
    AliasIsNotBackend(d, a);
    ServiceLeads(ds, urls, authUrl, AliasName(d, a), d.project);
    hide Defined, Generated, AliasName, PlainDeployment, Hosts, LineHosts, GroupName, BypassOf, BypassLine;
    hide GroupHosts, Strays;
  }

  // ---------------------------------------------------------------- other projects' backends

  /** Router `k` mentions a host claimed by project `p` and leads to another project's backend. */
  predicate LeadsAway(db: Own.Db, base: string, m: Routers, services: Services, k: string, h: string, p: nat) {
    k in m && Mentions(m[k], h) && Own.Claims(db, base, p, h) && Strays(services, m[k].service, p)
  }

  ghost predicate AlwaysHome(db: Own.Db, base: string, ds: seq<Deployed>, authUrl: string) {
    forall es, urls, k, h, p | multiset(es) == multiset(ds) && |urls| == |es| ::
      !LeadsAway(db, base, Table(es, base), Defined(es, urls, authUrl), k, h, p)
  }

  /**
   * What must not be deployed: a prefix that is the sign-in backend's name, unless there is one deployment
   * only; a prefix that is the alias name of a deployment with bypass lines; and a bypass line with the token
   * of a host another project claims.
   */
  ghost predicate Clear(db: Own.Db, base: string, ds: seq<Deployed>) {
    && (forall d, o | d in ds && o in ds && o != d :: o.prefix != DEVICE_BACKEND)
    && (forall d, a: nat | d in ds && HasBypass(d) && a < |d.aliases| :: !Deploys(ds, AliasName(d, a)))
    && (forall d, h, p: nat | d in ds && LineMentions(d, h) && Own.Claims(db, base, p, h) :: p == d.project)
  }

  lemma FlowLeadsAway(
      db: Own.Db, base: string, ds: seq<Deployed>, urls: seq<string>, authUrl: string, d: Deployed, o: Deployed)
    requires Generated(db, base, ds) && |urls| == |ds| && ds != [] && ds[|ds| - 1] == d
    requires o in ds && o != d && o.prefix == DEVICE_BACKEND
    ensures LeadsAway(db, base, Table(ds, base), Defined(ds, urls, authUrl),
                      d.prefix + DEVICE_FLOW, Own.HostOf(d.prefix, base), d.project)
  {
    GeneratedIsSeparate(db, base, ds);
    DeploymentHosts(db, base, ds, d);
    GroupZero(d);
    FlowEntry(d, 0, [base]);
    LastKeepsAll(ds, base, d.prefix + DEVICE_FLOW);
    FlowHosts(d, 0, [base]);
    DefaultHosts(d.prefix, base);
    assert GroupHosts(d, 0, [base]) == [Own.HostOf(d.prefix, base)];
    ServiceLeads(ds, urls, authUrl, DEVICE_BACKEND, d.project);
    hide Table, Defined, Generated, Emit, LastNamed, PlainDeployment, Hosts, GroupName, FlowOf, GroupHosts, HostsForPrefix;
    hide Own.HostOf, Own.Claims, Own.Norm;
    assert Own.HostOf(d.prefix, base) in HostsForPrefix(d.prefix, [base]);
  }

  /** The bypass router of an alias leads to the project whose prefix spells the alias name. */
  lemma BypassLeadsAway(
      db: Own.Db, base: string, ds: seq<Deployed>, urls: seq<string>, authUrl: string, d: Deployed, i: nat, a: nat)
    requires Generated(db, base, ds) && |urls| == |ds| && ds != [] && ds[|ds| - 1] == d
    requires BypassLine(d, i) && a < |d.aliases| && Deploys(ds, AliasName(d, a))
    ensures LeadsAway(db, base, Table(ds, base), Defined(ds, urls, authUrl),
                      BypassName(AliasName(d, a), i), d.aliases[a], d.project)
  {
    DeploymentHosts(db, base, ds, d);
    GeneratedIsSeparate(db, base, ds);
    GroupPositive(d, a + 1);
    LastKeepsBypass(ds, base, d, a + 1, i);
    assert GroupHosts(d, a + 1, [base]) == [d.aliases[a]];
    AliasIsNotBackend(d, a);
    ServiceLeads(ds, urls, authUrl, AliasName(d, a), d.project);
    assert d.aliases[a] in d.aliases;
    hide Table, Defined, Generated, PlainDeployment, Own.Claims, Own.Norm, HostsForPrefix, AliasName, BypassName, Strays;
    hide BypassLine, PathRule, BypassPath, Hosts, LineHosts, GroupName, GroupHosts;
  }

  /** A bypass router of the default hosts that holds the token of another project's host leads to its own project. */
  lemma TokenLeadsAway(
      db: Own.Db, base: string, ds: seq<Deployed>, urls: seq<string>, authUrl: string, d: Deployed, i: nat, h: string, p: nat)
    requires Generated(db, base, ds) && |urls| == |ds| && ds != [] && ds[|ds| - 1] == d
    requires BypassLine(d, i) && h in LineHosts(BypassPath(d, i)) && Own.Claims(db, base, p, h) && p != d.project
    ensures LeadsAway(db, base, Table(ds, base), Defined(ds, urls, authUrl), BypassName(d.prefix, i), h, p)
  {
    DeploymentHosts(db, base, ds, d);
    GeneratedIsSeparate(db, base, ds);
    GroupZero(d);
    LastKeepsBypass(ds, base, d, 0, i);
    ServiceLeads(ds, urls, authUrl, d.prefix, p);
    hide Table, Defined, Generated, PlainDeployment, Own.Claims, Own.Norm, HostsForPrefix, BypassName, Strays, GroupName;
    hide BypassLine, PathRule, BypassPath, Hosts, LineHosts, GroupHosts;
  }

  lemma ClearIsHome(
      db: Own.Db, base: string, ds: seq<Deployed>, urls: seq<string>, authUrl: string, k: string, h: string, p: nat)
    requires Generated(db, base, ds) && |urls| == |ds| && Clear(db, base, ds)
    ensures !LeadsAway(db, base, Table(ds, base), Defined(ds, urls, authUrl), k, h, p)
  {
    if LeadsAway(db, base, Table(ds, base), Defined(ds, urls, authUrl), k, h, p) {
      RouterBelongsToLookup(db, base, ds, k, h);
      GeneratedIsSeparate(db, base, ds);
      var d, e :| WrittenFor(ds, base, d, e, k) && (BelongsTo(db, base, h, d) || LineMentions(d, h));
      if BelongsTo(db, base, h, d) {
        Claims.OneOwner(db, base, d.project, p, h);
      }
      ServiceKinds(d, [base], e);
      ServiceLeads(ds, urls, authUrl, e.router.service, p);
      hide Table, Defined, Generated, Emit, Hosts, Own.Claims, Own.Norm;
      hide Strays, AliasName, MadeFor, LineMentions, HasBypass;
    }
  }

  lemma HomeIsClear(db: Own.Db, base: string, ds: seq<Deployed>, authUrl: string, d: Deployed)
    requires Generated(db, base, ds) && AlwaysHome(db, base, ds, authUrl) && d in ds
    ensures forall o | o in ds && o != d :: o.prefix != DEVICE_BACKEND
    ensures HasBypass(d) ==> forall a: nat | a < |d.aliases| :: !Deploys(ds, AliasName(d, a))
    ensures forall h, p: nat | LineMentions(d, h) && Own.Claims(db, base, p, h) :: p == d.project
  {
    var es := CanBeLast(ds, d);
    var urls := seq(|es|, _ => "");
    SameMembers(es, ds);
    SameDeploys(es, ds);
    ReorderIsGenerated(db, base, ds, es);
    assert forall k, h, p :: !LeadsAway(db, base, Table(es, base), Defined(es, urls, authUrl), k, h, p);
    hide Table, Defined, Generated, Deploys, AliasName, LeadsAway, Own.HostOf, AlwaysHome;
    hide BypassLine, LineHosts, BypassPath, Own.Claims;
    hide Split;
    forall o | o in ds && o != d
      ensures o.prefix != DEVICE_BACKEND
    {
      if o.prefix == DEVICE_BACKEND {
        FlowLeadsAway(db, base, es, urls, authUrl, d, o);
      }
    }
    if HasBypass(d) {
      var i: nat :| i < |Split(d.bypass, '\n')| && BypassLine(d, i);
      forall a: nat | a < |d.aliases|
        ensures !Deploys(ds, AliasName(d, a))
      {
        if Deploys(ds, AliasName(d, a)) {
          BypassLeadsAway(db, base, es, urls, authUrl, d, i, a);
        }
      }
    }
    forall h, p: nat | LineMentions(d, h) && Own.Claims(db, base, p, h)
      ensures p == d.project
    {
      var i: nat :| i < |Split(d.bypass, '\n')| && BypassLine(d, i) && h in LineHosts(BypassPath(d, i));
      if p != d.project {
        TokenLeadsAway(db, base, es, urls, authUrl, d, i, h, p);
      }
    }
  }

  /**
   * However the deployments are ordered, no router that mentions a claimed host leads to the backend of a
   * project that does not claim it, if and only if what is deployed is clear of the three things above.
   */
  lemma AlwaysHomeIff(db: Own.Db, base: string, ds: seq<Deployed>, authUrl: string)
    requires Generated(db, base, ds)
    ensures AlwaysHome(db, base, ds, authUrl) <==> Clear(db, base, ds)
  {
    hide Table, Defined, Generated, Deploys, AliasName, LeadsAway, LineMentions, HasBypass, Own.Claims;
    if AlwaysHome(db, base, ds, authUrl) {
      forall d | d in ds
        ensures forall o | o in ds && o != d :: o.prefix != DEVICE_BACKEND
        ensures HasBypass(d) ==> forall a: nat | a < |d.aliases| :: !Deploys(ds, AliasName(d, a))
        ensures forall h, p: nat | LineMentions(d, h) && Own.Claims(db, base, p, h) :: p == d.project
      {
        HomeIsClear(db, base, ds, authUrl, d);
      }
    }
    if Clear(db, base, ds) {
      forall es, urls, k, h, p: nat | multiset(es) == multiset(ds) && |urls| == |es|
        ensures !LeadsAway(db, base, Table(es, base), Defined(es, urls, authUrl), k, h, p)
      {
        SameMembers(es, ds);
        SameDeploys(es, ds);
        ReorderIsGenerated(db, base, ds, es);
        ClearIsHome(db, base, es, urls, authUrl, k, h, p);
      }
    }
  }

  // ---------------------------------------------------------------- such a pair of projects

  /** A bypass text without line breaks is one line. */
  lemma OneLine(d: Deployed)
    requires d.needsAuth && d.bypass != "" && '\n' !in d.bypass && Trim(d.bypass) == d.bypass
    ensures BypassLine(d, 0) && BypassPath(d, 0) == d.bypass
  {
    SplitPlain(d.bypass, '\n');
    hide Trim, Split;
  }

  const FIRST := Own.Project("p", 0, Own.Deployment, "p")
  const SECOND := Own.Project("p-alias-0", 0, Own.Deployment, "p-alias-0")

  function Requests(host: string): seq<Own.Request> {
    [Own.CreateProject(1, 0, Own.Deployment, "p", "", true),
     Own.CreateProject(2, 0, Own.Deployment, "p-alias-0", "", true),
     Own.CreateAlias(7, 1, 0, false, host)]
  }

  function Stored(host: string): Own.Db {
    Own.Db(map[1 := FIRST, 2 := SECOND], map[7 := Own.Alias(1, host)])
  }

  lemma AllStored(base: string, host: string)
    requires Claims.CustomDomain(host, base)
    ensures Own.Run(Own.Db(map[], map[]), base, Requests(host)) == Stored(host)
  {
    PrefixesAreValid();
    var none := Own.Db(map[], map[]);
    var two := Own.Db(map[1 := FIRST, 2 := SECOND], map[]);
    Claims.CreateStores(none, base, 1, "p");
    Claims.CreateStores(Own.Db(map[1 := FIRST], map[]), base, 2, "p-alias-0");
    Claims.AliasStores(two, base, 7, 1, host);
    Claims.RunOfThree(none, base, Requests(host)[0], Requests(host)[1], Requests(host)[2]);
    hide Own.Run, Own.Step, Own.ValidPrefix, Claims.CustomDomain;
  }

  lemma PrefixesAreValid()
    ensures Own.ValidPrefix("p") && Own.ValidPrefix("p-alias-0") && Trim("p") == "p" && Trim("p-alias-0") == "p-alias-0"
  {
    TrimmedStays("p");
    TrimmedStays("p-alias-0");
  }

  const PLAIN := Deployed(2, "p-alias-0", false, "", [])

  /** The project with the alias bypasses authentication for `/`. */
  function Bypassing(host: string): Deployed {
    Deployed(1, "p", true, "/", [host])
  }

  lemma StoredKeepsInv(base: string, host: string)
    requires Own.Canonical(base) && Claims.CustomDomain(host, base)
    ensures Own.Inv(Stored(host), base)
  {
    AllStored(base, host);
    Claims.EmptyInv(base);
    hide Own.Run, Own.Inv, Own.Canonical, Claims.CustomDomain, Stored, Requests;
    Claims.RunKeepsInv(Own.Db(map[], map[]), base, Requests(host));
  }

  lemma PairFromRows(host: string)
    ensures FromRow(Stored(host), Bypassing(host)) && FromRow(Stored(host), PLAIN)
  {
    assert Stored(host).aliases[7] == Own.Alias(1, host);
  }

  lemma PairGenerated(base: string, host: string)
    requires Own.Canonical(base) && '`' !in base && Claims.CustomDomain(host, base)
    ensures Generated(Stored(host), base, [PLAIN, Bypassing(host)])
  {
    StoredKeepsInv(base, host);
    PairFromRows(host);
    hide Own.Inv, Own.Canonical, Claims.CustomDomain, FromRow, Stored;
  }

  lemma PairSpells(host: string)
    ensures
      var d := Bypassing(host);
      && BypassLine(d, 0) && Deploys([PLAIN, d], AliasName(d, 0))
      && BypassName(AliasName(d, 0), 0) == "p-alias-0-bypass-0"
  {
    var d := Bypassing(host);
    TrimmedStays("/");
    OneLine(d);
    hide BypassLine, Trim;
    assert AliasName(d, 0) == PLAIN.prefix;
    assert PLAIN in [PLAIN, d];
  }

  /**
   * Three requests lead to it, under every base domain and for every custom domain: the router for the
   * bypass path of an alias of project `p` leads to project `p-alias-0`.
   */
  lemma BypassLeadsAwayReachable(base: string, host: string, urls: seq<string>, authUrl: string)
    requires Own.Canonical(base) && '`' !in base && Claims.CustomDomain(host, base) && |urls| == 2
    ensures
      var db := Own.Run(Own.Db(map[], map[]), base, Requests(host));
      var ds := [PLAIN, Bypassing(host)];
      && Generated(db, base, ds)
      && LeadsAway(db, base, Table(ds, base), Defined(ds, urls, authUrl), "p-alias-0-bypass-0", host, 1)
  {
    AllStored(base, host);
    PairGenerated(base, host);
    PairSpells(host);
    hide *;
    BypassLeadsAway(Stored(host), base, [PLAIN, Bypassing(host)], urls, authUrl, Bypassing(host), 0, 0);
  }

  // ---------------------------------------------------------------- a token of another project's host

  /** A base domain that can stand in a bypass line. */
  predicate LineText(base: string) {
    Own.Canonical(base) && base != "" && '`' !in base && '\n' !in base && base[|base| - 1] != '*'
  }

  /** The path ends the rule's own path and goes on with the host of project `v`. */
  function TokenPath(base: string): string {
    "x`) || Host(`v." + base
  }

  const BEFORE_TOKEN := " && Path(`x`) || "

  lemma TokenPathText(base: string)
    ensures " && Path(`" + TokenPath(base) + CLOSE_TOKEN == BEFORE_TOKEN + Token(Own.HostOf("v", base), false)
  {
    var host := Own.HostOf("v", base);
    assert host == "v." + base;
    assert TokenPath(base) == "x`) || Host(`" + host;
    assert " && Path(`" + ("x`) || Host(`" + host) + CLOSE_TOKEN == BEFORE_TOKEN + (HOST + host + CLOSE_TOKEN);
  }

  lemma NoStar(base: string)
    requires base != "" && base[|base| - 1] != '*'
    ensures !HasSuffix(TokenPath(base), "*")
  {
    assert TokenPath(base)[|TokenPath(base)| - 1] == base[|base| - 1];
    assert "*"[0] == '*';
  }

  lemma TokenPathRule(base: string)
    requires LineText(base)
    ensures " && " + PathRule(TokenPath(base)) == BEFORE_TOKEN + Token(Own.HostOf("v", base), false)
  {
    NoStar(base);
    PathRuleText(TokenPath(base));
    TokenPathText(base);
    hide *;
  }

  lemma TokenPathHosts(base: string)
    requires LineText(base)
    ensures LineHosts(TokenPath(base)) == [Own.HostOf("v", base)]
  {
    var host := Own.HostOf("v", base);
    TokenPathRule(base);
    NoHosts();
    assert host != "" && '`' !in host;
    assert LineHosts(TokenPath(base)) == Hosts(BEFORE_TOKEN + Token(host, false));
    assert 'H' !in BEFORE_TOKEN;
    hide *;
    HostsSkip(BEFORE_TOKEN, Token(host, false));
    HostsPrinted(host, false, "");
    assert Token(host, false) + "" == Token(host, false);
  }

  lemma NoHosts()
    ensures Hosts("") == []
  {
  }

  lemma TokenPathTrimmed(base: string)
    requires LineText(base)
    ensures Trim(TokenPath(base)) == TokenPath(base) && '\n' !in TokenPath(base) && TokenPath(base) != ""
  {
    var path := TokenPath(base);
    TrimIsTrimmed(base);
    LowerKeepsTrimmed(Trim(base));
    assert path[|path| - 1] == base[|base| - 1];
    TrimmedStays(path);
  }

  const VICTIM := Own.Project("v", 0, Own.Deployment, "v")
  const PASTER := Own.Project("a", 0, Own.Deployment, "a")
  const BOTH := Own.Db(map[1 := VICTIM, 2 := PASTER], map[])
  const CREATE_PAIR := [Own.CreateProject(1, 0, Own.Deployment, "v", "", true),
                        Own.CreateProject(2, 0, Own.Deployment, "a", "", true)]
  const PUBLIC := Deployed(1, "v", false, "", [])

  function Pasting(base: string): Deployed {
    Deployed(2, "a", true, TokenPath(base), [])
  }

  lemma BothStored(base: string)
    ensures Own.Run(Own.Db(map[], map[]), base, CREATE_PAIR) == BOTH && Own.Inv(BOTH, base)
  {
    assert Own.ValidPrefix("v") && Own.ValidPrefix("a");
    TrimmedStays("v");
    TrimmedStays("a");
    Claims.CreateStores(Own.Db(map[], map[]), base, 1, "v");
    Claims.CreateStores(Own.Db(map[1 := VICTIM], map[]), base, 2, "a");
    Claims.RunOfTwo(Own.Db(map[], map[]), base, CREATE_PAIR[0], CREATE_PAIR[1]);
    hide Own.Run, Own.Step, Own.ValidPrefix;
  }

  lemma PastingGenerated(base: string)
    requires LineText(base)
    ensures Generated(BOTH, base, [PUBLIC, Pasting(base)])
    ensures Own.Claims(BOTH, base, 1, Own.HostOf("v", base))
  {
    BothStored(base);
    hide Own.Inv, Own.Canonical, TokenPath;
  }

  lemma PastingLine(base: string)
    requires LineText(base)
    ensures
      var d := Pasting(base);
      BypassLine(d, 0) && LineHosts(BypassPath(d, 0)) == [Own.HostOf("v", base)] && BypassName(d.prefix, 0) == "a-bypass-0"
  {
    var d := Pasting(base);
    assert d.needsAuth && d.bypass == TokenPath(base) && d.prefix == "a";
    FirstBypassName();
    hide *;
    TokenPathTrimmed(base);
    TokenPathHosts(base);
    OneLine(d);
  }

  lemma FirstBypassName()
    ensures BypassName("a", 0) == "a-bypass-0"
  {
  }

  /**
   * Two requests and a bypass line lead to it: the bypass router of project `a` mentions the host of project
   * `v` and leads to `a`.
   */
  lemma TokenLeadsAwayReachable(base: string, urls: seq<string>, authUrl: string)
    requires LineText(base) && |urls| == 2
    ensures
      var db := Own.Run(Own.Db(map[], map[]), base, CREATE_PAIR);
      var ds := [PUBLIC, Pasting(base)];
      && Generated(db, base, ds)
      && LeadsAway(db, base, Table(ds, base), Defined(ds, urls, authUrl), "a-bypass-0", Own.HostOf("v", base), 1)
  {
    var d, ds := Pasting(base), [PUBLIC, Pasting(base)];
    assert ds[|ds| - 1] == d && d.project == 2;
    BothStored(base);
    PastingGenerated(base);
    PastingLine(base);
    hide *;
    TokenLeadsAway(BOTH, base, ds, urls, authUrl, d, 0, Own.HostOf("v", base), 1);
  }

  lemma LineTextExists()
    ensures LineText("e.f")
  {
    TrimmedStays("e.f");
    assert Lower("e.f") == "e.f";
  }
}
