/**
 * What the routers of tunnels and placeholders, written after the deployments, take from projects. Their
 * names and services start with `tunnel-` or `domain-`, and so may a project's prefix.
 */
module TraefikFronts {
  import opened Wrappers
  import opened TextTools
  import opened HostRules
  import opened CfTunnel
  import opened CfMeaning
  import opened TraefikConfig
  import opened TraefikNames
  import opened TraefikOwnership
  import opened TraefikRouting
  import opened TraefikServices
  import Own = HostOwnership
  import Claims = HostClaims

  // ---------------------------------------------------------------- the names a front writes

  /** The front's own name, its sign-in router and its bypass routers. */
  predicate FrontName(f: Front, k: string) {
    k == NameOf(f) || SideOf(AsDeployed(f), 0, k)
  }

  lemma FrontWriteIs(f: Front, bases: seq<string>, e: Emission)
    requires e in FrontWrites(f, bases)
    ensures FrontName(f, e.name)
    ensures e.router.priority == 0 ==> e.router.service == NameOf(f)
  {
    var hosts, d := HostsForPrefix(f.domain, bases), AsDeployed(f);
    GroupHas(NameOf(f), hosts, d, e);
    GroupPrecedence(NameOf(f), hosts, d);
    GroupZero(d);
    if e in Bypass(NameOf(f), hosts, Certified(hosts), d) {
      var lines := Split(d.bypass, '\n');
      BypassFromIs(NameOf(f), hosts, Certified(hosts), lines, 0, d.project, e);
      hide BypassFrom, Split, BypassRouter, Group, Trim, Digits;
      var i: nat :| i < |lines| && BypassAt(NameOf(f), hosts, Certified(hosts), lines, d.project, i, e);
      assert BypassLine(d, i);
    }
    hide BypassFrom, Split, Group, Trim, MatchRule, SideOf;
    assert e.name == NameOf(f) + DEVICE_FLOW ==> SideOf(d, 0, e.name) by {
      SideFlow(d, NameOf(f));
    }
  }

  lemma SideFlow(d: Deployed, name: string)
    requires d.prefix == name
    ensures SideOf(d, 0, name + DEVICE_FLOW)
  {
    GroupZero(d);
  }

  /** Every name of a front is written by it. */
  lemma FrontNameIsWritten(f: Front, bases: seq<string>, k: string)
    requires FrontName(f, k)
    ensures exists e | e in FrontWrites(f, bases) :: e.name == k
  {
    var hosts, d := HostsForPrefix(f.domain, bases), AsDeployed(f);
    GroupZero(d);
    if k == NameOf(f) {
      GroupHas(NameOf(f), hosts, d, Facing(NameOf(f), hosts, d));
    } else if k == NameOf(f) + DEVICE_FLOW {
      GroupHas(NameOf(f), hosts, d, DeviceFlow(NameOf(f), hosts, Certified(hosts), d.project));
    } else {
      var i: nat :| i < |Split(d.bypass, '\n')| && BypassLine(d, i) && k == BypassName(GroupName(d, 0), i);
      var e := Emission(k, BypassRouter(NameOf(f), hosts, Certified(hosts), Trim(Split(d.bypass, '\n')[i])), d.project);
      assert BypassAt(NameOf(f), hosts, Certified(hosts), Split(d.bypass, '\n'), d.project, i, e);
      BypassFromIs(NameOf(f), hosts, Certified(hosts), Split(d.bypass, '\n'), 0, d.project, e);
      GroupHas(NameOf(f), hosts, d, e);
    }
    hide Group, MatchRule, Split, BypassFrom, SideOf;
  }

  lemma {:induction false} FrontsAt(m: Routers, fs: seq<Front>, bases: seq<string>, k: string)
    ensures
      var out := PutFronts(m, fs, bases);
      if exists f | f in fs :: FrontName(f, k)
      then k in out && (out[k].priority == 0 ==> exists f | f in fs :: NameOf(f) == out[k].service)
      else At(out, k) == At(m, k)
    decreases |fs|
  {
    if fs != [] {
      var f, rest := fs[0], fs[1..];
      var next := PutAll(m, FrontWrites(f, bases));
      assert fs == [f] + rest;
      FrontsAt(next, rest, bases, k);
      FrontAt(m, f, bases, k);
      hide FrontName, FrontWrites, PutAll;
      assert (exists g | g in fs :: FrontName(g, k)) <==> FrontName(f, k) || exists g | g in rest :: FrontName(g, k);
      assert f in fs;
    }
  }

  lemma FrontAt(m: Routers, f: Front, bases: seq<string>, k: string)
    ensures
      var out := PutAll(m, FrontWrites(f, bases));
      if FrontName(f, k) then k in out && (out[k].priority == 0 ==> out[k].service == NameOf(f))
      else At(out, k) == At(m, k)
  {
    var es := FrontWrites(f, bases);
    PutAllIs(m, es, k);
    LastNamedIsWritten(es, k);
    if FrontName(f, k) {
      FrontNameIsWritten(f, bases, k);
      var e :| e in es && e.name == k && e.router == LastNamed(es, k).value;
      FrontWriteIs(f, bases, e);
    } else if LastNamed(es, k).Some? {
      var e :| e in es && e.name == k;
      FrontWriteIs(f, bases, e);
    }
    hide LastNamed, FrontName, FrontWrites, PutAll;
  }

  lemma {:induction false} FrontServicesAt(services: Services, fs: seq<Front>, url: string, s: string)
    ensures
      var out := FrontServices(services, fs, url);
      if exists f | f in fs :: NameOf(f) == s then s in out && out[s].owner == None
      else (s in out <==> s in services) && (s in out ==> out[s] == services[s])
    decreases |fs|
  {
    if fs != [] {
      assert fs == [fs[0]] + fs[1..];
      FrontServicesAt(services[NameOf(fs[0]) := Backend(None, url)], fs[1..], url, s);
    }
  }

  // ---------------------------------------------------------------- what is left to a project

  /** A router leads the host to the project through its chain, and the service still is the project's. */
  predicate Reaches(m: Routers, services: Services, h: string, d: Deployed) {
    && d.prefix in services && services[d.prefix].owner == Some(d.project)
    && Routed(m, h, d)
  }

  /** No front takes the name of group `g`. */
  predicate Untaken(fs: seq<Front>, d: Deployed, g: nat) {
    forall f | f in fs :: !FrontName(f, GroupName(d, g))
  }

  lemma ServiceIsOwn(ds: seq<Deployed>, urls: seq<string>, authUrl: string, d: Deployed)
    requires Separate(ds) && |urls| == |ds| && d in ds
    ensures
      var services := Defined(ds, urls, authUrl);
      d.prefix in services && services[d.prefix].owner == Some(d.project)
  {
    ServiceAt(FirstServices(authUrl), ds, urls, d.prefix);
    assert Deploys(ds, d.prefix);
    hide ServicesOf;
  }

  lemma ReachedIsKept(ds: seq<Deployed>, base: string, fs: seq<Front>, d: Deployed, h: string, k: string)
    requires Separate(ds) && d in ds && PlainDeployment(d, [base])
    requires forall f | f in fs :: NameOf(f) != d.prefix
    requires
      var m := PutFronts(Table(ds, base), fs, [base]);
      k in m && Routes(m[k], h, d)
    ensures exists g: nat | IsGroup(d, g) :: Keeps(ds, base, d, h, g) && Untaken(fs, d, g)
  {
    var m := PutFronts(Table(ds, base), fs, [base]);
    FrontsAt(Table(ds, base), fs, [base], k);
    assert m[k].priority == 0 && m[k].service == d.prefix;
    hide Table, PutFronts, Routes, PlainDeployment, FrontName, Overwritten, GroupName, GroupHosts, Separate;
    RoutedIsKept(ds, base, d, h, k);
    var g: nat :| k == GroupName(d, g) && Keeps(ds, base, d, h, g);
    assert Untaken(fs, d, g);
  }

  lemma KeptIsReached(ds: seq<Deployed>, base: string, fs: seq<Front>, d: Deployed, h: string, g: nat)
    requires Separate(ds) && d in ds && PlainDeployment(d, [base]) && Keeps(ds, base, d, h, g) && Untaken(fs, d, g)
    ensures Routed(PutFronts(Table(ds, base), fs, [base]), h, d)
  {
    var k, m := GroupName(d, g), PutFronts(Table(ds, base), fs, [base]);
    KeptIsRouted(ds, base, d, h, g);
    FrontsAt(Table(ds, base), fs, [base], k);
    hide Table, PutFronts, Routes, PlainDeployment, FrontName, Keeps, GroupName, Separate;
    assert k in m && Routes(m[k], h, d);
  }

  /**
   * With tunnels and placeholders written after the deployments, a host of a running project reaches the
   * project's own backend through its chain if and only if no front is called like the project's prefix and
   * some group naming the host is kept among the deployments and called like no router of a front.
   */
  lemma ReachesIff(db: Own.Db, base: string, ds: seq<Deployed>, urls: seq<string>, authUrl: string,
                   fs: seq<Front>, url: string, d: Deployed, h: string)
    requires Generated(db, base, ds) && d in ds && |urls| == |ds|
    ensures
      Reaches(PutFronts(Table(ds, base), fs, [base]), FrontServices(Defined(ds, urls, authUrl), fs, url), h, d) <==>
        && (forall f | f in fs :: NameOf(f) != d.prefix)
        && exists g: nat | IsGroup(d, g) :: Keeps(ds, base, d, h, g) && Untaken(fs, d, g)
  {
    GeneratedIsSeparate(db, base, ds);
    DeploymentHosts(db, base, ds, d);
    ServiceIsOwn(ds, urls, authUrl, d);
    FrontServicesAt(Defined(ds, urls, authUrl), fs, url, d.prefix);
    hide Generated, Table, Defined, PutFronts, FrontServices, Routes, PlainDeployment, Separate;
    hide Keeps, Untaken, Own.Norm, Own.Claims;
    hide HostsForPrefix;
    var m := PutFronts(Table(ds, base), fs, [base]);
    if forall f | f in fs :: NameOf(f) != d.prefix {
      if k :| k in m && Routes(m[k], h, d) {
        ReachedIsKept(ds, base, fs, d, h, k);
      }
      if g: nat :| IsGroup(d, g) && Keeps(ds, base, d, h, g) && Untaken(fs, d, g) {
        KeptIsReached(ds, base, fs, d, h, g);
      }
    }
  }

  // ---------------------------------------------------------------- a project called like a tunnel

  const NAME := "tunnel-t-1"
  const PROJECT := Deployed(1, NAME, false, "", [])
  const ACTIVE := Front(true, "t-1", 0, false, "")

  lemma NameIsValid()
    ensures Own.ValidPrefix(NAME) && Trim(NAME) == NAME
  {
    TrimmedStays(NAME);
  }

  const CREATE := [Own.CreateProject(1, 0, Own.Deployment, NAME, "", true)]
  const STORED := Own.Db(map[1 := Own.Project(NAME, 0, Own.Deployment, NAME)], map[])

  lemma ProjectStored(base: string)
    ensures Own.Run(Own.Db(map[], map[]), base, CREATE) == STORED
  {
    NameIsValid();
    Claims.CreateStores(Own.Db(map[], map[]), base, 1, NAME);
    Claims.RunOfOne(Own.Db(map[], map[]), base, CREATE[0]);
    hide Own.Run, Own.Step, Own.ValidPrefix;
  }

  lemma ProjectGenerated(base: string)
    requires Own.Canonical(base) && '`' !in base
    ensures Generated(STORED, base, [PROJECT])
  {
    NameIsValid();
    hide Own.ValidPrefix, Own.Canonical;
    assert Own.Inv(STORED, base);
    hide Own.Inv;
  }

  /**
   * One request leads to it: a project may be called `tunnel-t-1`, and while the tunnel `t-1` is active none
   * of its hosts reaches it.
   */
  lemma TunnelTakesProject(base: string, urls: seq<string>, authUrl: string, url: string, h: string)
    requires Own.Canonical(base) && '`' !in base && |urls| == 1
    ensures
      && Generated(Own.Run(Own.Db(map[], map[]), base, CREATE), base, [PROJECT])
      && !Reaches(PutFronts(Table([PROJECT], base), [ACTIVE], [base]),
                  FrontServices(Defined([PROJECT], urls, authUrl), [ACTIVE], url), h, PROJECT)
  {
    ProjectStored(base);
    ProjectGenerated(base);
    assert PROJECT.prefix == NAME && NameOf(ACTIVE) == NAME;
    assert ACTIVE in [ACTIVE] && PROJECT in [PROJECT];
    hide *;
    ReachesIff(STORED, base, [PROJECT], urls, authUrl, [ACTIVE], url, PROJECT, h);
  }
}
