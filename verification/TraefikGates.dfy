/**
 * The gate in front of a project that needs authentication: which generated routers carry its
 * ForwardAuth middleware, and that nothing but a bypass or sign-in router reaches its backend without.
 */
module TraefikGates {
  import opened Wrappers
  import opened TextTools
  import opened HostRules
  import opened CfTunnel
  import opened CfMeaning
  import opened TraefikConfig
  import opened TraefikNames
  import opened TraefikOwnership
  import opened TraefikRouting
  import opened TraefikMentions
  import opened TraefikServices
  import opened RoutingEndToEnd
  import Own = HostOwnership

  /** What a request to the project's backend has to pass: its own gate when it needs one, then the embed bridge. */
  function Passing(d: Deployed): seq<string> {
    if d.needsAuth then [d.prefix + "-auth", "embed-bridge@file"] else ["embed-bridge@file"]
  }

  // ---------------------------------------------------------------- what a deployment writes

  /** A router of the deployment that carries no middleware: a sign-in router, or one of a bypass line. */
  predicate Open(d: Deployed, r: Router) {
    && r.middlewares == []
    && ((r.service == DEVICE_BACKEND && r.priority == 200)
        || (HasBypass(d) && r.priority == 100
            && (r.service == d.prefix || exists a: nat | a < |d.aliases| :: r.service == AliasName(d, a))))
  }

  predicate Closed(d: Deployed, r: Router) {
    r.middlewares == Passing(d) && r.service == d.prefix && r.priority == 0
  }

  lemma InGroupGates(d: Deployed, g: nat, bases: seq<string>, e: Emission)
    requires IsGroup(d, g) && InGroupOf(e, d, g, bases)
    ensures Open(d, e.router) || Closed(d, e.router)
  {
    if e == FacingOf(d, g, bases) {
      hide GroupName, GroupHosts, MatchRule, Split, BypassLine;
      assert Closed(d, e.router);
    } else if e == FlowOf(d, g, bases) {
      hide GroupName, GroupHosts, MatchRule, Split, BypassLine;
      assert Open(d, e.router);
    } else {
      var i: nat :| i < |Split(d.bypass, '\n')| && BypassLine(d, i) && e == BypassOf(d, g, i, bases);
      assert e.router.service == GroupName(d, g) && e.router.middlewares == [] && e.router.priority == 100;
      assert HasBypass(d);
      GroupZero(d);
      if g > 0 {
        GroupPositive(d, g);
      }
      hide GroupName, GroupHosts, MatchRule, Split, BypassLine, PathRule, BypassPath, AliasName, HasBypass;
      assert Open(d, e.router);
    }
  }

  /**
   * Every router a deployment writes either is a sign-in router or one of a bypass line, without middlewares,
   * or leads to its own service through its gate, if it needs one, and the embed bridge.
   */
  lemma EmitGates(d: Deployed, bases: seq<string>, e: Emission)
    requires e in Emit(d, bases)
    ensures Open(d, e.router) || Closed(d, e.router)
    ensures d.needsAuth && !Open(d, e.router) ==>
              |e.router.middlewares| > 0 && e.router.middlewares[0] == d.prefix + "-auth"
    ensures e.router.priority == 0 <==> Closed(d, e.router)
  {
    EmitIs(d, bases, e);
    var g: nat :| IsGroup(d, g) && InGroupOf(e, d, g, bases);
    InGroupGates(d, g, bases, e);
    hide InGroupOf, Emit, HasBypass, AliasName;
  }

  // ---------------------------------------------------------------- the table

  /** The gate of the project is defined, and asks about that project. */
  predicate GateDefined(ds: seq<Deployed>, d: Deployed) {
    var auths := AuthsOf(map[], ds);
    d.prefix + "-auth" in auths && auths[d.prefix + "-auth"] == d.project
  }

  lemma GateIsDefined(db: Own.Db, base: string, ds: seq<Deployed>, d: Deployed)
    requires Generated(db, base, ds) && d in ds && d.needsAuth
    ensures GateDefined(ds, d)
  {
    assert Own.PrefixesOk(db);
    assert forall o | o in ds :: o.project in db.projects && db.projects[o.project].prefix == o.prefix;
    hide Own.PrefixesOk, Own.AliasesOk, Own.Agree;
    AuthVerifiesOwner(db, map[], ds, d);
  }

  /** A router of the table is open or closed for the deployment it was written for. */
  lemma TableGates(db: Own.Db, base: string, ds: seq<Deployed>, k: string)
    requires Generated(db, base, ds) && k in Table(ds, base)
    ensures exists d, e :: WrittenFor(ds, base, d, e, k) && (Open(d, e.router) || Closed(d, e.router))
  {
    TableIsWritten(db, base, ds, k);
    hide Generated, Table, Emit, MadeFor, Open, Closed;
    var d, e :| WrittenFor(ds, base, d, e, k);
    EmitGates(d, [base], e);
  }

  predicate SpellsAlias(o: Deployed, prefix: string) {
    exists a: nat | a < |o.aliases| :: prefix == AliasName(o, a)
  }

  /** What may lead to a project's backend without its gate: bypass lines, and names spelled like its prefix. */
  predicate Exempt(ds: seq<Deployed>, d: Deployed, r: Router) {
    && r.middlewares == []
    && ((r.priority == 100 && HasBypass(d))
        || (r.priority == 200 && d.prefix == DEVICE_BACKEND)
        || (r.priority == 100 && exists o | o in ds && HasBypass(o) :: SpellsAlias(o, d.prefix)))
  }

  /**
   * Whatever router of the table leads to the backend of a project that needs authentication passes that
   * project's gate first, and the gate is defined and asks about that project; except routers of its own
   * bypass lines, and routers whose service is spelled like its prefix by accident.
   */
  lemma OnlyExemptSkipsGate(db: Own.Db, base: string, ds: seq<Deployed>, d: Deployed, k: string)
    requires Generated(db, base, ds) && d in ds && d.needsAuth
    requires k in Table(ds, base) && Table(ds, base)[k].service == d.prefix
    ensures GateDefined(ds, d)
    ensures Table(ds, base)[k].middlewares == [d.prefix + "-auth", "embed-bridge@file"] || Exempt(ds, d, Table(ds, base)[k])
  {
    GateIsDefined(db, base, ds, d);
    TableGates(db, base, ds, k);
    GeneratedIsSeparate(db, base, ds);
    hide Generated, Table, Emit, MadeFor, AliasName, HasBypass, GateDefined;
    var o, e :| WrittenFor(ds, base, o, e, k) && (Open(o, e.router) || Closed(o, e.router));
    if o.prefix == d.prefix {
      assert o == d;
    }
  }

  // ---------------------------------------------------------------- what is finally offered

  /** On the user-facing path every request to the backend passes the project's own gate. */
  lemma TargetPasses(d: Deployed)
    ensures ProjectTarget(d) == Target(d.prefix, Passing(d), "", 0)
  {
  }

  /**
   * A host of a project that needs authentication reaches its backend through its own gate, which is defined
   * and asks about that project, exactly when some group naming the host arrives.
   */
  lemma ClaimedHostPassesGate(db: Own.Db, base: string, ds: seq<Deployed>, d: Deployed, h: string,
                              bases: seq<string>, isTunnel: HostTest)
    requires Generated(db, base, ds) && d in ds && TunnelBases(bases) && d.needsAuth
    ensures GateDefined(ds, d)
    ensures
      Leads(Offered(ds, base, bases, isTunnel, h), Target(d.prefix, [d.prefix + "-auth", "embed-bridge@file"], "", 0)) <==>
      exists g: nat | IsGroup(d, g) :: Arrives(ds, base, d, h, isTunnel, g)
  {
    GateIsDefined(db, base, ds, d);
    TargetPasses(d);
    ClaimedHostReachesProject(db, base, ds, d, h, bases, isTunnel);
    hide Generated, Arrives, Offered, Leads, TunnelBases, GateDefined, IsGroup, ProjectTarget;
  }

  /** And whatever else is offered for any host and leads to that backend passes the gate or is exempt. */
  lemma OfferedPassesGate(db: Own.Db, base: string, ds: seq<Deployed>, d: Deployed, h: string, k: string,
                          bases: seq<string>, isTunnel: HostTest, entryPoint: string)
    requires Generated(db, base, ds) && d in ds && TunnelBases(bases) && d.needsAuth
    requires k in Matching(Served(ds, base, bases, isTunnel), entryPoint, h) && k !in PanelEntries(bases, entryPoint, h)
    requires Matching(Served(ds, base, bases, isTunnel), entryPoint, h)[k].service == d.prefix
    ensures
      var t := Matching(Served(ds, base, bases, isTunnel), entryPoint, h)[k];
      || t.middlewares == [d.prefix + "-auth", "embed-bridge@file"]
      || (t.middlewares == [] && exists r :: Exempt(ds, d, r) && t == TargetOf(r))
  {
    var source := ServedSource(db, base, ds, h, k, bases, isTunnel, entryPoint);
    hide Generated, Table, Served, Mentions, PanelEntries, Exempt, TunnelBases;
    OnlyExemptSkipsGate(db, base, ds, d, source);
    ExemptIsBare(ds, d, Table(ds, base)[source]);
  }

  lemma ExemptIsBare(ds: seq<Deployed>, d: Deployed, r: Router)
    ensures Exempt(ds, d, r) ==> r.middlewares == []
  {
  }
}
