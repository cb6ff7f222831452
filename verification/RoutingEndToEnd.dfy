/**
 * Ownership, generation and the Cloudflare Tunnel rewrite together: what Traefik is finally told
 * about a host agrees with who owns it.
 */
module RoutingEndToEnd {
  import opened Wrappers
  import opened TextTools
  import opened HostRules
  import opened CfTunnel
  import opened CfMeaning
  import opened TraefikConfig
  import opened TraefikNames
  import opened TraefikOwnership
  import opened TraefikRouting
  import opened TraefikMentions
  import opened TraefikServices
  import Own = HostOwnership
  import Claims = HostClaims

  /** What the configuration finally offers. */
  function Served(ds: seq<Deployed>, base: string, tunnelBases: seq<string>, isTunnel: HostTest): Routers {
    Applied(Table(ds, base), tunnelBases, isTunnel)
  }

  /** The entrypoint a host's traffic arrives on. */
  function EntryOf(host: string, isTunnel: HostTest): string {
    if isTunnel(host) then CF_ENTRYPOINT else WEBSECURE
  }

  predicate TunnelBases(bases: seq<string>) {
    bases != [] && forall d | d in bases :: d != "" && '`' !in d
  }

  /** What the routers competing for the host on its entrypoint lead to. */
  function Offered(ds: seq<Deployed>, base: string, bases: seq<string>, isTunnel: HostTest, h: string): map<string, Target> {
    Matching(Served(ds, base, bases, isTunnel), EntryOf(h, isTunnel), h)
  }

  predicate Leads(offered: map<string, Target>, t: Target) {
    exists k | k in offered :: offered[k] == t
  }

  // ---------------------------------------------------------------- what is offered

  lemma NotPanelKey(k: string)
    ensures '_' !in k ==> k !in PANEL_KEYS
    ensures k + SUFFIX in PANEL_KEYS <==> k == PANEL || k == PANEL_OAUTH
  {
    BaseNameOfSibling(k);
    BaseNameOfSibling(PANEL);
    BaseNameOfSibling(PANEL_OAUTH);
    assert (PANEL + SUFFIX)[|PANEL|] == '_' && (PANEL_OAUTH + SUFFIX)[|PANEL_OAUTH|] == '_';
  }

  /** On a public entrypoint a public host keeps the generated routers, a tunnel host the foreign ones. */
  lemma PublicOffer(db: Own.Db, base: string, ds: seq<Deployed>, bases: seq<string>, isTunnel: HostTest,
                    entryPoint: string, h: string)
    requires Generated(db, base, ds) && TunnelBases(bases) && entryPoint != CF_ENTRYPOINT
    ensures Matching(Served(ds, base, bases, isTunnel), entryPoint, h) ==
            if isTunnel(h) then Stuck(Table(ds, base), entryPoint, h) else Matching(Table(ds, base), entryPoint, h)
  {
    TableSuitsRewrite(db, base, ds, isTunnel);
    NoPanelKeys(db, base, ds, entryPoint, h);
    hide *;
    ServedIs(ds, base, bases, isTunnel);
    TunnelBasesAre(bases);
    ApplyOnPublicEntry(Table(ds, base), bases, isTunnel, entryPoint, h);
  }

  lemma ServedIs(ds: seq<Deployed>, base: string, bases: seq<string>, isTunnel: HostTest)
    ensures Served(ds, base, bases, isTunnel) == Applied(Table(ds, base), bases, isTunnel)
  {
  }

  lemma TunnelBasesAre(bases: seq<string>)
    requires TunnelBases(bases)
    ensures bases != [] && forall d | d in bases :: d != "" && '`' !in d
  {
  }

  /** No generated router has one of the panel's names. */
  lemma NoPanelKeys(db: Own.Db, base: string, ds: seq<Deployed>, entryPoint: string, h: string)
    requires Generated(db, base, ds)
    ensures Matching(Table(ds, base), entryPoint, h) - PANEL_KEYS == Matching(Table(ds, base), entryPoint, h)
    ensures Stuck(Table(ds, base), entryPoint, h) - PANEL_KEYS == Stuck(Table(ds, base), entryPoint, h)
  {
    TableNamesPlain(db, base, ds);
    forall k | k in Table(ds, base)
      ensures k !in PANEL_KEYS
    {
      NotPanelKey(k);
    }
    hide Table, Generated, Serves, TargetOf, Foreign;
  }

  /** On the tunnel entrypoint a host finds the siblings the panel left, and the panel on its own hosts. */
  lemma TunnelOffer(db: Own.Db, base: string, ds: seq<Deployed>, bases: seq<string>, isTunnel: HostTest, h: string)
    requires Generated(db, base, ds) && TunnelBases(bases)
    ensures Matching(Served(ds, base, bases, isTunnel), CF_ENTRYPOINT, h) ==
            (Siblings(Table(ds, base), isTunnel, h) - PANEL_KEYS) + PanelEntries(bases, CF_ENTRYPOINT, h)
  {
    TableSuitsRewrite(db, base, ds, isTunnel);
    hide Applied, Table, NoClash, NoneOnTunnel, Generated;
    ApplyOnTunnelEntry(Table(ds, base), bases, isTunnel, h);
  }

  lemma SiblingEntry(m: Routers, k: string, h: string, isTunnel: HostTest)
    requires k in m && h in HostsOf(m[k]) && isTunnel(h)
    ensures k + SUFFIX in Siblings(m, isTunnel, h) && Siblings(m, isTunnel, h)[k + SUFFIX] == TargetOf(m[k])
  {
    BaseNameOfSibling(k);
    hide HostsOf, TargetOf, BaseName;
  }

  /** The user-facing router of a project is not foreign. */
  lemma RoutedIsPlain(r: Router, h: string, d: Deployed)
    requires Routes(r, h, d)
    ensures h in HostsOf(r)
  {
    MentionsIs(r, h);
    assert Hosts("") == [];
    hide Hosts, MatchRule, Chain;
  }

  lemma SiblingSource(m: Routers, k: string, h: string, isTunnel: HostTest)
    requires k in Siblings(m, isTunnel, h)
    ensures
      var b := BaseName(k);
      && b.Some? && k == b.value + SUFFIX && b.value in m && h in HostsOf(m[b.value])
      && Siblings(m, isTunnel, h)[k] == TargetOf(m[b.value])
  {
    SiblingOfBaseName(k);
    hide HostsOf, TargetOf;
  }

  /** The panel's own routers never lead where a project's do. */
  lemma PanelLeadsElsewhere(bases: seq<string>, entryPoint: string, h: string, d: Deployed)
    ensures !Leads(PanelEntries(bases, entryPoint, h), ProjectTarget(d))
  {
    var chain := Chain(d);
    assert chain[|chain| - 1] == EMBED_BRIDGE;
    assert EMBED_BRIDGE[0] == 'e' && "block-internal-api@file"[0] == 'b';
    hide PanelHosts;
  }

  // ---------------------------------------------------------------- completeness

  /** A router of the table on the public entrypoint is the sibling's original. */
  lemma OnWebsecure(db: Own.Db, base: string, ds: seq<Deployed>, k: string)
    requires Generated(db, base, ds) && k in Table(ds, base)
    ensures WEBSECURE in Table(ds, base)[k].entryPoints
  {
    TableIsWritten(db, base, ds, k);
    hide Generated, Table, Emit, HostsOf;
  }

  /** Group `g` keeps its router, and on the tunnel entrypoint the panel does not take its name. */
  ghost predicate Arrives(ds: seq<Deployed>, base: string, d: Deployed, h: string, isTunnel: HostTest, g: nat) {
    && Keeps(ds, base, d, h, g)
    && (isTunnel(h) ==> GroupName(d, g) != PANEL && GroupName(d, g) != PANEL_OAUTH)
  }

  lemma PublicHostReaches(db: Own.Db, base: string, ds: seq<Deployed>, d: Deployed, h: string,
                          bases: seq<string>, isTunnel: HostTest)
    requires Generated(db, base, ds) && d in ds && TunnelBases(bases) && !isTunnel(h)
    ensures Leads(Offered(ds, base, bases, isTunnel, h), ProjectTarget(d)) <==>
            exists g: nat | IsGroup(d, g) :: Arrives(ds, base, d, h, isTunnel, g)
  {
    PublicOffer(db, base, ds, bases, isTunnel, WEBSECURE, h);
    ClaimedHostIsRouted(db, base, ds, d, h);
    hide Generated, Table, Served, Keeps, Serves, TargetOf, ProjectTarget, IsGroup;
    var offered, m := Offered(ds, base, bases, isTunnel, h), Table(ds, base);
    assert offered == Matching(m, WEBSECURE, h);
    if k :| k in m && Routes(m[k], h, d) {
      assert k in offered && offered[k] == ProjectTarget(d);
    }
  }

  lemma SiblingArrives(db: Own.Db, base: string, ds: seq<Deployed>, d: Deployed, h: string, isTunnel: HostTest, k: string)
    requires Generated(db, base, ds) && d in ds && isTunnel(h)
    requires k in Siblings(Table(ds, base), isTunnel, h) && k !in PANEL_KEYS
    requires Siblings(Table(ds, base), isTunnel, h)[k] == ProjectTarget(d)
    ensures exists g: nat | IsGroup(d, g) :: Arrives(ds, base, d, h, isTunnel, g)
  {
    var m := Table(ds, base);
    SiblingSource(m, k, h, isTunnel);
    var b := BaseName(k).value;
    OnWebsecure(db, base, ds, b);
    MentionsIs(m[b], h);
    GeneratedIsSeparate(db, base, ds);
    DeploymentHosts(db, base, ds, d);
    assert Routes(m[b], h, d);
    RoutedIsKept(ds, base, d, h, b);
    NotPanelKey(b);
    hide Generated, Table, Overwritten, GroupName, GroupHosts, Siblings, HostsOf;
    hide TargetOf, Separate, PlainDeployment, BaseName;
    hide HostsForPrefix, ProjectTarget;
    var g: nat :| b == GroupName(d, g) && Keeps(ds, base, d, h, g);
    assert Arrives(ds, base, d, h, isTunnel, g);
  }

  lemma ArrivesAsSibling(db: Own.Db, base: string, ds: seq<Deployed>, d: Deployed, h: string, isTunnel: HostTest, g: nat)
    requires Generated(db, base, ds) && d in ds && isTunnel(h) && Arrives(ds, base, d, h, isTunnel, g)
    ensures
      var k := GroupName(d, g) + SUFFIX;
      && k in Siblings(Table(ds, base), isTunnel, h) && k !in PANEL_KEYS
      && Siblings(Table(ds, base), isTunnel, h)[k] == ProjectTarget(d)
  {
    GeneratedIsSeparate(db, base, ds);
    DeploymentHosts(db, base, ds, d);
    KeptIsRouted(ds, base, d, h, g);
    RoutedIsPlain(Table(ds, base)[GroupName(d, g)], h, d);
    SiblingEntry(Table(ds, base), GroupName(d, g), h, isTunnel);
    NotPanelKey(GroupName(d, g));
    hide Generated, Table, Overwritten, GroupName, GroupHosts, Siblings, HostsOf, TargetOf, Separate, PlainDeployment;
    hide HostsForPrefix, ProjectTarget;
  }

  lemma LeadsAmong(siblings: map<string, Target>, panel: map<string, Target>, t: Target)
    requires !Leads(panel, t) && panel.Keys <= PANEL_KEYS
    ensures Leads((siblings - PANEL_KEYS) + panel, t) <==> exists k | k in siblings :: k !in PANEL_KEYS && siblings[k] == t
  {
    var offered := (siblings - PANEL_KEYS) + panel;
    if k :| k in siblings && k !in PANEL_KEYS && siblings[k] == t {
      assert k in offered && offered[k] == t;
    }
  }

  lemma TunnelOffered(db: Own.Db, base: string, ds: seq<Deployed>, bases: seq<string>, isTunnel: HostTest, h: string, t: Target)
    requires Generated(db, base, ds) && TunnelBases(bases) && isTunnel(h)
    requires !Leads(PanelEntries(bases, CF_ENTRYPOINT, h), t)
    ensures
      var siblings := Siblings(Table(ds, base), isTunnel, h);
      Leads(Offered(ds, base, bases, isTunnel, h), t) <==> exists k | k in siblings :: k !in PANEL_KEYS && siblings[k] == t
  {
    TunnelOffer(db, base, ds, bases, isTunnel, h);
    PanelKeysOnly(bases, CF_ENTRYPOINT, h);
    assert EntryOf(h, isTunnel) == CF_ENTRYPOINT;
    hide Generated, Table, Served, Siblings, PanelEntries, Matching, Leads;
    LeadsAmong(Siblings(Table(ds, base), isTunnel, h), PanelEntries(bases, CF_ENTRYPOINT, h), t);
  }

  lemma TunnelHostReaches(db: Own.Db, base: string, ds: seq<Deployed>, d: Deployed, h: string,
                          bases: seq<string>, isTunnel: HostTest)
    requires Generated(db, base, ds) && d in ds && TunnelBases(bases) && isTunnel(h)
    ensures Leads(Offered(ds, base, bases, isTunnel, h), ProjectTarget(d)) <==>
            exists g: nat | IsGroup(d, g) :: Arrives(ds, base, d, h, isTunnel, g)
  {
    hide *;
    PanelLeadsElsewhere(bases, CF_ENTRYPOINT, h, d);
    TunnelOffered(db, base, ds, bases, isTunnel, h, ProjectTarget(d));
    var siblings := Siblings(Table(ds, base), isTunnel, h);
    if k :| k in siblings && k !in PANEL_KEYS && siblings[k] == ProjectTarget(d) {
      SiblingArrives(db, base, ds, d, h, isTunnel, k);
    }
    if g: nat :| IsGroup(d, g) && Arrives(ds, base, d, h, isTunnel, g) {
      ArrivesAsSibling(db, base, ds, d, h, isTunnel, g);
    }
  }

  lemma PanelKeysOnly(bases: seq<string>, entryPoint: string, h: string)
    ensures PanelEntries(bases, entryPoint, h).Keys <= PANEL_KEYS
  {
    hide PanelHosts;
  }

  /**
   * Completeness, exactly: on the entrypoint its traffic arrives on, a host reaches the backend of a
   * running project through that project's chain if and only if some group naming the host is not
   * overwritten and, for a tunnel host, is not called like the panel. Elsewhere a tunnel host is matched by
   * foreign rules only.
   */
  lemma ClaimedHostReachesProject(db: Own.Db, base: string, ds: seq<Deployed>, d: Deployed, h: string,
                                  bases: seq<string>, isTunnel: HostTest)
    requires Generated(db, base, ds) && d in ds && TunnelBases(bases)
    ensures Leads(Offered(ds, base, bases, isTunnel, h), ProjectTarget(d)) <==>
            exists g: nat | IsGroup(d, g) :: Arrives(ds, base, d, h, isTunnel, g)
    ensures isTunnel(h) ==>
              Matching(Served(ds, base, bases, isTunnel), WEBSECURE, h) == Stuck(Table(ds, base), WEBSECURE, h)
  {
    assert WEBSECURE != CF_ENTRYPOINT;
    hide *;
    PublicOffer(db, base, ds, bases, isTunnel, WEBSECURE, h);
    if isTunnel(h) {
      TunnelHostReaches(db, base, ds, d, h, bases, isTunnel);
    } else {
      PublicHostReaches(db, base, ds, d, h, bases, isTunnel);
    }
  }

  // ---------------------------------------------------------------- tunnel hosts off the public entrypoint

  /** However the deployments are ordered, nothing on the public entrypoint matches the host. */
  ghost predicate AlwaysLeaves(ds: seq<Deployed>, base: string, bases: seq<string>, isTunnel: HostTest, h: string) {
    forall es | multiset(es) == multiset(ds) :: Matching(Served(es, base, bases, isTunnel), WEBSECURE, h) == map[]
  }

  /**
   * A tunnel host leaves the public entrypoint in every order if and only if no deployment with a token in
   * some bypass line has the host or holds its token in such a line.
   */
  lemma AlwaysLeavesIff(db: Own.Db, base: string, ds: seq<Deployed>, bases: seq<string>, isTunnel: HostTest, h: string)
    requires Generated(db, base, ds) && TunnelBases(bases) && isTunnel(h)
    ensures AlwaysLeaves(ds, base, bases, isTunnel, h) <==> forall d | d in ds :: !SticksBy(d, base, h)
  {
    assert WEBSECURE != CF_ENTRYPOINT;
    forall es | multiset(es) == multiset(ds)
      ensures Matching(Served(es, base, bases, isTunnel), WEBSECURE, h) == Stuck(Table(es, base), WEBSECURE, h)
    {
      ReorderIsGenerated(db, base, ds, es);
      PublicOffer(db, base, es, bases, isTunnel, WEBSECURE, h);
    }
    NeverStuckIff(db, base, ds, h);
    hide Generated, Served, Table, Matching, Stuck, SticksBy, TunnelBases;
  }

  /** For instance the host of project `v`, while project `a` has its token in a bypass line. */
  lemma TokenSticks(base: string, bases: seq<string>, isTunnel: HostTest)
    requires LineText(base) && TunnelBases(bases) && isTunnel(Own.HostOf("v", base))
    ensures Generated(BOTH, base, [PUBLIC, Pasting(base)])
    ensures !AlwaysLeaves([PUBLIC, Pasting(base)], base, bases, isTunnel, Own.HostOf("v", base))
  {
    var d, h := Pasting(base), Own.HostOf("v", base);
    PastingGenerated(base);
    PastingLine(base);
    assert SticksBy(d, base, h) by {
      hide BypassLine, LineHosts, BypassPath, Split, Own.HostOf, TokenPath, LineText;
    }
    assert d in [PUBLIC, d];
    hide Generated, SticksBy, AlwaysLeaves, TunnelBases, LineText, Own.HostOf;
    AlwaysLeavesIff(BOTH, base, [PUBLIC, d], bases, isTunnel, h);
  }

  // ---------------------------------------------------------------- soundness

  /** The name under which a write is served on the entrypoint. */
  function ServedName(name: string, entryPoint: string): string {
    if entryPoint == CF_ENTRYPOINT then name + SUFFIX else name
  }

  lemma ServedSource(db: Own.Db, base: string, ds: seq<Deployed>, h: string, k: string,
                     bases: seq<string>, isTunnel: HostTest, entryPoint: string) returns (source: string)
    requires Generated(db, base, ds) && TunnelBases(bases)
    requires k in Matching(Served(ds, base, bases, isTunnel), entryPoint, h) && k !in PanelEntries(bases, entryPoint, h)
    ensures source in Table(ds, base) && Mentions(Table(ds, base)[source], h) && ServedName(source, entryPoint) == k
    ensures Matching(Served(ds, base, bases, isTunnel), entryPoint, h)[k] == TargetOf(Table(ds, base)[source])
  {
    var m := Table(ds, base);
    hide Table, Served, PanelEntries, Generated, HostsOf, TargetOf, Siblings, Mentions, Foreign;
    if entryPoint == CF_ENTRYPOINT {
      TunnelOffer(db, base, ds, bases, isTunnel, h);
      SiblingSource(m, k, h, isTunnel);
      source := BaseName(k).value;
      MentionsIs(m[source], h);
    } else {
      PublicOffer(db, base, ds, bases, isTunnel, entryPoint, h);
      source := k;
    }
  }

  /**
   * Soundness: whatever matches a host on either entrypoint, the panel's own routers apart, leads where a
   * write made for one deployment leads. Either the host belongs to the project of that deployment, or its
   * token stands in one of the deployment's bypass lines.
   */
  lemma ServedRouterBelongsToLookup(db: Own.Db, base: string, ds: seq<Deployed>, h: string, k: string,
                                    bases: seq<string>, isTunnel: HostTest, entryPoint: string)
    requires Generated(db, base, ds) && TunnelBases(bases)
    requires k in Matching(Served(ds, base, bases, isTunnel), entryPoint, h) && k !in PanelEntries(bases, entryPoint, h)
    ensures
      var t := Matching(Served(ds, base, bases, isTunnel), entryPoint, h)[k];
      exists d, e: Emission :: WrittenFor(ds, base, d, e, e.name) && (BelongsTo(db, base, h, d) || LineMentions(d, h))
                               && ServedName(e.name, entryPoint) == k && t == TargetOf(e.router)
  {
    var source := ServedSource(db, base, ds, h, k, bases, isTunnel, entryPoint);
    RouterBelongsToLookup(db, base, ds, source, h);
    hide Generated, Table, Served, Emit, MadeFor, Hosts, BelongsTo, LineMentions, TargetOf, PanelEntries;
    var d, e :| WrittenFor(ds, base, d, e, source) && (BelongsTo(db, base, h, d) || LineMentions(d, h));
    assert e.name == source;
  }

  /** A non-panel router of the table that mentions the host is served, in place or as a sibling. */
  lemma MentionIsServed(db: Own.Db, base: string, ds: seq<Deployed>, bases: seq<string>, isTunnel: HostTest, k: string, h: string)
      returns (entryPoint: string, served: string)
    requires Generated(db, base, ds) && TunnelBases(bases) && k in Table(ds, base) && Mentions(Table(ds, base)[k], h)
    requires k != PANEL && k != PANEL_OAUTH
    ensures served !in PanelEntries(bases, entryPoint, h) && served == ServedName(k, entryPoint)
    ensures
      var offered := Matching(Served(ds, base, bases, isTunnel), entryPoint, h);
      served in offered && offered[served] == TargetOf(Table(ds, base)[k])
  {
    var m := Table(ds, base);
    OnWebsecure(db, base, ds, k);
    NotPanelKey(k);
    PanelKeysOnly(bases, CF_ENTRYPOINT, h);
    NoPanelOutside(bases, WEBSECURE, h);
    MentionsIs(m[k], h);
    assert WEBSECURE != CF_ENTRYPOINT;
    hide Generated, Table, Served, Mentions, PanelEntries, Foreign, HostsOf, Siblings, TunnelBases, TargetOf;
    if isTunnel(h) && !Foreign(m[k]) {
      entryPoint, served := CF_ENTRYPOINT, k + SUFFIX;
      TunnelOffer(db, base, ds, bases, isTunnel, h);
      SiblingEntry(m, k, h, isTunnel);
    } else {
      entryPoint, served := WEBSECURE, k;
      PublicOffer(db, base, ds, bases, isTunnel, WEBSECURE, h);
    }
  }

  lemma SideNotPanel(d: Deployed, g: nat, k: string)
    requires SideOf(d, g, k)
    ensures k != PANEL && k != PANEL_OAUTH
  {
    if k == GroupName(d, g) + DEVICE_FLOW {
      LastChar(GroupName(d, g), DEVICE_FLOW);
      assert DEVICE_FLOW[|DEVICE_FLOW| - 1] == 'w';
    } else {
      var i: nat :| i < |Split(d.bypass, '\n')| && BypassLine(d, i) && k == BypassName(GroupName(d, g), i);
      DigitsAreDigits(i);
      LastChar(GroupName(d, g) + BYPASS, Digits(i));
      assert k == GroupName(d, g) + BYPASS + Digits(i);
      hide Digits, GroupName, BypassLine, Split;
    }
    assert PANEL[|PANEL| - 1] == 'l' && PANEL_OAUTH[|PANEL_OAUTH| - 1] == 'h';
  }

  /** The router served as `k` leads where a write for a project that claims the host leads. */
  ghost predicate ServedFor(db: Own.Db, base: string, ds: seq<Deployed>, bases: seq<string>, isTunnel: HostTest,
                            entryPoint: string, h: string, k: string) {
    var offered := Matching(Served(ds, base, bases, isTunnel), entryPoint, h);
    exists d, e: Emission :: WrittenFor(ds, base, d, e, e.name) && BelongsTo(db, base, h, d)
                             && ServedName(e.name, entryPoint) == k && k in offered && offered[k] == TargetOf(e.router)
  }

  ghost predicate AlwaysServedFor(db: Own.Db, base: string, ds: seq<Deployed>, bases: seq<string>, isTunnel: HostTest) {
    forall es, entryPoint, h, k | multiset(es) == multiset(ds) &&
        k in Matching(Served(es, base, bases, isTunnel), entryPoint, h) && k !in PanelEntries(bases, entryPoint, h) ::
      ServedFor(db, base, es, bases, isTunnel, entryPoint, h, k)
  }

  lemma OwnTokensServe(db: Own.Db, base: string, ds: seq<Deployed>, h: string, k: string,
                       bases: seq<string>, isTunnel: HostTest, entryPoint: string)
    requires Generated(db, base, ds) && TunnelBases(bases) && TokensOwn(ds, base)
    requires k in Matching(Served(ds, base, bases, isTunnel), entryPoint, h) && k !in PanelEntries(bases, entryPoint, h)
    ensures ServedFor(db, base, ds, bases, isTunnel, entryPoint, h, k)
  {
    var source := ServedSource(db, base, ds, h, k, bases, isTunnel, entryPoint);
    OwnTokensBelong(db, base, ds, source, h);
    hide Generated, Table, Served, Emit, MadeFor, Hosts, BelongsTo, TokensOwn, TargetOf, PanelEntries, Matching;
    var d, e :| WrittenFor(ds, base, d, e, source) && BelongsTo(db, base, h, d);
    assert e.name == source;
  }

  lemma StrangeTokenServes(db: Own.Db, base: string, ds: seq<Deployed>, d: Deployed, h: string,
                           bases: seq<string>, isTunnel: HostTest)
    requires Generated(db, base, ds) && TunnelBases(bases) && AlwaysServedFor(db, base, ds, bases, isTunnel)
    requires d in ds && LineMentions(d, h)
    ensures Own.Claims(db, base, d.project, h)
  {
    var es, e := LastMentions(db, base, ds, d, h);
    SideNotPanel(d, 0, e.name);
    assert e.name in Table(es, base) && Table(es, base)[e.name] == e.router && Mentions(e.router, h);
    var entryPoint, served := MentionIsServed(db, base, es, bases, isTunnel, e.name, h);
    assert ServedFor(db, base, es, bases, isTunnel, entryPoint, h, served);
    hide Generated, Own.Claims, Table, Hosts, WrittenFor, LineMentions, SideOf;
    hide AlwaysServedFor, Served, Matching, PanelEntries;
    hide TunnelBases, Mentions, TargetOf;
    var o, f: Emission :| WrittenFor(es, base, o, f, f.name) && BelongsTo(db, base, h, o)
                          && ServedName(f.name, entryPoint) == served;
    BaseNameOfSibling(f.name);
    BaseNameOfSibling(e.name);
    WriterIsUnique(db, base, es, d, e, o, f, e.name);
  }

  /**
   * However the deployments are ordered, whatever matches a host, the panel's own routers apart, leads where
   * a write for the project of the host leads, if and only if bypass lines hold tokens of hosts of their own
   * deployment only.
   */
  lemma AlwaysServedForIff(db: Own.Db, base: string, ds: seq<Deployed>, bases: seq<string>, isTunnel: HostTest)
    requires Generated(db, base, ds) && TunnelBases(bases)
    ensures AlwaysServedFor(db, base, ds, bases, isTunnel) <==> TokensOwn(ds, base)
  {
    hide Generated, TunnelBases, ServedFor, Served, Matching, PanelEntries, LineMentions, HasHost, Own.Claims;
    if AlwaysServedFor(db, base, ds, bases, isTunnel) {
      forall d, h | d in ds && LineMentions(d, h)
        ensures HasHost(d, [base], h)
      {
        StrangeTokenServes(db, base, ds, d, h, bases, isTunnel);
        ClaimedIsOwn(db, base, ds, d, h);
      }
    }
    if TokensOwn(ds, base) {
      forall es, entryPoint, h, k | multiset(es) == multiset(ds) &&
          k in Matching(Served(es, base, bases, isTunnel), entryPoint, h) && k !in PanelEntries(bases, entryPoint, h)
        ensures ServedFor(db, base, es, bases, isTunnel, entryPoint, h, k)
      {
        SameMembers(es, ds);
        ReorderIsGenerated(db, base, ds, es);
        OwnTokensServe(db, base, es, h, k, bases, isTunnel, entryPoint);
      }
    }
  }

  // ---------------------------------------------------------------- backends of other projects

  /** Something offered for a host that project `p` claims leads to another project's backend. */
  predicate ServedAway(db: Own.Db, base: string, ds: seq<Deployed>, urls: seq<string>, authUrl: string,
                       bases: seq<string>, isTunnel: HostTest, entryPoint: string, k: string, h: string, p: nat)
    requires |urls| == |ds|
  {
    var offered := Matching(Served(ds, base, bases, isTunnel), entryPoint, h);
    && k in offered && k !in PanelEntries(bases, entryPoint, h)
    && Own.Claims(db, base, p, h) && Strays(Defined(ds, urls, authUrl), offered[k].service, p)
  }

  ghost predicate AlwaysServedHome(db: Own.Db, base: string, ds: seq<Deployed>, authUrl: string,
                                   bases: seq<string>, isTunnel: HostTest) {
    forall es, urls, entryPoint, k, h, p | multiset(es) == multiset(ds) && |urls| == |es| ::
      !ServedAway(db, base, es, urls, authUrl, bases, isTunnel, entryPoint, k, h, p)
  }

  /** What is served leads away only where the table does. */
  lemma ServedAwayIsAway(db: Own.Db, base: string, ds: seq<Deployed>, urls: seq<string>, authUrl: string,
                         bases: seq<string>, isTunnel: HostTest, entryPoint: string, k: string, h: string, p: nat)
    requires Generated(db, base, ds) && TunnelBases(bases) && |urls| == |ds|
    requires ServedAway(db, base, ds, urls, authUrl, bases, isTunnel, entryPoint, k, h, p)
    ensures exists source :: LeadsAway(db, base, Table(ds, base), Defined(ds, urls, authUrl), source, h, p)
  {
    var source := ServedSource(db, base, ds, h, k, bases, isTunnel, entryPoint);
    hide Generated, Table, Served, Mentions, PanelEntries, Defined, Strays, Own.Claims;
    assert LeadsAway(db, base, Table(ds, base), Defined(ds, urls, authUrl), source, h, p);
  }

  /** A router that leads away is no user-facing one, so the panel does not take its sibling's name. */
  lemma AwayIsNotPanel(db: Own.Db, base: string, ds: seq<Deployed>, urls: seq<string>, authUrl: string,
                       k: string, h: string, p: nat)
    requires Generated(db, base, ds) && |urls| == |ds|
    requires LeadsAway(db, base, Table(ds, base), Defined(ds, urls, authUrl), k, h, p)
    ensures k != PANEL && k != PANEL_OAUTH
  {
    TableAt(ds, base, k);
    LastNamedOfAll(ds, k, [base]);
    var w := LastWriter(ds, k, [base]).value;
    EntryKind(w, [base], k);
    GeneratedIsSeparate(db, base, ds);
    DeploymentHosts(db, base, ds, w);
    ServiceLeads(ds, urls, authUrl, w.prefix, p);
    hide Emit, LastNamed, LastWriter, Table, EmitAll, GroupName, GroupHosts, Hosts;
    hide Generated, PlainDeployment, Defined, Own.Claims;
    hide Own.Norm, Strays, HostsForPrefix, SideOf, MatchRule, Chain;
    if SideName(w, k) {
      var g: nat :| IsGroup(w, g) && SideOf(w, g, k);
      SideNotPanel(w, g, k);
    } else {
      var g: nat :| IsGroup(w, g) && k == GroupName(w, g) && Table(ds, base)[k] == FacingOf(w, g, [base]).router;
      FacingMentions(w, g, base, h);
      HasHostIsGroup(w, base, h);
      ClaimedByOwner(db, base, w, h, p);
    }
  }

  lemma FacingMentions(d: Deployed, g: nat, base: string, h: string)
    requires PlainDeployment(d, [base]) && IsGroup(d, g)
    ensures Mentions(FacingOf(d, g, [base]).router, h) <==> h in GroupHosts(d, g, [base])
    ensures FacingOf(d, g, [base]).router.service == d.prefix
  {
    GroupIsPrintable(d, g, [base]);
    FacingInGroup(GroupName(d, g), GroupHosts(d, g, [base]), d);
    hide Hosts, GroupName, GroupHosts, PlainDeployment, MatchRule;
  }

  lemma ClaimedByOwner(db: Own.Db, base: string, d: Deployed, h: string, p: nat)
    requires Own.Inv(db, base) && Own.Claims(db, base, d.project, h) && Own.Claims(db, base, p, h)
    ensures p == d.project
  {
    Claims.OneOwner(db, base, d.project, p, h);
  }

  lemma AwayIsServed(db: Own.Db, base: string, ds: seq<Deployed>, urls: seq<string>, authUrl: string,
                     bases: seq<string>, isTunnel: HostTest, k: string, h: string, p: nat)
      returns (entryPoint: string, served: string)
    requires Generated(db, base, ds) && TunnelBases(bases) && |urls| == |ds|
    requires LeadsAway(db, base, Table(ds, base), Defined(ds, urls, authUrl), k, h, p)
    ensures ServedAway(db, base, ds, urls, authUrl, bases, isTunnel, entryPoint, served, h, p)
  {
    AwayIsNotPanel(db, base, ds, urls, authUrl, k, h, p);
    hide Generated, Table, Served, Mentions, PanelEntries, Defined, Strays, Own.Claims, TunnelBases, Matching;
    entryPoint, served := MentionIsServed(db, base, ds, bases, isTunnel, k, h);
  }

  /**
   * However the deployments are ordered, nothing offered for a claimed host on any entrypoint, the panel
   * apart, leads to the backend of a project that does not claim it, if and only if what is deployed is clear.
   */
  lemma ServedStaysHome(db: Own.Db, base: string, ds: seq<Deployed>, authUrl: string,
                        bases: seq<string>, isTunnel: HostTest)
    requires Generated(db, base, ds) && TunnelBases(bases)
    ensures AlwaysServedHome(db, base, ds, authUrl, bases, isTunnel) <==> Clear(db, base, ds)
  {
    AlwaysHomeIff(db, base, ds, authUrl);
    hide Generated, Table, Defined, LeadsAway, ServedAway, Clear, TunnelBases;
    if AlwaysHome(db, base, ds, authUrl) {
      forall es, urls, entryPoint, k, h, p: nat | multiset(es) == multiset(ds) && |urls| == |es|
        ensures !ServedAway(db, base, es, urls, authUrl, bases, isTunnel, entryPoint, k, h, p)
      {
        ReorderIsGenerated(db, base, ds, es);
        if ServedAway(db, base, es, urls, authUrl, bases, isTunnel, entryPoint, k, h, p) {
          ServedAwayIsAway(db, base, es, urls, authUrl, bases, isTunnel, entryPoint, k, h, p);
        }
      }
    }
    if AlwaysServedHome(db, base, ds, authUrl, bases, isTunnel) {
      forall es, urls, k, h, p: nat | multiset(es) == multiset(ds) && |urls| == |es|
        ensures !LeadsAway(db, base, Table(es, base), Defined(es, urls, authUrl), k, h, p)
      {
        ReorderIsGenerated(db, base, ds, es);
        if LeadsAway(db, base, Table(es, base), Defined(es, urls, authUrl), k, h, p) {
          var entryPoint, served := AwayIsServed(db, base, es, urls, authUrl, bases, isTunnel, k, h, p);
        }
      }
    }
  }
}
