/**
 * Which hosts the rules of the generated table mention. Bypass lines are pasted into rules as they are,
 * so a line that holds host tokens makes its routers mention hosts of other projects, and makes their
 * rules foreign to the Cloudflare rewrite.
 */
module TraefikMentions {
  import opened Wrappers
  import opened TextTools
  import opened HostRules
  import opened CfTunnel
  import opened CfMeaning
  import opened TraefikConfig
  import opened TraefikNames
  import opened TraefikOwnership
  import opened TraefikRouting
  import Own = HostOwnership
  import Claims = HostClaims

  // ---------------------------------------------------------------- bypass routers by name

  lemma BypassUnique(e: Emission, d: Deployed, g: nat, i: nat, o: nat, bases: seq<string>)
    requires IsGroup(d, g) && IsGroup(d, o) && InGroupOf(e, d, o, bases) && BypassLine(d, i)
    requires e.name == BypassName(GroupName(d, g), i)
    ensures e == BypassOf(d, g, i, bases)
  {
    assert SideOf(d, g, e.name);
    SideNotGroup(d, g, o);
    NumberNotFlow(GroupName(d, g) + BYPASS, i, GroupName(d, o));
    assert e != FacingOf(d, o, bases) && e != FlowOf(d, o, bases) by {
      hide SideOf, GroupName, GroupHosts, Split, MatchRule, Chain, BypassLine, Digits;
    }
    var j: nat :| j < |Split(d.bypass, '\n')| && BypassLine(d, j) && e == BypassOf(d, o, j, bases);
    assert e.name == BypassName(GroupName(d, o), j);
    BypassInjective(GroupName(d, o), j, GroupName(d, g), i);
    GroupNamesDistinct(d, o, g);
    hide SideOf, GroupName, GroupHosts, Split, MatchRule, Chain, BypassLine, BypassName, Digits;
  }

  /** No other write of a deployment takes the name of one of its bypass routers. */
  lemma BypassEntry(d: Deployed, g: nat, i: nat, bases: seq<string>)
    requires IsGroup(d, g) && BypassLine(d, i)
    ensures LastNamed(Emit(d, bases), BypassName(GroupName(d, g), i)) == Some(BypassOf(d, g, i, bases).router)
  {
    var k := BypassName(GroupName(d, g), i);
    BypassWritten(d, g, i, bases);
    LastNamedIsWritten(Emit(d, bases), k);
    hide Emit, LastNamed, InGroupOf, BypassOf, GroupName, BypassName, BypassLine;
    var e :| e in Emit(d, bases) && e.name == k && e.router == LastNamed(Emit(d, bases), k).value;
    EmitIs(d, bases, e);
    var o: nat :| IsGroup(d, o) && InGroupOf(e, d, o, bases);
    BypassUnique(e, d, g, i, o, bases);
  }

  // ---------------------------------------------------------------- hosts of bypass and sign-in routers

  /** A bypass router mentions the hosts of its group and those of its line; the latter make it foreign. */
  lemma BypassHosts(d: Deployed, g: nat, i: nat, bases: seq<string>)
    requires PlainDeployment(d, bases) && IsGroup(d, g) && BypassLine(d, i)
    ensures
      var r, tokens := BypassOf(d, g, i, bases).router, LineHosts(BypassPath(d, i));
      && r.service == GroupName(d, g) && r.entryPoints == [WEBSECURE]
      && Hosts(r.rule) == GroupHosts(d, g, bases) + tokens
      && (Foreign(r) <==> tokens != [])
  {
    GroupIsPrintable(d, g, bases);
    PrintedHosts(BypassOf(d, g, i, bases).router, GroupHosts(d, g, bases), " && " + PathRule(BypassPath(d, i)));
    hide Hosts, Foreign, MatchRule, PathRule, Trim, GroupHosts, GroupName, Printable, PlainDeployment, Split;
  }

  lemma FlowHosts(d: Deployed, g: nat, bases: seq<string>)
    requires PlainDeployment(d, bases) && IsGroup(d, g)
    ensures
      var r := FlowOf(d, g, bases).router;
      r.service == DEVICE_BACKEND && Hosts(r.rule) == GroupHosts(d, g, bases) && !Foreign(r)
  {
    GroupIsPrintable(d, g, bases);
    DeviceFlowInGroup(GroupName(d, g), GroupHosts(d, g, bases), d);
    hide Hosts, Foreign, MatchRule, GroupHosts, GroupName, Printable, PlainDeployment;
  }

  lemma FacingIsPlain(d: Deployed, g: nat, bases: seq<string>)
    requires PlainDeployment(d, bases) && IsGroup(d, g)
    ensures !Foreign(FacingOf(d, g, bases).router)
  {
    GroupIsPrintable(d, g, bases);
    PanelRuleSplits(GroupHosts(d, g, bases));
    hide MatchRule, SplitRule, GroupHosts, GroupName, Printable, PlainDeployment;
  }

  /** The hosts of a deployment are those of its groups. */
  lemma HasHostIsGroup(d: Deployed, base: string, h: string)
    ensures HasHost(d, [base], h) <==> exists g: nat | IsGroup(d, g) :: h in GroupHosts(d, g, [base])
  {
    hide HostsForPrefix;
    assert IsGroup(d, 0) && GroupHosts(d, 0, [base]) == HostsForPrefix(d.prefix, [base]);
    if h in d.aliases {
      var a :| 0 <= a < |d.aliases| && d.aliases[a] == h;
      assert IsGroup(d, a + 1) && h in GroupHosts(d, a + 1, [base]);
    }
  }

  // ---------------------------------------------------------------- the deployment written last

  lemma CanBeLast(ds: seq<Deployed>, d: Deployed) returns (es: seq<Deployed>)
    requires d in ds
    ensures multiset(es) == multiset(ds) && es != [] && es[|es| - 1] == d
  {
    var i :| 0 <= i < |ds| && ds[i] == d;
    es := ds[..i] + ds[i + 1..] + [d];
    assert ds == ds[..i] + [d] + ds[i + 1..];
  }

  /** The deployment written last keeps everything it wrote. */
  lemma LastKeepsAll(ds: seq<Deployed>, base: string, k: string)
    requires ds != [] && LastNamed(Emit(ds[|ds| - 1], [base]), k).Some?
    ensures At(Table(ds, base), k) == LastNamed(Emit(ds[|ds| - 1], [base]), k)
  {
    TableAt(ds, base, k);
    hide Emit, LastNamed, Table;
  }

  lemma LastKeepsBypass(ds: seq<Deployed>, base: string, d: Deployed, g: nat, i: nat)
    requires ds != [] && ds[|ds| - 1] == d && PlainDeployment(d, [base]) && IsGroup(d, g) && BypassLine(d, i)
    ensures
      var m, k, tokens := Table(ds, base), BypassName(GroupName(d, g), i), LineHosts(BypassPath(d, i));
      && k in m && m[k].service == GroupName(d, g) && m[k].entryPoints == [WEBSECURE]
      && Hosts(m[k].rule) == GroupHosts(d, g, [base]) + tokens && (Foreign(m[k]) <==> tokens != [])
  {
    BypassEntry(d, g, i, [base]);
    LastKeepsAll(ds, base, BypassName(GroupName(d, g), i));
    BypassHosts(d, g, i, [base]);
    hide Table, Emit, LastNamed, PlainDeployment, Hosts, Foreign, LineHosts;
    hide GroupName, BypassOf, BypassName, GroupHosts, Split;
  }

  // ---------------------------------------------------------------- every mentioned host is the deployment's own

  /** A name was written for one deployment only, as far as its present router goes. */
  lemma WriterIsUnique(
      db: Own.Db, base: string, ds: seq<Deployed>, d: Deployed, e: Emission, o: Deployed, f: Emission, k: string)
    requires Generated(db, base, ds) && WrittenFor(ds, base, d, e, k) && WrittenFor(ds, base, o, f, k)
    ensures d == o
  {
    DeploymentHosts(db, base, ds, d);
    DeploymentHosts(db, base, ds, o);
    var h := Hosts(e.router.rule)[0];
    Claims.OneOwner(db, base, d.project, o.project, h);
    hide Own.Claims, Own.Norm, Own.Inv, PlainDeployment, Table, Emit, OwnService, LineMentions, HostsForPrefix;
  }

  /** However the deployments are ordered, a router that mentions a host is written for a project claiming it. */
  ghost predicate AlwaysBelongs(db: Own.Db, base: string, ds: seq<Deployed>) {
    forall es, k, h | multiset(es) == multiset(ds) && k in Table(es, base) && h in Hosts(Table(es, base)[k].rule) ::
      exists d, e :: WrittenFor(es, base, d, e, k) && BelongsTo(db, base, h, d)
  }

  /** Bypass lines hold tokens of hosts of their own deployment only. */
  ghost predicate TokensOwn(ds: seq<Deployed>, base: string) {
    forall d, h | d in ds && LineMentions(d, h) :: HasHost(d, [base], h)
  }

  /** Lines without backticks hold no tokens at all. */
  lemma PlainLinesSuffice(ds: seq<Deployed>, base: string)
    requires forall d, i: nat | d in ds && BypassLine(d, i) :: '`' !in BypassPath(d, i)
    ensures TokensOwn(ds, base)
  {
    forall d, i: nat | d in ds && BypassLine(d, i)
      ensures LineHosts(BypassPath(d, i)) == []
    {
      PathNamesNoHost(BypassPath(d, i));
    }
    hide LineHosts, BypassPath, BypassLine, HasHost, Split;
  }

  lemma OwnTokensBelong(db: Own.Db, base: string, ds: seq<Deployed>, k: string, h: string)
    requires Generated(db, base, ds) && TokensOwn(ds, base)
    requires k in Table(ds, base) && h in Hosts(Table(ds, base)[k].rule)
    ensures exists d, e :: WrittenFor(ds, base, d, e, k) && BelongsTo(db, base, h, d)
  {
    RouterBelongsToLookup(db, base, ds, k, h);
    var d, e :| WrittenFor(ds, base, d, e, k) && (BelongsTo(db, base, h, d) || LineMentions(d, h));
    assert d in ds;
    DeploymentHosts(db, base, ds, d);
    if LineMentions(d, h) {
      ClaimedIsFound(db, base, d, h);
    }
    hide Own.Norm, Own.Claims, Own.Inv, Table, Emit, MadeFor, Hosts;
    hide PlainDeployment, BelongsTo, LineMentions, HostsForPrefix;
  }

  /** Written last, a deployment keeps a router that mentions the host. */
  lemma LastMentions(db: Own.Db, base: string, ds: seq<Deployed>, d: Deployed, h: string)
      returns (es: seq<Deployed>, e: Emission)
    requires Generated(db, base, ds) && d in ds && LineMentions(d, h)
    ensures multiset(es) == multiset(ds) && Generated(db, base, es)
    ensures WrittenFor(es, base, d, e, e.name) && h in Hosts(e.router.rule) && SideOf(d, 0, e.name)
  {
    var i: nat :| i < |Split(d.bypass, '\n')| && BypassLine(d, i) && h in LineHosts(BypassPath(d, i));
    es := CanBeLast(ds, d);
    e := BypassOf(d, 0, i, [base]);
    ReorderIsGenerated(db, base, ds, es);
    DeploymentHosts(db, base, ds, d);
    GroupZero(d);
    BypassHosts(d, 0, i, [base]);
    LastBypassIsWritten(es, base, d, i);
    assert e.name == BypassName(GroupName(d, 0), i);
    assert SideOf(d, 0, e.name);
    hide *;
  }

  lemma StrangeTokenBreaks(db: Own.Db, base: string, ds: seq<Deployed>, d: Deployed, h: string)
    requires Generated(db, base, ds) && AlwaysBelongs(db, base, ds) && d in ds && LineMentions(d, h)
    ensures Own.Claims(db, base, d.project, h)
  {
    var es, e := LastMentions(db, base, ds, d, h);
    assert e.name in Table(es, base) && Table(es, base)[e.name] == e.router;
    hide Generated, Own.Claims, Table, Hosts, WrittenFor, LineMentions, SideOf;
    var o, f :| WrittenFor(es, base, o, f, e.name) && BelongsTo(db, base, h, o);
    WriterIsUnique(db, base, es, d, e, o, f, e.name);
  }

  lemma LastBypassIsWritten(ds: seq<Deployed>, base: string, d: Deployed, i: nat)
    requires ds != [] && ds[|ds| - 1] == d && PlainDeployment(d, [base]) && BypassLine(d, i)
    ensures WrittenFor(ds, base, d, BypassOf(d, 0, i, [base]), BypassName(GroupName(d, 0), i))
  {
    GroupZero(d);
    BypassEntry(d, 0, i, [base]);
    BypassWritten(d, 0, i, [base]);
    LastKeepsAll(ds, base, BypassName(GroupName(d, 0), i));
    EmitMadeFor(d, [base]);
    hide Table, Emit, LastNamed, PlainDeployment, GroupName, BypassOf, BypassName, Split, BypassLine, MadeFor;
  }

  /** A claimed host of a deployment is one of its own hosts. */
  lemma ClaimedIsOwn(db: Own.Db, base: string, ds: seq<Deployed>, d: Deployed, h: string)
    requires Generated(db, base, ds) && d in ds
    ensures Own.Claims(db, base, d.project, h) <==> HasHost(d, [base], h)
  {
    ClaimsAreGroups(db, base, ds, d, h);
    HasHostIsGroup(d, base, h);
    hide *;
  }

  /**
   * However the deployments are ordered, every router that mentions a host is written for the project that
   * claims it, if and only if bypass lines hold tokens of hosts of their own deployment only.
   */
  lemma AlwaysBelongsIff(db: Own.Db, base: string, ds: seq<Deployed>)
    requires Generated(db, base, ds)
    ensures AlwaysBelongs(db, base, ds) <==> TokensOwn(ds, base)
  {
    hide Generated, Table, Hosts, BelongsTo, WrittenFor, HasHost, LineMentions, Own.Claims;
    if AlwaysBelongs(db, base, ds) {
      forall d, h | d in ds && LineMentions(d, h)
        ensures HasHost(d, [base], h)
      {
        StrangeTokenBreaks(db, base, ds, d, h);
        ClaimedIsOwn(db, base, ds, d, h);
      }
    }
    if TokensOwn(ds, base) {
      forall es, k, h | multiset(es) == multiset(ds) && k in Table(es, base) && h in Hosts(Table(es, base)[k].rule)
        ensures exists d, e :: WrittenFor(es, base, d, e, k) && BelongsTo(db, base, h, d)
      {
        SameMembers(es, ds);
        ReorderIsGenerated(db, base, ds, es);
        assert TokensOwn(es, base);
        OwnTokensBelong(db, base, es, k, h);
      }
    }
  }

  // ---------------------------------------------------------------- foreign rules

  /** A bypass line with tokens makes the deployment's bypass routers foreign; one of them mentions the host. */
  predicate SticksBy(d: Deployed, base: string, h: string) {
    exists i: nat | i < |Split(d.bypass, '\n')| ::
      && BypassLine(d, i) && LineHosts(BypassPath(d, i)) != []
      && (HasHost(d, [base], h) || h in LineHosts(BypassPath(d, i)))
  }

  /** However the deployments are ordered, no foreign rule holds the host's token. */
  ghost predicate NeverStuck(ds: seq<Deployed>, base: string, h: string) {
    forall es | multiset(es) == multiset(ds) :: Stuck(Table(es, base), WEBSECURE, h) == map[]
  }

  lemma ForeignWrite(d: Deployed, base: string, e: Emission, h: string)
    requires PlainDeployment(d, [base]) && e in Emit(d, [base]) && Foreign(e.router) && Mentions(e.router, h)
    ensures SticksBy(d, base, h)
  {
    EmitIs(d, [base], e);
    var g: nat :| IsGroup(d, g) && InGroupOf(e, d, g, [base]);
    FacingIsPlain(d, g, [base]);
    FlowHosts(d, g, [base]);
    var i: nat :| i < |Split(d.bypass, '\n')| && BypassLine(d, i) && e == BypassOf(d, g, i, [base]);
    BypassHosts(d, g, i, [base]);
    HasHostIsGroup(d, base, h);
    hide Hosts, Foreign, PlainDeployment, Emit, GroupHosts, GroupName, BypassLine, BypassPath;
    hide BypassOf, FacingOf, FlowOf, LineHosts;
    hide HasHost, Split;
  }

  lemma StickingIsStuck(ds: seq<Deployed>, base: string, d: Deployed, h: string)
    requires ds != [] && ds[|ds| - 1] == d && PlainDeployment(d, [base]) && SticksBy(d, base, h)
    ensures exists k :: k in Stuck(Table(ds, base), WEBSECURE, h)
  {
    var i: nat :| i < |Split(d.bypass, '\n')| && BypassLine(d, i) && LineHosts(BypassPath(d, i)) != []
                  && (HasHost(d, [base], h) || h in LineHosts(BypassPath(d, i)));
    HasHostIsGroup(d, base, h);
    GroupZero(d);
    var g: nat :| IsGroup(d, g) && (HasHost(d, [base], h) ==> h in GroupHosts(d, g, [base]));
    LastKeepsBypass(ds, base, d, g, i);
    hide Hosts, Foreign, PlainDeployment, Table, GroupHosts, GroupName, BypassLine, BypassPath;
    hide BypassName, LineHosts, HasHost, Split;
    hide TargetOf;
    assert BypassName(GroupName(d, g), i) in Stuck(Table(ds, base), WEBSECURE, h);
  }

  /**
   * In every order no foreign rule of the table holds a host's token if and only if no deployment with a
   * token in some bypass line has the host or holds its token in such a line.
   */
  lemma NeverStuckIff(db: Own.Db, base: string, ds: seq<Deployed>, h: string)
    requires Generated(db, base, ds)
    ensures NeverStuck(ds, base, h) <==> forall d | d in ds :: !SticksBy(d, base, h)
  {
    hide Generated, Table, SticksBy, Stuck, PlainDeployment;
    if NeverStuck(ds, base, h) {
      forall d | d in ds
        ensures !SticksBy(d, base, h)
      {
        var es := CanBeLast(ds, d);
        DeploymentHosts(db, base, ds, d);
        if SticksBy(d, base, h) {
          StickingIsStuck(es, base, d, h);
        }
      }
    }
    if forall d | d in ds :: !SticksBy(d, base, h) {
      forall es | multiset(es) == multiset(ds)
        ensures Stuck(Table(es, base), WEBSECURE, h) == map[]
      {
        SameMembers(es, ds);
        ReorderIsGenerated(db, base, ds, es);
        NoneSticks(db, base, es, h);
      }
    }
  }

  lemma NoneSticks(db: Own.Db, base: string, ds: seq<Deployed>, h: string)
    requires Generated(db, base, ds) && forall d | d in ds :: !SticksBy(d, base, h)
    ensures Stuck(Table(ds, base), WEBSECURE, h) == map[]
  {
    var m := Table(ds, base);
    hide Generated, Table, SticksBy, PlainDeployment, Mentions, Foreign, Emit, MadeFor;
    forall k | k in m && Foreign(m[k])
      ensures !Serves(m[k], WEBSECURE, h)
    {
      if Mentions(m[k], h) {
        TableIsWritten(db, base, ds, k);
        var d, e :| WrittenFor(ds, base, d, e, k);
        DeploymentHosts(db, base, ds, d);
        ForeignWrite(d, base, e, h);
      }
    }
  }
}
