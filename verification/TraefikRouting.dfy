/**
 * Exactly when a claimed host of a running project is routed to it, and exactly when a router leads
 * to a service that is missing or somebody else's. Router names are not injective and later writes
 * replace earlier ones, so both depend on how the deployed prefixes are spelled.
 */
module TraefikRouting {
  import opened Wrappers
  import opened TextTools
  import opened HostRules
  import opened CfTunnel
  import opened CfMeaning
  import opened TraefikConfig
  import opened TraefikNames
  import opened TraefikOwnership
  import Own = HostOwnership
  import Claims = HostClaims

  // ---------------------------------------------------------------- which write stays

  /** The last write under a name. */
  function LastNamed(es: seq<Emission>, k: string): Option<Router> {
    if es == [] then None
    else if es[|es| - 1].name == k then Some(es[|es| - 1].router)
    else LastNamed(es[..|es| - 1], k)
  }

  lemma {:induction false} LastNamedAppend(a: seq<Emission>, b: seq<Emission>, k: string)
    ensures LastNamed(a + b, k) == if LastNamed(b, k).Some? then LastNamed(b, k) else LastNamed(a, k)
    decreases |b|
  {
    if b == [] {
      assert a + b == a;
    } else {
      assert (a + b)[..|a + b| - 1] == a + b[..|b| - 1];
      LastNamedAppend(a, b[..|b| - 1], k);
    }
  }

  lemma {:induction false} LastNamedIsWritten(es: seq<Emission>, k: string)
    ensures LastNamed(es, k).Some? <==> exists e | e in es :: e.name == k
    ensures LastNamed(es, k).Some? ==> exists e | e in es :: e.name == k && e.router == LastNamed(es, k).value
  {
    if es != [] {
      var front, last := es[..|es| - 1], es[|es| - 1];
      LastNamedIsWritten(front, k);
      assert es == front + [last];
      assert last in es;
      if last.name != k && LastNamed(front, k).Some? {
        var e :| e in front && e.name == k && e.router == LastNamed(front, k).value;
        assert e in es;
      }
    }
  }

  lemma {:induction false} PutAllIs(m: Routers, es: seq<Emission>, k: string)
    ensures At(PutAll(m, es), k) == if LastNamed(es, k).Some? then LastNamed(es, k) else At(m, k)
    decreases |es|
  {
    if es != [] {
      var front, last := es[..|es| - 1], es[|es| - 1];
      assert es == front + [last];
      PutAllAppend(m, front, [last]);
      assert [last][1..] == [];
      PutAllIs(m, front, k);
    }
  }

  lemma {:induction false} EmitAllSnoc(ds: seq<Deployed>, d: Deployed, bases: seq<string>)
    ensures EmitAll(ds + [d], bases) == EmitAll(ds, bases) + Emit(d, bases)
    decreases |ds|
  {
    hide Emit;
    if ds == [] {
      assert [] + [d] == [d] && [d][1..] == [];
    } else {
      assert (ds + [d])[1..] == ds[1..] + [d];
      EmitAllSnoc(ds[1..], d, bases);
    }
  }

  /** The deployment that wrote a name last. */
  function LastWriter(ds: seq<Deployed>, k: string, bases: seq<string>): Option<Deployed> {
    if ds == [] then None
    else if LastNamed(Emit(ds[|ds| - 1], bases), k).Some? then Some(ds[|ds| - 1])
    else LastWriter(ds[..|ds| - 1], k, bases)
  }

  lemma {:induction false} LastNamedOfAll(ds: seq<Deployed>, k: string, bases: seq<string>)
    ensures
      var w := LastWriter(ds, k, bases);
      LastNamed(EmitAll(ds, bases), k) == if w.Some? then LastNamed(Emit(w.value, bases), k) else None
    ensures LastWriter(ds, k, bases).Some? ==> LastWriter(ds, k, bases).value in ds
    decreases |ds|
  {
    hide Emit;
    if ds != [] {
      var front, last := ds[..|ds| - 1], ds[|ds| - 1];
      assert ds == front + [last];
      EmitAllSnoc(front, last, bases);
      LastNamedAppend(EmitAll(front, bases), Emit(last, bases), k);
      LastNamedOfAll(front, k, bases);
      hide EmitAll, LastNamed;
    }
  }

  /** An entry of the table is the last writer's own. */
  lemma TableAt(ds: seq<Deployed>, base: string, k: string)
    ensures
      var w := LastWriter(ds, k, [base]);
      At(Table(ds, base), k) == if w.Some? then LastNamed(Emit(w.value, [base]), k) else None
  {
    PutAllIs(map[], EmitAll(ds, [base]), k);
    LastNamedOfAll(ds, k, [base]);
    hide LastNamed, LastWriter, EmitAll, PutAll, Emit;
  }

  // ---------------------------------------------------------------- what one deployment writes under a name

  lemma EmissionNames(e: Emission, d: Deployed, g: nat, bases: seq<string>)
    requires IsGroup(d, g) && InGroupOf(e, d, g, bases)
    ensures (e == FacingOf(d, g, bases) && e.name == GroupName(d, g)) || (SideOf(d, g, e.name) && e.router.priority > 0)
  {
    hide GroupName, GroupHosts, Split, MatchRule, Chain, BypassLine;
  }

  lemma EmitsIff(d: Deployed, bases: seq<string>, k: string)
    ensures LastNamed(Emit(d, bases), k).Some? <==> Emits(d, k)
  {
    LastNamedIsWritten(Emit(d, bases), k);
    if e :| e in Emit(d, bases) && e.name == k {
      EmitIs(d, bases, e);
      var g: nat :| IsGroup(d, g) && InGroupOf(e, d, g, bases);
      EmissionNames(e, d, g, bases);
      hide InGroupOf, SideOf, GroupName, FacingOf;
      assert k == GroupName(d, g) || SideOf(d, g, k);
    }
    if Emits(d, k) {
      EmittedName(d, bases, k);
    }
    hide Emit, LastNamed, Emits;
  }

  lemma EmittedName(d: Deployed, bases: seq<string>, k: string)
    requires Emits(d, k)
    ensures exists e | e in Emit(d, bases) :: e.name == k
  {
    hide Emit, InGroupOf, Split, MatchRule, GroupName, GroupHosts, BypassLine;
    if g: nat :| IsGroup(d, g) && k == GroupName(d, g) {
      FacingWritten(d, g, bases);
    } else {
      var g: nat :| IsGroup(d, g) && SideOf(d, g, k);
      if k == GroupName(d, g) + DEVICE_FLOW {
        FlowWritten(d, g, bases);
      } else {
        var i: nat :| i < |Split(d.bypass, '\n')| && BypassLine(d, i) && k == BypassName(GroupName(d, g), i);
        BypassWritten(d, g, i, bases);
      }
    }
  }

  lemma FacingWritten(d: Deployed, g: nat, bases: seq<string>)
    requires IsGroup(d, g)
    ensures FacingOf(d, g, bases) in Emit(d, bases) && FacingOf(d, g, bases).name == GroupName(d, g)
  {
    assert InGroupOf(FacingOf(d, g, bases), d, g, bases);
    EmitIs(d, bases, FacingOf(d, g, bases));
    hide Emit, InGroupOf, GroupName, GroupHosts, MatchRule;
  }

  lemma FlowWritten(d: Deployed, g: nat, bases: seq<string>)
    requires IsGroup(d, g)
    ensures FlowOf(d, g, bases) in Emit(d, bases) && FlowOf(d, g, bases).name == GroupName(d, g) + DEVICE_FLOW
  {
    assert InGroupOf(FlowOf(d, g, bases), d, g, bases);
    EmitIs(d, bases, FlowOf(d, g, bases));
    hide Emit, InGroupOf, GroupName, GroupHosts, MatchRule;
  }

  lemma BypassWritten(d: Deployed, g: nat, i: nat, bases: seq<string>)
    requires IsGroup(d, g) && BypassLine(d, i)
    ensures BypassOf(d, g, i, bases) in Emit(d, bases)
    ensures BypassOf(d, g, i, bases).name == BypassName(GroupName(d, g), i)
  {
    assert InGroupOf(BypassOf(d, g, i, bases), d, g, bases);
    EmitIs(d, bases, BypassOf(d, g, i, bases));
    hide Emit, InGroupOf, GroupName, GroupHosts, MatchRule;
  }

  /** Under a name a deployment leaves the user-facing router of that group, or a router that outranks it. */
  lemma EntryKind(d: Deployed, bases: seq<string>, k: string)
    requires LastNamed(Emit(d, bases), k).Some?
    ensures
      var r := LastNamed(Emit(d, bases), k).value;
      (exists g: nat | IsGroup(d, g) :: k == GroupName(d, g) && r == FacingOf(d, g, bases).router)
      || (SideName(d, k) && r.priority > 0)
  {
    LastNamedIsWritten(Emit(d, bases), k);
    var e :| e in Emit(d, bases) && e.name == k && e.router == LastNamed(Emit(d, bases), k).value;
    EmitIs(d, bases, e);
    var g: nat :| IsGroup(d, g) && InGroupOf(e, d, g, bases);
    EmissionNames(e, d, g, bases);
    hide Emit, LastNamed, InGroupOf, SideOf, FacingOf, GroupName;
  }

  /** No other write of a deployment takes the name of one of its user-facing routers. */
  lemma GroupEntry(d: Deployed, g: nat, bases: seq<string>)
    requires IsGroup(d, g)
    ensures LastNamed(Emit(d, bases), GroupName(d, g)) == Some(FacingOf(d, g, bases).router)
  {
    var k := GroupName(d, g);
    FacingWritten(d, g, bases);
    LastNamedIsWritten(Emit(d, bases), k);
    EntryKind(d, bases, k);
    forall o: nat
      ensures !SideOf(d, o, k)
      ensures GroupName(d, o) == k ==> o == g
    {
      SideNotGroup(d, o, g);
      GroupNamesDistinct(d, o, g);
    }
    hide Emit, LastNamed, InGroupOf, SideOf, FacingOf, GroupName;
  }

  // ---------------------------------------------------------------- who keeps the name of a user-facing router

  /** Different deployments are of different projects with different prefixes. */
  predicate Separate(ds: seq<Deployed>) {
    forall d, o | d in ds && o in ds && d != o :: d.prefix != o.prefix && d.project != o.project
  }

  lemma GeneratedIsSeparate(db: Own.Db, base: string, ds: seq<Deployed>)
    requires Generated(db, base, ds)
    ensures Separate(ds)
  {
    hide Own.ValidPrefix, Own.AliasesOk, Own.Agree, Own.HasAlias;
  }

  /**
   * A name of `o` spells the name of group `g` of `d`: the prefix of `d` is a sign-in, bypass or alias
   * name of `o`, or the prefix of `o` is an alias name of `d`.
   */
  ghost predicate Takes(o: Deployed, d: Deployed, g: nat) {
    if g == 0 then SideName(o, d.prefix) || exists a: nat | a < |o.aliases| :: d.prefix == AliasName(o, a)
    else o.prefix == GroupName(d, g)
  }

  /** The deployment at `j` takes the name, and `d` does not come again. */
  ghost predicate TakenAt(ds: seq<Deployed>, d: Deployed, g: nat, j: nat) {
    j < |ds| && d !in ds[j..] && Takes(ds[j], d, g)
  }

  /** A deployment written after `d` takes the name. */
  ghost predicate Overwritten(ds: seq<Deployed>, d: Deployed, g: nat) {
    exists j: nat | j < |ds| :: TakenAt(ds, d, g, j)
  }

  lemma TakenAtSnoc(front: seq<Deployed>, last: Deployed, d: Deployed, g: nat, j: nat)
    ensures TakenAt(front + [last], d, g, j) <==>
            d != last && if j < |front| then TakenAt(front, d, g, j) else j == |front| && Takes(last, d, g)
  {
    hide Takes;
    var ds := front + [last];
    if j < |front| {
      assert ds[j..] == front[j..] + [last] && ds[j] == front[j];
    } else if j == |front| {
      assert ds[j..] == [last];
    }
  }

  lemma OverwrittenSnoc(front: seq<Deployed>, last: Deployed, d: Deployed, g: nat)
    ensures Overwritten(front + [last], d, g) <==> d != last && (Takes(last, d, g) || Overwritten(front, d, g))
  {
    forall j: nat
      ensures TakenAt(front + [last], d, g, j) <==>
              d != last && if j < |front| then TakenAt(front, d, g, j) else j == |front| && Takes(last, d, g)
    {
      TakenAtSnoc(front, last, d, g, j);
    }
    hide Takes, TakenAt;
    var ds := front + [last];
    if d != last && Takes(last, d, g) {
      assert TakenAt(ds, d, g, |front|);
    }
    if j: nat :| d != last && j < |front| && TakenAt(front, d, g, j) {
      assert TakenAt(ds, d, g, j);
    }
  }

  lemma LastWriterSnoc(front: seq<Deployed>, last: Deployed, k: string, bases: seq<string>)
    ensures LastWriter(front + [last], k, bases) == if Emits(last, k) then Some(last) else LastWriter(front, k, bases)
  {
    EmitsIff(last, bases, k);
    hide Emit, LastNamed, Emits;
    assert (front + [last])[..|front|] == front;
  }

  lemma {:induction false} LastWriterIs(ds: seq<Deployed>, d: Deployed, g: nat, bases: seq<string>)
    requires Separate(ds) && d in ds && IsGroup(d, g)
    ensures LastWriter(ds, GroupName(d, g), bases) == Some(d) <==> !Overwritten(ds, d, g)
    decreases |ds|
  {
    var front, last := ds[..|ds| - 1], ds[|ds| - 1];
    assert ds == front + [last];
    assert d != last ==> last.prefix != d.prefix && d in front;
    assert Separate(front);
    hide *;
    OverwrittenSnoc(front, last, d, g);
    LastWriterSnoc(front, last, GroupName(d, g), bases);
    if d == last {
      EmitsOwn(d, g);
    } else {
      TakenName(d, g, last);
      LastWriterIs(front, d, g, bases);
    }
  }

  lemma EmitsOwn(d: Deployed, g: nat)
    requires IsGroup(d, g)
    ensures Emits(d, GroupName(d, g))
  {
    hide GroupName;
  }

  lemma TakenName(d: Deployed, g: nat, o: Deployed)
    requires IsGroup(d, g) && o.prefix != d.prefix
    ensures Emits(o, GroupName(d, g)) <==> Takes(o, d, g)
  {
    TakesGroupName(d, g, o);
    hide SideName, Emits, GroupName, AliasName;
  }

  // ---------------------------------------------------------------- claimed hosts are routed

  /** Everything of a host goes to the project's backend through its chain. */
  function ProjectTarget(d: Deployed): Target {
    Target(d.prefix, Chain(d), "", 0)
  }

  predicate Routes(r: Router, h: string, d: Deployed) {
    Serves(r, WEBSECURE, h) && TargetOf(r) == ProjectTarget(d)
  }

  predicate Routed(m: Routers, h: string, d: Deployed) {
    exists k | k in m :: Routes(m[k], h, d)
  }

  lemma GroupIsPrintable(d: Deployed, g: nat, bases: seq<string>)
    requires PlainDeployment(d, bases) && IsGroup(d, g)
    ensures Printable(GroupHosts(d, g, bases))
  {
    hide HostsForPrefix;
    if g > 0 {
      assert d.aliases[g - 1] in d.aliases;
    }
  }

  lemma FacingRoutes(d: Deployed, g: nat, bases: seq<string>, h: string)
    requires PlainDeployment(d, bases) && IsGroup(d, g)
    ensures Routes(FacingOf(d, g, bases).router, h, d) <==> h in GroupHosts(d, g, bases)
  {
    GroupIsPrintable(d, g, bases);
    PanelRuleSplits(GroupHosts(d, g, bases));
    hide PlainDeployment, GroupHosts, GroupName, Chain, MatchRule, SplitRule;
  }

  /** Group `g` of the deployment names the host and keeps its user-facing router. */
  ghost predicate Keeps(ds: seq<Deployed>, base: string, d: Deployed, h: string, g: nat) {
    IsGroup(d, g) && h in GroupHosts(d, g, [base]) && !Overwritten(ds, d, g)
  }

  lemma KeptIsRouted(ds: seq<Deployed>, base: string, d: Deployed, h: string, g: nat)
    requires Separate(ds) && d in ds && PlainDeployment(d, [base]) && Keeps(ds, base, d, h, g)
    ensures
      var k := GroupName(d, g);
      k in Table(ds, base) && Routes(Table(ds, base)[k], h, d)
  {
    LastWriterIs(ds, d, g, [base]);
    TableAt(ds, base, GroupName(d, g));
    GroupEntry(d, g, [base]);
    FacingRoutes(d, g, [base], h);
    hide Emit, LastNamed, LastWriter, Overwritten, GroupName, GroupHosts, Routes, PlainDeployment, FacingOf, Table;
  }

  lemma RoutedIsKept(ds: seq<Deployed>, base: string, d: Deployed, h: string, k: string)
    requires Separate(ds) && d in ds && PlainDeployment(d, [base])
    requires k in Table(ds, base) && Routes(Table(ds, base)[k], h, d)
    ensures exists g: nat :: k == GroupName(d, g) && Keeps(ds, base, d, h, g)
  {
    TableAt(ds, base, k);
    LastNamedOfAll(ds, k, [base]);
    var w := LastWriter(ds, k, [base]).value;
    EntryKind(w, [base], k);
    var r := Table(ds, base)[k];
    assert r.service == d.prefix && r.priority == 0;
    hide Emit, LastNamed, LastWriter, GroupName, GroupHosts, Routes, PlainDeployment, Table, SideName, EmitAll, Overwritten;
    var g: nat :| IsGroup(w, g) && k == GroupName(w, g) && r == FacingOf(w, g, [base]).router;
    assert r.service == w.prefix;
    assert w == d;
    LastWriterIs(ds, d, g, [base]);
    FacingRoutes(d, g, [base], h);
    assert Keeps(ds, base, d, h, g);
  }

  /**
   * Completeness, exactly: a host of a running project is routed to that project's backend through its
   * chain if and only if one of the groups naming the host is not overwritten by a later deployment.
   */
  lemma ClaimedHostIsRouted(db: Own.Db, base: string, ds: seq<Deployed>, d: Deployed, h: string)
    requires Generated(db, base, ds) && d in ds
    ensures Routed(Table(ds, base), h, d) <==> exists g: nat | IsGroup(d, g) :: Keeps(ds, base, d, h, g)
  {
    GeneratedIsSeparate(db, base, ds);
    DeploymentHosts(db, base, ds, d);
    hide Generated, Table, Routes, PlainDeployment, Separate, GroupName, Overwritten, GroupHosts;
    if k :| k in Table(ds, base) && Routes(Table(ds, base)[k], h, d) {
      RoutedIsKept(ds, base, d, h, k);
    }
    if g: nat :| IsGroup(d, g) && Keeps(ds, base, d, h, g) {
      KeptIsRouted(ds, base, d, h, g);
    }
  }

  /** The claimed hosts of a running project are the hosts of its groups. */
  lemma ClaimsAreGroups(db: Own.Db, base: string, ds: seq<Deployed>, d: Deployed, h: string)
    requires Generated(db, base, ds) && d in ds
    ensures Own.Claims(db, base, d.project, h) <==> exists g: nat | IsGroup(d, g) :: h in GroupHosts(d, g, [base])
  {
    DefaultHosts(d.prefix, base);
    assert Own.HasAlias(db, d.project, h) <==> h in d.aliases;
    hide Own.Inv, Own.HasAlias, Own.HostOf, HostsForPrefix, Own.Canonical;
    assert IsGroup(d, 0) && GroupHosts(d, 0, [base]) == [Own.HostOf(d.prefix, base)];
    if h in d.aliases {
      var a :| 0 <= a < |d.aliases| && d.aliases[a] == h;
      assert IsGroup(d, a + 1) && h in GroupHosts(d, a + 1, [base]);
    }
  }

  // ---------------------------------------------------------------- in whatever order deployments come

  /** No other deployment takes the name of group `g`. */
  ghost predicate Undisputed(ds: seq<Deployed>, d: Deployed, g: nat) {
    forall o | o in ds && o != d :: !Takes(o, d, g)
  }

  /** However the running deployments are ordered, the host reaches the project. */
  ghost predicate AlwaysRouted(ds: seq<Deployed>, base: string, d: Deployed, h: string) {
    forall es | multiset(es) == multiset(ds) :: Routed(Table(es, base), h, d)
  }

  lemma SameMembers(es: seq<Deployed>, ds: seq<Deployed>)
    requires multiset(es) == multiset(ds)
    ensures forall d :: d in es <==> d in ds
  {
    assert forall d :: d in es <==> d in multiset(es);
    assert forall d :: d in ds <==> d in multiset(ds);
  }

  lemma ReorderIsGenerated(db: Own.Db, base: string, ds: seq<Deployed>, es: seq<Deployed>)
    requires Generated(db, base, ds) && multiset(es) == multiset(ds)
    ensures Generated(db, base, es)
  {
    SameMembers(es, ds);
    hide Own.Inv, Own.Canonical, FromRow;
  }

  /** The same deployments with every `d` in front. */
  function InFront(ds: seq<Deployed>, d: Deployed): seq<Deployed> {
    if ds == [] then []
    else if ds[0] == d then [d] + InFront(ds[1..], d)
    else InFront(ds[1..], d) + [ds[0]]
  }

  lemma {:induction false} InFrontReorders(ds: seq<Deployed>, d: Deployed)
    ensures multiset(InFront(ds, d)) == multiset(ds)
  {
    if ds != [] {
      InFrontReorders(ds[1..], d);
      assert ds == [ds[0]] + ds[1..];
    }
  }

  /** `j` holds `o`, and `d` does not come any more. */
  predicate ComesLater(es: seq<Deployed>, d: Deployed, o: Deployed, j: nat) {
    j < |es| && es[j] == o && d !in es[j..]
  }

  lemma {:induction false} InFrontIs(ds: seq<Deployed>, d: Deployed, o: Deployed)
    requires o in ds && o != d
    ensures exists j: nat | j < |InFront(ds, d)| :: ComesLater(InFront(ds, d), d, o, j)
  {
    var rest := InFront(ds[1..], d);
    if ds[0] == o {
      assert (rest + [o])[|rest|..] == [o];
      assert ComesLater(InFront(ds, d), d, o, |rest|);
    } else {
      assert o in ds[1..];
      InFrontIs(ds[1..], d, o);
      var j: nat :| j < |rest| && ComesLater(rest, d, o, j);
      if ds[0] == d {
        assert InFront(ds, d) == [d] + rest;
        assert ([d] + rest)[j + 1..] == rest[j..];
        assert ComesLater([d] + rest, d, o, j + 1);
      } else {
        assert InFront(ds, d) == rest + [ds[0]];
        assert (rest + [ds[0]])[j..] == rest[j..] + [ds[0]];
        assert ComesLater(rest + [ds[0]], d, o, j);
      }
    }
  }

  lemma UndisputedIsKept(ds: seq<Deployed>, es: seq<Deployed>, d: Deployed, g: nat)
    requires multiset(es) == multiset(ds) && Undisputed(ds, d, g)
    ensures !Overwritten(es, d, g)
  {
    SameMembers(es, ds);
    hide Takes;
    forall j: nat | j < |es| && d !in es[j..]
      ensures !Takes(es[j], d, g)
    {
      assert es[j] in es[j..];
    }
  }

  lemma KeptInFrontIsUndisputed(ds: seq<Deployed>, d: Deployed, g: nat)
    requires !Overwritten(InFront(ds, d), d, g)
    ensures Undisputed(ds, d, g)
  {
    hide Takes, InFront;
    forall o | o in ds && o != d
      ensures !Takes(o, d, g)
    {
      InFrontIs(ds, d, o);
      var j: nat :| j < |InFront(ds, d)| && ComesLater(InFront(ds, d), d, o, j);
      assert Takes(o, d, g) ==> TakenAt(InFront(ds, d), d, g, j);
    }
  }

  /**
   * A host of a running project reaches it in every order of the deployments if and only if no other
   * deployment spells the name of some group naming the host.
   */
  lemma AlwaysRoutedIff(db: Own.Db, base: string, ds: seq<Deployed>, d: Deployed, h: string)
    requires Generated(db, base, ds) && d in ds
    ensures AlwaysRouted(ds, base, d, h) <==>
            exists g: nat | IsGroup(d, g) :: h in GroupHosts(d, g, [base]) && Undisputed(ds, d, g)
  {
    hide Generated, Routed, Undisputed, Overwritten, GroupHosts, IsGroup, InFront, Table;
    if AlwaysRouted(ds, base, d, h) {
      var es := InFront(ds, d);
      InFrontReorders(ds, d);
      SameMembers(es, ds);
      ReorderIsGenerated(db, base, ds, es);
      ClaimedHostIsRouted(db, base, es, d, h);
      var g: nat :| IsGroup(d, g) && Keeps(es, base, d, h, g);
      KeptInFrontIsUndisputed(ds, d, g);
    }
    if g: nat :| IsGroup(d, g) && h in GroupHosts(d, g, [base]) && Undisputed(ds, d, g) {
      forall es | multiset(es) == multiset(ds)
        ensures Routed(Table(es, base), h, d)
      {
        SameMembers(es, ds);
        ReorderIsGenerated(db, base, ds, es);
        UndisputedIsKept(ds, es, d, g);
        assert Keeps(es, base, d, h, g);
        ClaimedHostIsRouted(db, base, es, d, h);
      }
    }
  }

  /** No deployed prefix is a sign-in, bypass or alias name of another deployment. */
  ghost predicate Apart(ds: seq<Deployed>) {
    forall d, o | d in ds && o in ds && o != d ::
      !SideName(o, d.prefix) && forall a: nat | a < |o.aliases| :: d.prefix != AliasName(o, a)
  }

  /** With prefixes apart every user-facing name is undisputed, and otherwise one is not. */
  lemma ApartIff(ds: seq<Deployed>)
    ensures Apart(ds) <==> forall d, g: nat | d in ds && IsGroup(d, g) :: Undisputed(ds, d, g)
  {
    hide SideName, AliasName;
    if Apart(ds) {
      forall d, g: nat, o | d in ds && IsGroup(d, g) && o in ds && o != d
        ensures !Takes(o, d, g)
      {
        if g > 0 {
          assert GroupName(d, g) == AliasName(d, g - 1);
        }
      }
    }
    if forall d, g: nat | d in ds && IsGroup(d, g) :: Undisputed(ds, d, g) {
      forall d, o | d in ds && o in ds && o != d
        ensures !SideName(o, d.prefix) && forall a: nat | a < |o.aliases| :: d.prefix != AliasName(o, a)
      {
        assert Undisputed(ds, d, 0);
      }
    }
  }

  /** With prefixes apart every claimed host of every running project is routed, in every order. */
  lemma ApartRoutesAll(db: Own.Db, base: string, ds: seq<Deployed>, d: Deployed, h: string)
    requires Generated(db, base, ds) && d in ds && Apart(ds) && Own.Claims(db, base, d.project, h)
    ensures AlwaysRouted(ds, base, d, h)
  {
    ClaimsAreGroups(db, base, ds, d, h);
    ApartIff(ds);
    AlwaysRoutedIff(db, base, ds, d, h);
    hide *;
  }

  // ---------------------------------------------------------------- a claimed host that loses its router

  lemma FlowUnique(e: Emission, d: Deployed, g: nat, o: nat, bases: seq<string>)
    requires IsGroup(d, g) && IsGroup(d, o) && InGroupOf(e, d, o, bases) && e.name == GroupName(d, g) + DEVICE_FLOW
    ensures e == FlowOf(d, g, bases)
  {
    SideNotGroup(d, g, o);
    FlowInjective(GroupName(d, o), GroupName(d, g));
    GroupNamesDistinct(d, o, g);
    forall i: nat
      ensures BypassName(GroupName(d, o), i) != e.name
    {
      NumberNotFlow(GroupName(d, o) + BYPASS, i, GroupName(d, g));
    }
    hide GroupName, GroupHosts, Split, MatchRule, Chain, BypassLine, BypassName, Digits;
  }

  /** No other write of a deployment takes the name of one of its sign-in routers. */
  lemma FlowEntry(d: Deployed, g: nat, bases: seq<string>)
    requires IsGroup(d, g)
    ensures LastNamed(Emit(d, bases), GroupName(d, g) + DEVICE_FLOW) == Some(FlowOf(d, g, bases).router)
  {
    var k := GroupName(d, g) + DEVICE_FLOW;
    FlowWritten(d, g, bases);
    LastNamedIsWritten(Emit(d, bases), k);
    hide Emit, LastNamed, InGroupOf, FlowOf, GroupName;
    var e :| e in Emit(d, bases) && e.name == k && e.router == LastNamed(Emit(d, bases), k).value;
    EmitIs(d, bases, e);
    var o: nat :| IsGroup(d, o) && InGroupOf(e, d, o, bases);
    FlowUnique(e, d, g, o, bases);
  }

  /**
   * A claimed host without a router: a project whose prefix ends in `-device-flow` is written before the
   * project whose prefix it extends, and the sign-in router of that one replaces its only router.
   */
  lemma LostHost(db: Own.Db, base: string, d: Deployed, o: Deployed)
    requires Generated(db, base, [d, o]) && d.prefix == o.prefix + DEVICE_FLOW
    requires Own.HostOf(d.prefix, base) !in d.aliases
    ensures
      var m, h := Table([d, o], base), Own.HostOf(d.prefix, base);
      && Own.Claims(db, base, d.project, h)
      && d.prefix in m && m[d.prefix] == FlowOf(o, 0, [base]).router && !Routed(m, h, d)
  {
    var ds, h := [d, o], Own.HostOf(d.prefix, base);
    assert d in ds && o in ds;
    DefaultHosts(d.prefix, base);
    ClaimsAreGroups(db, base, ds, d, h);
    ClaimedHostIsRouted(db, base, ds, d, h);
    GroupZero(o);
    GroupZero(d);
    assert SideOf(o, 0, d.prefix);
    assert TakenAt(ds, d, 0, 1);
    assert Overwritten(ds, d, 0);
    hide TakenAt, Takes, SideOf;
    FlowEntry(o, 0, [base]);
    TableAt(ds, base, d.prefix);
    OnlyDefaultGroup(d, h, base);
    hide Emit, LastNamed, FlowOf, GroupName, Table, Routed, Overwritten, GroupHosts, Own.HostOf, Generated, Own.Claims;
    assert LastWriter(ds, d.prefix, [base]) == Some(o);
  }

  lemma OnlyDefaultGroup(d: Deployed, h: string, base: string)
    requires h !in d.aliases && h == Own.HostOf(d.prefix, base)
    ensures forall g: nat | IsGroup(d, g) :: h in GroupHosts(d, g, [base]) <==> g == 0
  {
    DefaultHosts(d.prefix, base);
    forall g: nat | IsGroup(d, g) && g > 0
      ensures h !in GroupHosts(d, g, [base])
    {
      assert d.aliases[g - 1] in d.aliases;
    }
    hide HostsForPrefix;
  }

  const ONE := Own.Db(map[1 := Own.Project("a", 0, Own.Deployment, "a")], map[])
  const TWO := Own.Db(ONE.projects[2 := Own.Project("a-device-flow", 0, Own.Deployment, "a-device-flow")], map[])
  const CREATE_BOTH := [Own.CreateProject(1, 0, Own.Deployment, "a", "", true),
                        Own.CreateProject(2, 0, Own.Deployment, "a-device-flow", "", true)]
  const SHORT := Deployed(1, "a", false, "", [])
  const LONG := Deployed(2, "a-device-flow", false, "", [])

  lemma BothCreated(base: string)
    ensures Own.Run(Own.Db(map[], map[]), base, CREATE_BOTH) == TWO
  {
    NamesAreValid();
    Claims.CreateStores(Own.Db(map[], map[]), base, 1, "a");
    Claims.CreateStores(ONE, base, 2, "a-device-flow");
    Claims.RunOfTwo(Own.Db(map[], map[]), base, CREATE_BOTH[0], CREATE_BOTH[1]);
    hide Own.Run, Own.Step, Own.ValidPrefix;
  }

  lemma BothGenerated(base: string)
    requires Own.Canonical(base) && '`' !in base
    ensures Generated(TWO, base, [LONG, SHORT])
  {
    NamesAreValid();
    hide Own.ValidPrefix, Own.Canonical;
    assert Own.Inv(TWO, base);
    hide Own.Inv;
    assert FromRow(TWO, LONG) && FromRow(TWO, SHORT);
    hide FromRow;
  }

  /** Such a pair of projects is two requests away from the empty database, under every base domain. */
  lemma LostHostReachable(base: string)
    requires Own.Canonical(base) && '`' !in base
    ensures
      var db, h := Own.Run(Own.Db(map[], map[]), base, CREATE_BOTH), Own.HostOf(LONG.prefix, base);
      && Generated(db, base, [LONG, SHORT])
      && Own.Claims(db, base, LONG.project, h) && !Routed(Table([LONG, SHORT], base), h, LONG)
  {
    BothCreated(base);
    BothGenerated(base);
    assert LONG.prefix == SHORT.prefix + DEVICE_FLOW && LONG.aliases == [];
    hide *;
    LostHost(TWO, base, LONG, SHORT);
  }

  lemma NamesAreValid()
    ensures Own.ValidPrefix("a") && Own.ValidPrefix("a-device-flow")
    ensures Trim("a") == "a" && Trim("a-device-flow") == "a-device-flow"
  {
    TrimmedStays("a");
    TrimmedStays("a-device-flow");
  }
}
