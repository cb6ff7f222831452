/**
 * TCP hostnames against HTTP hosts. A TCP route takes its hostname away from HTTP, so no project should
 * claim that host; the handlers check this when a route changes and for subdomains only.
 */
module ProjectHostnames {
  import opened Wrappers
  import opened TextTools
  import opened ProjectMerge
  import opened ProjectStore
  import Own = HostOwnership
  import Claims = HostClaims

  // ---------------------------------------------------------------- exclusive hostnames

  /** No TCP route sits on a host some project claims, be it the project's own. */
  predicate Exclusive(db: Db, base: string) {
    forall p, q | p in db.projects && q in db.projects && db.projects[p].row.tcpPrefix.Some? ::
      !Own.Claims(HostView(db), base, q, Own.HostOf(db.projects[p].row.tcpPrefix.value, base))
  }

  /** The same for default hosts, in terms of the columns. */
  predicate OffSubdomains(db: Db) {
    forall p, q | p in db.projects && q in db.projects :: db.projects[p].row.tcpPrefix != Some(db.projects[q].row.domainPrefix)
  }

  predicate Aliased(db: Db, host: string) {
    exists a | a in db.aliases :: db.aliases[a].host == host
  }

  /** The same for aliases. */
  predicate OffAliases(db: Db, base: string) {
    forall p | p in db.projects && db.projects[p].row.tcpPrefix.Some? ::
      !Aliased(db, Own.HostOf(db.projects[p].row.tcpPrefix.value, base))
  }

  predicate AliasesOwned(db: Db) {
    forall a | a in db.aliases :: db.aliases[a].project in db.projects
  }

  lemma ClaimedIff(db: Db, base: string, t: string)
    requires AliasesOwned(db)
    ensures (exists q | q in db.projects :: Own.Claims(HostView(db), base, q, Own.HostOf(t, base))) <==>
            (exists q | q in db.projects :: db.projects[q].row.domainPrefix == t) || Aliased(db, Own.HostOf(t, base))
  {
    var host := Own.HostOf(t, base);
    forall q | q in db.projects
      ensures host == Own.HostOf(db.projects[q].row.domainPrefix, base) <==> db.projects[q].row.domainPrefix == t
    {
      Claims.HostOfInjective(t, db.projects[q].row.domainPrefix, base);
    }
    hide Own.HostOf;
    if a :| a in db.aliases && db.aliases[a].host == host {
      assert Own.HasAlias(HostView(db), db.aliases[a].project, host) by {
        assert db.aliases[a] == Own.Alias(db.aliases[a].project, host);
      }
      assert Own.Claims(HostView(db), base, db.aliases[a].project, host);
    }
    if q :| q in db.projects && db.projects[q].row.domainPrefix == t {
      assert Own.Claims(HostView(db), base, q, host);
    }
  }

  lemma ExclusiveParts(db: Db, base: string)
    requires AliasesOwned(db)
    ensures Exclusive(db, base) <==> OffSubdomains(db) && OffAliases(db, base)
  {
    forall p | p in db.projects && db.projects[p].row.tcpPrefix.Some?
      ensures (exists q | q in db.projects ::
                 Own.Claims(HostView(db), base, q, Own.HostOf(db.projects[p].row.tcpPrefix.value, base))) <==>
              (exists q | q in db.projects :: db.projects[q].row.domainPrefix == db.projects[p].row.tcpPrefix.value)
              || Aliased(db, Own.HostOf(db.projects[p].row.tcpPrefix.value, base))
    {
      ClaimedIff(db, base, db.projects[p].row.tcpPrefix.value);
    }
    hide Own.HostOf, Own.Claims, Aliased, HostView;
  }

  // ---------------------------------------------------------------- which requests break it

  /** The row a request asks for, before validation. */
  function Asked(db: Db, r: Request): Row
    requires r.Create? || (r.Update? && r.id in db.projects)
  {
    if r.Create? then r.row else Patched(db.projects[r.id].row, r.body)
  }

  /** The row it would store. */
  function Would(db: Db, r: Request): Option<Row>
    requires r.Create? || (r.Update? && r.id in db.projects)
  {
    Validated(if r.Create? then r.kind else db.projects[r.id].kind, r.fieldsOk, Asked(db, r))
  }

  /**
   * What no handler checks. The subdomain the project would get is another project's TCP hostname, or it
   * is left out and the name that replaces it is the project's own TCP hostname; or the TCP hostname it
   * would get is an alias; or an alias would be a TCP hostname.
   */
  predicate Swallowed(db: Db, base: string, r: Request) {
    if r.Create? || (r.Update? && r.id in db.projects) then
      var v := Would(db, r);
      v.Some? &&
      (|| (exists q | q in db.projects :: q != r.id && db.projects[q].row.tcpPrefix == Some(v.value.domainPrefix))
       || (Asked(db, r).domainPrefix == "" && v.value.tcpPrefix == Some(Asked(db, r).name))
       || (v.value.tcpPrefix.Some? && Aliased(db, Own.HostOf(v.value.tcpPrefix.value, base))))
    else if r.Hosts? && r.request.CreateAlias? then
      exists p | p in db.projects && db.projects[p].row.tcpPrefix.Some? ::
        Own.Norm(r.request.host) == Own.HostOf(db.projects[p].row.tcpPrefix.value, base)
    else false
  }

  lemma PutSubdomainsIff(db: Db, id: nat, e: Entry)
    requires OffSubdomains(db)
    requires e.row.tcpPrefix.Some? && !(id in db.projects && db.projects[id].row.tcpPrefix == e.row.tcpPrefix) ==>
               !HostnameTaken(db, e.row.tcpPrefix.value, id)
    ensures OffSubdomains(Put(db, id, e)) <==>
            && e.row.tcpPrefix != Some(e.row.domainPrefix)
            && forall q | q in db.projects && q != id :: db.projects[q].row.tcpPrefix != Some(e.row.domainPrefix)
  {
    var after := Put(db, id, e);
    assert after.projects[id] == e;
    assert forall q | q in db.projects && q != id :: q in after.projects && after.projects[q] == db.projects[q];
  }

  lemma PutAliasesIff(db: Db, base: string, id: nat, e: Entry)
    requires OffAliases(db, base)
    ensures OffAliases(Put(db, id, e), base) <==>
            (e.row.tcpPrefix.Some? ==> !Aliased(db, Own.HostOf(e.row.tcpPrefix.value, base)))
  {
    var after := Put(db, id, e);
    hide Own.HostOf;
    assert after.projects[id] == e && after.aliases == db.aliases;
    assert forall q | q in db.projects && q != id :: q in after.projects && after.projects[q] == db.projects[q];
    assert forall h :: Aliased(after, h) == Aliased(db, h);
    hide Aliased;
  }

  /** What storing a row does, by the row asked for. */
  lemma StoredIff(db: Db, base: string, r: Request, e: Entry)
    requires r.Create? || (r.Update? && r.id in db.projects)
    requires Would(db, r) == Some(e.row) && OffSubdomains(db) && OffAliases(db, base)
    requires e.row.tcpPrefix.Some? && !(r.id in db.projects && db.projects[r.id].row.tcpPrefix == e.row.tcpPrefix) ==>
               !HostnameTaken(db, e.row.tcpPrefix.value, r.id)
    ensures OffSubdomains(Put(db, r.id, e)) && OffAliases(Put(db, r.id, e), base) <==> !Swallowed(db, base, r)
  {
    StoredRoute(if r.Create? then r.kind else db.projects[r.id].kind, r.fieldsOk, Asked(db, r));
    PutSubdomainsIff(db, r.id, e);
    PutAliasesIff(db, base, r.id, e);
    hide Validated, Asked, HostnameTaken, Aliased, Own.HostOf, Put, OffSubdomains;
    hide OffAliases, Own.ValidPrefix, TcpRouteOk, FixedOk;
  }

  lemma CreateIff(db: Db, base: string, r: Request)
    requires OffSubdomains(db) && OffAliases(db, base) && r.Create? && CreateStep(db, base, r).1 == Own.Done
    ensures
      var after := CreateStep(db, base, r).0;
      OffSubdomains(after) && OffAliases(after, base) <==> !Swallowed(db, base, r)
  {
    var v := Validated(r.kind, r.fieldsOk, r.row).value;
    assert Would(db, r) == Some(v);
    hide Validated, Would, Conflicts, HostnameTaken, PinTaken, Put, OffSubdomains, OffAliases, Swallowed;
    StoredIff(db, base, r, Entry(v, r.kind, r.owner));
  }

  lemma UpdateIff(db: Db, base: string, r: Request)
    requires OffSubdomains(db) && OffAliases(db, base) && r.Update? && UpdateStep(db, base, r).1 == Own.Done
    ensures
      var after := UpdateStep(db, base, r).0;
      OffSubdomains(after) && OffAliases(after, base) <==> !Swallowed(db, base, r)
  {
    var was := db.projects[r.id];
    var row := GatesOf(was.kind, r.fieldsOk, was.row, r.body).row;
    assert Would(db, r) == Some(row);
    hide Validated, Patched, Would, Conflicts, HostnameTaken, PinTaken, Put, OffSubdomains, OffAliases, Swallowed;
    StoredIff(db, base, r, was.(row := row));
  }

  lemma AliasIff(db: Db, base: string, r: Request)
    requires OffSubdomains(db) && OffAliases(db, base)
    requires r.Hosts? && r.request.CreateAlias? && HostStep(db, base, r.request).1 == Own.Done
    ensures
      var after := HostStep(db, base, r.request).0;
      OffSubdomains(after) && OffAliases(after, base) <==> !Swallowed(db, base, r)
  {
    var after, host := HostStep(db, base, r.request).0, Own.Norm(r.request.host);
    hide Own.Norm, Own.AliasAccepted, Own.BaseSubPrefix, Own.PrefixTaken, Own.HostAliased, Own.MayManage, Own.HostOf;
    assert after.projects == db.projects;
    assert after.aliases == db.aliases[r.request.aliasId := Own.Alias(r.request.project, host)];
    assert r.request.aliasId !in db.aliases;
    forall h
      ensures Aliased(after, h) <==> Aliased(db, h) || h == host
    {
      AliasedAfter(db, after, r.request.aliasId, r.request.project, host, h);
    }
    hide Aliased, HostStep;
  }

  lemma AliasedAfter(db: Db, after: Db, id: nat, project: nat, host: string, h: string)
    requires id !in db.aliases && after.aliases == db.aliases[id := Own.Alias(project, host)]
    ensures Aliased(after, h) <==> Aliased(db, h) || h == host
  {
    assert after.aliases[id].host == host;
    assert forall a | a in db.aliases :: a in after.aliases && after.aliases[a] == db.aliases[a];
  }

  predicate SameHosts(a: Row, b: Row) {
    a.tcpPrefix == b.tcpPrefix && a.domainPrefix == b.domainPrefix
  }

  /** Other requests leave columns and aliases, or fewer of them. */
  lemma OthersKeep(db: Db, base: string, r: Request)
    requires OffSubdomains(db) && OffAliases(db, base)
    requires !r.Create? && !r.Update? && !(r.Hosts? && r.request.CreateAlias?)
    ensures OffSubdomains(Step(db, base, r).0) && OffAliases(Step(db, base, r).0, base)
  {
    hide Own.HostOf, Own.NameTaken, Own.MayManage;
    var after := Step(db, base, r).0;
    assert forall a | a in after.aliases :: a in db.aliases && after.aliases[a] == db.aliases[a];
    assert forall p | p in after.projects :: p in db.projects && SameHosts(after.projects[p].row, db.projects[p].row);
    hide Step;
  }

  lemma RefusedKeeps(db: Db, base: string, r: Request)
    ensures Step(db, base, r).1 != Own.Done && (r.Create? || r.Update? || (r.Hosts? && r.request.CreateAlias?)) ==>
              Step(db, base, r).0 == db
  {
    hide Validated, GatesOf, Conflicts, PinStatus, RouteStatus, Own.Norm;
    hide Own.AliasAccepted, Own.BaseSubPrefix, Own.PrefixTaken;
    hide Own.HostAliased, Own.MayManage;
  }

  lemma PartsIff(db: Db, base: string, r: Request)
    requires OffSubdomains(db) && OffAliases(db, base)
    ensures
      var (after, status) := Step(db, base, r);
      OffSubdomains(after) && OffAliases(after, base) <==> status != Own.Done || !Swallowed(db, base, r)
  {
    RefusedKeeps(db, base, r);
    hide OffSubdomains, OffAliases, CreateStep, UpdateStep, HostStep, Would, Asked, Aliased, Own.Norm, Own.HostOf;
    if r.Create? {
      if CreateStep(db, base, r).1 == Own.Done {
        CreateIff(db, base, r);
      }
    } else if r.Update? {
      if UpdateStep(db, base, r).1 == Own.Done {
        UpdateIff(db, base, r);
      }
    } else if r.Hosts? && r.request.CreateAlias? {
      if HostStep(db, base, r.request).1 == Own.Done {
        AliasIff(db, base, r);
      }
    } else {
      OthersKeep(db, base, r);
    }
  }

  lemma InvOwnsAliases(db: Db, base: string)
    requires Own.Inv(HostView(db), base)
    ensures AliasesOwned(db)
  {
    hide Own.PrefixesOk, Own.Agree, Own.AliasAccepted, Own.Norm;
    assert forall p :: p in HostView(db).projects <==> p in db.projects;
  }

  /**
   * Request by request: while no TCP route sits on a claimed host, a request keeps it so if and only if it
   * is refused or swallows no host in the sense above, which can be read off before the call.
   */
  lemma ExclusiveIff(db: Db, base: string, r: Request)
    requires Own.Inv(HostView(db), base) && Own.Canonical(base) && Exclusive(db, base)
    ensures
      var (after, status) := Step(db, base, r);
      Exclusive(after, base) <==> status != Own.Done || !Swallowed(db, base, r)
  {
    hide *;
    var after := Step(db, base, r).0;
    RunOfOne(db, base, r);
    RunKeepsHosts(db, base, [r]);
    InvOwnsAliases(db, base);
    InvOwnsAliases(after, base);
    ExclusiveParts(db, base);
    ExclusiveParts(after, base);
    PartsIff(db, base, r);
  }

  lemma RunOfOne(db: Db, base: string, r: Request)
    ensures Run(db, base, [r]) == Step(db, base, r).0
  {
    hide Step;
    assert [r][1..] == [];
    assert Run(Step(db, base, r).0, base, []) == Step(db, base, r).0;
  }

  // ---------------------------------------------------------------- hosts that are swallowed

  function WithRoute(r: Row, hostname: string): Row {
    r.(tcpPrefix := Some(hostname), tcpPort := Some(5349))
  }

  /** A valid row is stored as asked, with an omitted prefix replaced. */
  lemma ValidRow(name: string, prefix: string, hostname: string)
    requires Own.ValidPrefix(name) && (prefix == "" || Own.ValidPrefix(prefix)) && Own.ValidPrefix(hostname) && hostname != prefix
    ensures Validated(Own.Deployment, true, WithRoute(Plain(name, prefix), hostname)) ==
            Some(WithRoute(Plain(name, if prefix == "" then name else prefix), hostname))
    ensures Validated(Own.Deployment, true, Plain(name, prefix)) == Some(Plain(name, if prefix == "" then name else prefix))
  {
    LabelIsTrimmed(name);
    LabelIsTrimmed(hostname);
    TcpRouteNormalises(WithRoute(Plain(name, prefix), hostname));
    TcpRouteNormalises(Plain(name, prefix));
    assert name != "";
    hide Trim, TcpRoute, Own.ValidPrefix;
  }

  /** A project `p` with a TCP route on `t`, alone in the store. */
  function Routed(name: string, p: string, t: string): Db {
    Db(map[1 := Entry(WithRoute(Plain(name, p), t), Own.Deployment, 0)], map[], {})
  }

  lemma RouteCreated(base: string, name: string, p: string, t: string)
    requires Own.ValidPrefix(name) && Own.ValidPrefix(p) && Own.ValidPrefix(t) && p != t
    ensures Step(NONE, base, Creating(1, true, WithRoute(Plain(name, p), t))) == (Routed(name, p, t), Own.Done)
  {
    ValidRow(name, p, t);
    hide Validated, Own.ValidPrefix;
    assert p != "" by {
      assert !Own.ValidPrefix("");
    }
  }

  lemma NotExclusive(db: Db, base: string, p: nat, q: nat, t: string)
    requires p in db.projects && q in db.projects && db.projects[p].row.tcpPrefix == Some(t)
    requires db.projects[q].row.domainPrefix == t || Own.HasAlias(HostView(db), q, Own.HostOf(t, base))
    ensures !Exclusive(db, base)
  {
    hide Own.HostOf;
    assert HostView(db).projects[q].prefix == db.projects[q].row.domainPrefix;
    assert Own.Claims(HostView(db), base, q, Own.HostOf(t, base));
  }

  /**
   * An administrator routes TCP for hostname `t`; then anybody may create a project with the subdomain
   * `t`, whose HTTP traffic that route swallows.
   */
  lemma CreateSwallowed(base: string, p: string, t: string)
    requires Own.ValidPrefix(p) && Own.ValidPrefix(t) && p != t
    ensures
      var rs := [Creating(1, true, WithRoute(Plain(p, p), t)), Creating(2, false, Plain(t, ""))];
      !Exclusive(Run(NONE, base, rs), base)
  {
    var first, second := Creating(1, true, WithRoute(Plain(p, p), t)), Creating(2, false, Plain(t, ""));
    RouteCreated(base, p, p, t);
    ValidRow(t, "", p);
    RunOfTwo(NONE, base, first, second);
    var one := Routed(p, p, t);
    hide Validated, Run, Own.ValidPrefix, Exclusive;
    var two := Step(one, base, second).0;
    assert two.projects[1].row.tcpPrefix == Some(t) && two.projects[2].row.domainPrefix == t;
    NotExclusive(two, base, 1, 2, t);
  }

  /** With a TCP hostname that is the project's name, its owner need only clear the prefix. */
  lemma UpdateSwallowed(base: string, p: string, t: string)
    requires Own.ValidPrefix(p) && Own.ValidPrefix(t) && p != t
    ensures
      var rs := [Creating(1, true, WithRoute(Plain(t, p), t)), Update(1, true, false, true, [DomainPrefix("")])];
      !Exclusive(Run(NONE, base, rs), base)
  {
    var first, second := Creating(1, true, WithRoute(Plain(t, p), t)), Update(1, true, false, true, [DomainPrefix("")]);
    assert t != "";
    RouteCreated(base, t, p, t);
    ValidRow(t, "", t);
    PatchedOne(WithRoute(Plain(t, p), t), DomainPrefix(""));
    RunOfTwo(NONE, base, first, second);
    var one := Routed(t, p, t);
    hide Validated, Patched, Run, Own.ValidPrefix, Exclusive;
    var two := Step(one, base, second).0;
    assert two.projects[1].row == WithRoute(Plain(t, t), t);
    NotExclusive(two, base, 1, 1, t);
  }

  /** A host the alias handler accepts for an owner of the one project in the store. */
  predicate AcceptableAlias(base: string, p: string, t: string) {
    var host := Own.HostOf(t, base);
    && Own.Norm(host) == host && Own.AliasAccepted(host, base)
    && Own.BaseSubPrefix(host, base) == Some(t) && p != t
  }

  lemma FirstAlias(hosts: Own.Db, base: string, p: string, t: string)
    requires hosts.aliases == map[] && hosts.projects == map[1 := Own.Project(p, 0, Own.Deployment, p)]
    requires AcceptableAlias(base, p, t)
    ensures
      var host := Own.HostOf(t, base);
      Own.AddAlias(hosts, base, Own.CreateAlias(7, 1, 0, false, host)) ==
      (hosts.(aliases := map[7 := Own.Alias(1, host)]), Own.Done)
  {
    hide Own.Norm, Own.AliasAccepted, Own.BaseSubPrefix, Own.HostOf;
  }

  lemma AliasOnRoute(base: string, p: string, t: string)
    requires AcceptableAlias(base, p, t)
    ensures
      var host := Own.HostOf(t, base);
      Step(Routed(p, p, t), base, Hosts(Own.CreateAlias(7, 1, 0, false, host))) ==
      (Routed(p, p, t).(aliases := map[7 := Own.Alias(1, host)]), Own.Done)
  {
    var hosts := HostView(Routed(p, p, t));
    assert hosts.projects == map[1 := Own.Project(p, 0, Own.Deployment, p)];
    FirstAlias(hosts, base, p, t);
    hide AcceptableAlias, Own.AddAlias, Own.HostOf;
  }

  /** The owner of a project takes the hostname of its TCP route, or of any, as an alias. */
  lemma AliasSwallowed(base: string, p: string, t: string)
    requires Own.ValidPrefix(p) && Own.ValidPrefix(t) && AcceptableAlias(base, p, t)
    ensures
      var rs := [Creating(1, true, WithRoute(Plain(p, p), t)), Hosts(Own.CreateAlias(7, 1, 0, false, Own.HostOf(t, base)))];
      !Exclusive(Run(NONE, base, rs), base)
  {
    var host := Own.HostOf(t, base);
    var first, second := Creating(1, true, WithRoute(Plain(p, p), t)), Hosts(Own.CreateAlias(7, 1, 0, false, host));
    var two := Routed(p, p, t).(aliases := map[7 := Own.Alias(1, host)]);
    assert two.aliases[7] == Own.Alias(1, host) && two.projects[1].row.tcpPrefix == Some(t);
    assert AcceptableAlias(base, p, t) ==> p != t;
    hide *;
    RouteCreated(base, p, p, t);
    RunOfTwo(NONE, base, first, second);
    AliasOnRoute(base, p, t);
    NotExclusive(two, base, 1, 1, t);
  }

  const AT := "t.a.b"

  /** For instance the hostname `t` under the base `a.b`. */
  lemma AcceptableAliasExists()
    ensures AcceptableAlias("a.b", "p", "t")
  {
    assert Own.HostOf("t", "a.b") == AT;
    AtIsNormal();
    AtLabels();
    Claims.SubPrefixIff(AT, "a.b", "t");
    hide Own.Norm, Split, Own.BaseSubPrefix, Own.HostOf;
    assert Own.ShortLabel("t") && Own.ShortLabel("a") && Own.ShortLabel("b");
    assert Own.AliasAccepted(AT, "a.b");
  }

  lemma AtIsNormal()
    ensures Own.Norm(AT) == AT && Own.Norm("a.b") == "a.b"
  {
    TrimmedStays(AT);
    TrimmedStays("a.b");
    hide Trim;
    assert Lower(AT) == AT && Lower("a.b") == "a.b";
  }

  lemma AtLabels()
    ensures Split(AT, '.') == ["t", "a", "b"]
  {
    SplitFirst("t", '.', "a.b");
    SplitFirst("a", '.', "b");
    SplitPlain("b", '.');
    hide Split;
    assert "t" + (['.'] + "a.b") == AT && "a" + (['.'] + "b") == "a.b";
    assert ["t"] + (["a"] + ["b"]) == ["t", "a", "b"];
  }
}
