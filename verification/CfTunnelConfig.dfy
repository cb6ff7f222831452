/**
 * The Cloudflare Tunnel rewrite as it runs: in place on the router and service maps of the dynamic
 * configuration. TLS blocks are shared between routers by reference, so a narrowed router gets a
 * block of its own; no method here lists a TLS block in its `modifies` clause.
 */
module CfTunnelConfig {
  import opened Wrappers
  import opened HostRules
  import opened CfTunnel
  import opened CfMeaning
  import opened CfTcp

  class TlsBlock {
    var certResolver: string
    var domains: seq<string>

    constructor (certResolver: string, domains: seq<string>)
      ensures this.certResolver == certResolver && this.domains == domains
    {
      this.certResolver := certResolver;
      this.domains := domains;
    }
  }

  /** A router as the maps hold it: a record whose TLS block is a pointer. */
  datatype Entry = Entry(
    rule: string, entryPoints: seq<string>, service: string,
    middlewares: seq<string>, tls: TlsBlock?, priority: int)

  ghost function Shown(e: Entry): Router
    reads e.tls
  {
    Router(e.rule, e.entryPoints, e.service, e.middlewares,
           if e.tls == null then None else Some(Tls(e.tls.certResolver, e.tls.domains)), e.priority)
  }

  ghost function Blocks(m: map<string, Entry>): set<TlsBlock> {
    set n | n in m && m[n].tls != null :: m[n].tls
  }

  /** The router map with every TLS pointer followed. */
  ghost function Snap(m: map<string, Entry>): Routers
    reads Blocks(m)
  {
    map n | n in m :: Shown(m[n])
  }

  lemma SnapPut(m: map<string, Entry>, n: string, e: Entry)
    ensures Snap(m[n := e]) == Snap(m)[n := Shown(e)]
  {
  }

  lemma SnapAt(m: map<string, Entry>, n: string)
    ensures n in Snap(m) <==> n in m
    ensures n in m ==> Snap(m)[n] == Shown(m[n]) && Shown(m[n]).rule == m[n].rule
  {
  }

  lemma SnapKeys(m: map<string, Entry>)
    ensures Snap(m).Keys == m.Keys
  {
  }

  lemma SnapRemove(m: map<string, Entry>, n: string)
    ensures Snap(m - {n}) == Snap(m) - {n}
  {
  }

  // ---------------------------------------------------------------- the two loops over hosts and names

  /** `splitHosts`: both lists keep the order of the input. */
  method SplitHosts(hosts: seq<string>, isTunnel: HostTest) returns (acme: seq<string>, tunnel: seq<string>)
    ensures tunnel == Moved(hosts, isTunnel)
    ensures acme == Kept(hosts, isTunnel)
  {
    acme, tunnel := [], [];
    for i := 0 to |hosts|
      invariant Moved(hosts, isTunnel) == tunnel + Moved(hosts[i..], isTunnel)
      invariant Kept(hosts, isTunnel) == acme + Kept(hosts[i..], isTunnel)
    {
      assert hosts[i..][1..] == hosts[i + 1..];
      if isTunnel(hosts[i]) {
        tunnel := tunnel + [hosts[i]];
      } else {
        acme := acme + [hosts[i]];
      }
    }
  }

  /** A snapshot of the names, in whatever order the map yields them. */
  method NamesOf(names: set<string>) returns (order: seq<string>)
    ensures Enumerates(order, names)
  {
    order := [];
    var todo := names;
    while todo != {}
      invariant todo <= names && Enumerates(order, names - todo)
      decreases |todo|
    {
      var n :| n in todo;
      order, todo := order + [n], todo - {n};
    }
    assert names - todo == names;
  }

  // ---------------------------------------------------------------- HTTP

  lemma ProcessNothing(m: Routers, isTunnel: HostTest)
    ensures ProcessAll(m, [], isTunnel) == m
  {
  }

  lemma ProcessSnoc(m: Routers, order: seq<string>, i: nat, isTunnel: HostTest)
    requires i < |order|
    ensures ProcessAll(m, order[..i + 1], isTunnel) == ProcessOne(ProcessAll(m, order[..i], isTunnel), order[i], isTunnel)
  {
    hide ProcessOne;
    assert order[..i + 1][..i] == order[..i];
  }

  /** A round changes nothing when the name is gone, the rule is foreign, or no host is a tunnel host. */
  lemma RoundSkips(m: Routers, name: string, isTunnel: HostTest)
    requires name !in m || SplitRule(m[name].rule, false).None? || Moved(HostsOf(m[name]), isTunnel) == []
    ensures ProcessOne(m, name, isTunnel) == m
  {
    hide SplitRule, Moved;
  }

  /** One round on a router that names tunnel hosts, written as the map updates the loop performs. */
  lemma RoundIs(m: Routers, name: string, isTunnel: HostTest)
    requires name in m && SplitRule(m[name].rule, false).Some? && Moved(HostsOf(m[name]), isTunnel) != []
    ensures
      var r := m[name];
      var (hosts, rest) := SplitRule(r.rule, false).value;
      var (acme, tunnel) := (Kept(hosts, isTunnel), Moved(hosts, isTunnel));
      var m1 := m[name + SUFFIX := r.(rule := MatchRule(tunnel, false) + rest, entryPoints := [CF_ENTRYPOINT], tls := None)];
      ProcessOne(m, name, isTunnel) ==
      if acme == [] then m1 - {name}
      else m1[name := r.(rule := MatchRule(acme, false) + rest, tls := Retls(r.tls, acme))]
  {
    hide MatchRule, SplitRule, Filter;
  }

  /** A copy of the entry for fewer hosts; its TLS block, if any, is a new one. */
  method Narrow(e: Entry, rule: string, hosts: seq<string>) returns (narrowed: Entry)
    ensures Shown(narrowed) == Shown(e).(rule := rule, tls := Retls(Shown(e).tls, hosts))
    ensures narrowed.tls != null ==> fresh(narrowed.tls)
  {
    narrowed := e.(rule := rule);
    if e.tls != null {
      var tls := new TlsBlock(e.tls.certResolver, hosts);
      narrowed := narrowed.(tls := tls);
    }
  }

  method ListPanelHosts(bases: seq<string>) returns (hosts: seq<string>)
    ensures hosts == PanelHosts(bases)
  {
    hosts := [];
    for i := 0 to |bases|
      invariant PanelHosts(bases) == hosts + PanelHosts(bases[i..])
    {
      assert bases[i..][1..] == bases[i + 1..];
      hosts := hosts + [bases[i], "app." + bases[i]];
    }
  }

  function PanelEntry(hosts: seq<string>): Entry {
    Entry(MatchRule(hosts, false), [CF_ENTRYPOINT], PANEL_SERVICE,
          ["strip-internal-key@file", "block-internal-api@file"], null, 0)
  }

  function PanelOauthEntry(hosts: seq<string>): Entry {
    Entry(MatchRule(hosts, false) + OAUTH_PATH, [CF_ENTRYPOINT], DEVICE_SERVICE, [], null, 200)
  }

  lemma PanelEntriesShow(bases: seq<string>, m: Routers)
    ensures WithPanel(m, bases) ==
            m[PANEL + SUFFIX := Shown(PanelEntry(PanelHosts(bases)))]
             [PANEL_OAUTH + SUFFIX := Shown(PanelOauthEntry(PanelHosts(bases)))]
  {
    hide MatchRule, PanelHosts;
  }

  /** One half of the configuration: HTTP or TCP routers, with the backend of each service. */
  class Section {
    var routers: map<string, Entry>
    var services: map<string, string>

    constructor ()
      ensures routers == map[] && services == map[]
    {
      routers, services := map[], map[];
    }

    method Put(name: string, e: Entry)
      modifies this`routers
      ensures Snap(routers) == old(Snap(routers))[name := Shown(e)]
    {
      var next: map<string, Entry> := routers[name := e];
      SnapPut(routers, name, e);
      hide Snap, Shown;
      routers := next;
      assert this as object !in Blocks(next);
    }

    method Delete(name: string)
      modifies this`routers
      ensures Snap(routers) == old(Snap(routers)) - {name}
    {
      var next: map<string, Entry> := routers - {name};
      SnapRemove(routers, name);
      hide Snap, Shown;
      routers := next;
      assert this as object !in Blocks(next);
    }

    /** One name of the snapshot; a name that is gone reads as an empty router and is skipped. */
    method SplitRouter(name: string, isTunnel: HostTest)
      modifies this`routers
      ensures Snap(routers) == ProcessOne(old(Snap(routers)), name, isTunnel)
    {
      ghost var m := Snap(routers);
      SnapAt(routers, name);
      hide ProcessOne, SplitRule, MatchRule, Moved, Kept, Filter;
      if name !in routers {
        RoundSkips(m, name, isTunnel);
        return;
      }
      var r := routers[name];
      var split := SplitRule(r.rule, false);
      if split.None? {
        RoundSkips(m, name, isTunnel);
        return;
      }
      var (hosts, rest) := split.value;
      var acme, tunnel := SplitHosts(hosts, isTunnel);
      assert Snap(routers) == m;
      hide Snap;
      if tunnel == [] {
        RoundSkips(m, name, isTunnel);
        return;
      }
      RoundIs(m, name, isTunnel);
      SplitInTwo(name, acme, tunnel, rest);
    }

    /** The sibling goes in first; the router itself is then narrowed, or deleted when no host is left. */
    method SplitInTwo(name: string, acme: seq<string>, tunnel: seq<string>, rest: string)
      requires name in routers
      modifies this`routers
      ensures
        var r := old(Shown(routers[name]));
        var m1 := old(Snap(routers))[name + SUFFIX :=
          r.(rule := MatchRule(tunnel, false) + rest, entryPoints := [CF_ENTRYPOINT], tls := None)];
        Snap(routers) ==
        if acme == [] then m1 - {name}
        else m1[name := r.(rule := MatchRule(acme, false) + rest, tls := Retls(r.tls, acme))]
    {
      hide MatchRule, Retls;
      var r := routers[name];
      var sibling := r.(rule := MatchRule(tunnel, false) + rest, entryPoints := [CF_ENTRYPOINT], tls := null);
      Put(name + SUFFIX, sibling);
      if acme == [] {
        Delete(name);
      } else {
        ghost var snap := Snap(routers);
        var narrowed := Narrow(r, MatchRule(acme, false) + rest, acme);
        assert Snap(routers) == snap;
        hide Snap;
        Put(name, narrowed);
      }
    }

    /** Every name of the snapshot in an arbitrary order; without a clash the order is irrelevant. */
    method Rewrite(isTunnel: HostTest) returns (order: seq<string>)
      modifies this`routers
      ensures Enumerates(order, old(Snap(routers)).Keys)
      ensures Snap(routers) == ProcessAll(old(Snap(routers)), order, isTunnel)
      ensures NoClash(old(Snap(routers)), isTunnel) ==> Snap(routers) == RewriteAll(old(Snap(routers)), isTunnel)
    {
      SnapKeys(routers);
      order := NamesOf(routers.Keys);
      ghost var before := Snap(routers);
      assert before == old(Snap(routers));
      hide *;
      ProcessNothing(before, isTunnel);
      assert order[..0] == [];
      for i := 0 to |order|
        invariant Snap(routers) == ProcessAll(before, order[..i], isTunnel)
      {
        SplitRouter(order[i], isTunnel);
        ProcessSnoc(before, order, i, isTunnel);
      }
      assert order[..|order|] == order;
      if NoClash(before, isTunnel) {
        RewriteIsOrderIndependent(before, order, isTunnel);
      }
    }

    /** The two panel routers, and their backend unless it is defined already. */
    method AddPanel(bases: seq<string>, authServiceUrl: string)
      modifies this
      ensures Snap(routers) == WithPanel(old(Snap(routers)), bases)
      ensures services ==
              if DEVICE_SERVICE in old(services) then old(services)
              else old(services)[DEVICE_SERVICE := authServiceUrl]
    {
      var hosts := ListPanelHosts(bases);
      assert Snap(routers) == old(Snap(routers));
      hide *;
      var panel, oauth := PanelEntry(hosts), PanelOauthEntry(hosts);
      Put(PANEL + SUFFIX, panel);
      Put(PANEL_OAUTH + SUFFIX, oauth);
      PanelEntriesShow(bases, old(Snap(routers)));
      if DEVICE_SERVICE !in services {
        services := services[DEVICE_SERVICE := authServiceUrl];
      }
    }

    /** The TCP loop runs over the live map: routers are narrowed or deleted while it is ranged over. */
    method RewriteTcp(isTunnel: HostTest)
      modifies this
      ensures var m := old(Snap(routers));
        && Snap(routers) == TcpRouters(m, m.Keys, isTunnel)
        && services == old(services) - DroppedServices(m, m.Keys, isTunnel)
    {
      ghost var m, given := Snap(routers), services;
      SnapKeys(routers);
      var todo := routers.Keys;
      TcpStart(m, given, isTunnel);
      hide *;
      while todo != {}
        invariant todo <= m.Keys
        invariant Snap(routers) == TcpRouters(m, m.Keys - todo, isTunnel)
        invariant services == given - DroppedServices(m, m.Keys - todo, isTunnel)
        decreases |todo|
      {
        var name :| name in todo;
        ghost var done := m.Keys - todo;
        TcpOneMore(m, done, given, name, isTunnel);
        NarrowTcp(name, isTunnel);
        assert done + {name} == m.Keys - (todo - {name});
        todo := todo - {name};
      }
      assert m.Keys - {} == m.Keys;
    }

    /** One TCP router loses its tunnel hosts, or goes together with its service. */
    method NarrowTcp(name: string, isTunnel: HostTest)
      requires name in Snap(routers)
      modifies this
      ensures
        var r := old(Snap(routers)[name]);
        var s := TcpRemainder(r, isTunnel);
        && Snap(routers) == (if s.Some? then old(Snap(routers))[name := s.value] else old(Snap(routers)) - {name})
        && services == (if s.Some? then old(services) else old(services) - {r.service})
    {
      ghost var snap := Snap(routers);
      SnapAt(routers, name);
      TcpRemainderIs(snap[name], isTunnel);
      hide TcpRemainder, SplitRule, MatchRule, Moved, Kept, Filter, Retls;
      var r := routers[name];
      var split := SplitRule(r.rule, true);
      if split.None? {
        return;
      }
      var (hosts, rest) := split.value;
      var acme, tunnel := SplitHosts(hosts, isTunnel);
      assert Snap(routers) == snap;
      if tunnel == [] {
        hide *;
        return;
      }
      hide *;
      ShrinkTcp(name, acme, rest);
    }

    method ShrinkTcp(name: string, acme: seq<string>, rest: string)
      requires name in Snap(routers) && name in routers
      modifies this
      ensures
        var r := old(Snap(routers)[name]);
        && Snap(routers) ==
           (if acme == [] then old(Snap(routers)) - {name}
            else old(Snap(routers))[name := r.(rule := MatchRule(acme, true) + rest, tls := Retls(r.tls, acme))])
        && services == (if acme == [] then old(services) - {r.service} else old(services))
    {
      ghost var snap := Snap(routers);
      SnapAt(routers, name);
      hide MatchRule, Retls;
      var r := routers[name];
      assert snap[name] == Shown(r) && snap[name].service == r.service;
      if acme == [] {
        Delete(name);
        services := services - {r.service};
        assert Snap(routers) == snap - {name};
      } else {
        var narrowed := Narrow(r, MatchRule(acme, true) + rest, acme);
        assert Snap(routers) == snap;
        hide Snap, Shown;
        Put(name, narrowed);
      }
    }
  }

  lemma TcpStart(m: Routers, given: map<string, string>, isTunnel: HostTest)
    ensures m == TcpRouters(m, m.Keys - m.Keys, isTunnel)
    ensures given == given - DroppedServices(m, m.Keys - m.Keys, isTunnel)
  {
    hide TcpRemainder;
    assert DroppedServices(m, {}, isTunnel) == {};
  }

  /** Visiting one more TCP router touches its own entry and, if it goes, its service. */
  lemma TcpOneMore(m: Routers, done: set<string>, given: map<string, string>, name: string, isTunnel: HostTest)
    requires name in m && name !in done
    ensures
      var cur := TcpRouters(m, done, isTunnel);
      var s := TcpRemainder(m[name], isTunnel);
      && name in cur && cur[name] == m[name]
      && TcpRouters(m, done + {name}, isTunnel) == (if s.Some? then cur[name := s.value] else cur - {name})
    ensures
      var left := given - DroppedServices(m, done, isTunnel);
      given - DroppedServices(m, done + {name}, isTunnel) ==
      if TcpRemainder(m[name], isTunnel).Some? then left else left - {m[name].service}
  {
    hide TcpRemainder;
    assert DroppedServices(m, done + {name}, isTunnel) ==
           DroppedServices(m, done, isTunnel) + if TcpRemainder(m[name], isTunnel).None? then {m[name].service} else {};
  }

  lemma TcpRemainderIs(r: Router, isTunnel: HostTest)
    ensures
      var s := SplitRule(r.rule, true);
      TcpRemainder(r, isTunnel) ==
      if s.None? || Moved(s.value.0, isTunnel) == [] then Some(r)
      else if Kept(s.value.0, isTunnel) == [] then None
      else
        var acme := Kept(s.value.0, isTunnel);
        Some(r.(rule := MatchRule(acme, true) + s.value.1, tls := Retls(r.tls, acme)))
  {
    hide SplitRule, MatchRule;
  }

  // ---------------------------------------------------------------- the whole configuration

  /** Some order of visiting the names leads there. */
  ghost predicate Reached(m: Routers, out: Routers, isTunnel: HostTest) {
    exists order | Enumerates(order, m.Keys) :: out == ProcessAll(m, order, isTunnel)
  }

  ghost predicate ReachedWithPanel(m: Routers, out: Routers, bases: seq<string>, isTunnel: HostTest) {
    exists mid | Reached(m, mid, isTunnel) :: out == WithPanel(mid, bases)
  }

  class DynamicConfig {
    var http: Section?
    var tcp: Section?

    constructor (http: Section?, tcp: Section?)
      ensures this.http == http && this.tcp == tcp
    {
      this.http, this.tcp := http, tcp;
    }

    method RewriteSections(isTunnel: HostTest)
      requires http == null || http != tcp
      modifies http, tcp
      ensures http != null ==> HttpSplit(http, isTunnel)
      ensures tcp != null ==> TcpRewritten(tcp, isTunnel)
    {
      hide ProcessAll, Enumerates, NoClash, RewriteAll, TcpRouters, DroppedServices;
      if http != null {
        var order := http.Rewrite(isTunnel);
        assert Reached(old(Snap(http.routers)), Snap(http.routers), isTunnel);
      }
      if tcp != null {
        assert Snap(tcp.routers) == old(Snap(tcp.routers));
        label Split:
        tcp.RewriteTcp(isTunnel);
        if http != null {
          assert Snap(http.routers) == old@Split(Snap(http.routers));
        }
      }
    }

    /** `addCFTunnelPanelRouters`: an absent HTTP section is created first. */
    method AddPanelRouters(bases: seq<string>, authServiceUrl: string)
      requires http == null || http != tcp
      modifies this, http
      ensures http != null && tcp == old(tcp) && (if old(http) == null then fresh(http) else http == old(http))
      ensures old(http) == null ==> Snap(http.routers) == WithPanel(map[], bases)
      ensures old(http) != null ==>
        && Snap(http.routers) == WithPanel(old(Snap(http.routers)), bases)
        && http.services.Keys == old(http.services.Keys) + {DEVICE_SERVICE}
      ensures tcp != null ==> Snap(tcp.routers) == old(Snap(tcp.routers))
    {
      if http == null {
        http := new Section();
        assert Snap(http.routers) == map[];
      }
      hide WithPanel;
      http.AddPanel(bases, authServiceUrl);
    }

    /** `applyCFTunnelDomains`: a no-op without tunnel domains. */
    method Apply(bases: seq<string>, isTunnel: HostTest, authServiceUrl: string)
      requires http == null || http != tcp
      modifies this, http, tcp
      ensures bases == [] ==> http == old(http)
      ensures tcp == old(tcp) && (old(http) != null ==> http == old(http))
      ensures old(http) != null ==> HttpApplied(old(http), bases, isTunnel)
      ensures tcp != null ==> TcpApplied(tcp, bases, isTunnel)
      ensures bases != [] && old(http) == null ==>
        http != null && fresh(http) && Snap(http.routers) == WithPanel(map[], bases)
    {
      if bases == [] {
        return;
      }
      RewriteSections(isTunnel);
      hide ProcessAll, Enumerates, NoClash, RewriteAll, TcpRouters, DroppedServices, WithPanel, Snap, Reached;
      AddPanelRouters(bases, authServiceUrl);
    }
  }

  twostate predicate TcpApplied(tcp: Section, bases: seq<string>, isTunnel: HostTest)
    reads tcp, Blocks(tcp.routers)
  {
    if bases == [] then unchanged(tcp) else TcpRewritten(tcp, isTunnel)
  }

  twostate predicate HttpApplied(http: Section, bases: seq<string>, isTunnel: HostTest)
    reads http, Blocks(http.routers)
  {
    if bases == [] then unchanged(http) else HttpRewritten(http, bases, isTunnel)
  }

  twostate predicate TcpRewritten(tcp: Section, isTunnel: HostTest)
    reads tcp, Blocks(tcp.routers)
  {
    var m := old(Snap(tcp.routers));
    && Snap(tcp.routers) == TcpRouters(m, m.Keys, isTunnel)
    && tcp.services == old(tcp.services) - DroppedServices(m, m.Keys, isTunnel)
  }

  twostate predicate HttpSplit(http: Section, isTunnel: HostTest)
    reads http, Blocks(http.routers)
  {
    var m := old(Snap(http.routers));
    && Reached(m, Snap(http.routers), isTunnel)
    && (NoClash(m, isTunnel) ==> Snap(http.routers) == RewriteAll(m, isTunnel))
    && http.services == old(http.services)
  }

  twostate predicate HttpRewritten(http: Section, bases: seq<string>, isTunnel: HostTest)
    reads http, Blocks(http.routers)
  {
    var m := old(Snap(http.routers));
    && ReachedWithPanel(m, Snap(http.routers), bases, isTunnel)
    && (NoClash(m, isTunnel) ==> Snap(http.routers) == Applied(m, bases, isTunnel))
    && http.services.Keys == old(http.services.Keys) + {DEVICE_SERVICE}
  }
}
