/**
 * The TCP half of the Cloudflare Tunnel rewrite. A tunnel carries no SNI, so tunnel hosts are
 * dropped from TCP routers, and a router left without hosts goes together with its service.
 *
 * A TCP router is a `Router` without middlewares and with priority 0.
 */
module CfTcp {
  import opened Wrappers
  import opened HostRules
  import opened CfTunnel

  function TcpHosts(r: Router): seq<string> {
    match SplitRule(r.rule, true)
    case Some((hosts, _)) => hosts
    case None => []
  }

  predicate TcpMoves(r: Router, isTunnel: HostTest) {
    Moved(TcpHosts(r), isTunnel) != []
  }

  function TcpRemainder(r: Router, isTunnel: HostTest): Option<Router> {
    if !TcpMoves(r, isTunnel) then Some(r)
    else
      var acme := Kept(TcpHosts(r), isTunnel);
      if acme == [] then None
      else Some(r.(rule := MatchRule(acme, true) + SplitRule(r.rule, true).value.1, tls := Retls(r.tls, acme)))
  }

  /** The routers after those in `done` have been visited. */
  function TcpRouters(m: Routers, done: set<string>, isTunnel: HostTest): Routers {
    map k | k in m && (k in done ==> TcpRemainder(m[k], isTunnel).Some?) ::
      if k in done then TcpRemainder(m[k], isTunnel).value else m[k]
  }

  /** Services of the routers in `done` that lost every host. */
  function DroppedServices(m: Routers, done: set<string>, isTunnel: HostTest): set<string> {
    set k | k in m && k in done && TcpRemainder(m[k], isTunnel).None? :: m[k].service
  }

  /** A TCP router keeps exactly its public hosts; no TCP router matches a tunnel host any more. */
  lemma TcpKeepsPublicHosts(r: Router, isTunnel: HostTest, host: string)
    ensures
      var s := TcpRemainder(r, isTunnel);
      && (s.Some? && host in TcpHosts(s.value) <==> host in TcpHosts(r) && !isTunnel(host))
      && (s.Some? ==> s.value.service == r.service && s.value.entryPoints == r.entryPoints)
      && (s.None? ==> forall h | h in TcpHosts(r) :: isTunnel(h))
  {
    var hosts := TcpHosts(r);
    FilterFacts(hosts, isTunnel);
    FilterFacts(hosts, h => !isTunnel(h));
    var acme := Kept(hosts, isTunnel);
    if TcpMoves(r, isTunnel) && acme != [] {
      SplitSound(r.rule, true);
      SplitPrinted(acme, true, SplitRule(r.rule, true).value.1);
    }
    hide Filter, SplitRule, MatchRule;
  }

  /** Over the whole map, name by name. */
  lemma TcpMapKeepsPublicHosts(m: Routers, isTunnel: HostTest, k: string, host: string)
    ensures
      var out := TcpRouters(m, m.Keys, isTunnel);
      && (k in out && host in TcpHosts(out[k]) <==> k in m && host in TcpHosts(m[k]) && !isTunnel(host))
      && (k in out ==> k in m && out[k].service == m[k].service && out[k].entryPoints == m[k].entryPoints)
  {
    if k in m {
      TcpKeepsPublicHosts(m[k], isTunnel, host);
    }
    hide TcpRemainder, TcpHosts;
  }

  predicate TcpClosed(m: Routers, services: set<string>) {
    forall n | n in m :: m[n].service in services
  }

  /** No router that stays names the service of one that goes. */
  predicate NoSharedDrop(m: Routers, isTunnel: HostTest) {
    forall a, b | a in m && b in m && TcpRemainder(m[a], isTunnel).Some? && TcpRemainder(m[b], isTunnel).None? ::
      m[a].service != m[b].service
  }

  /** Service references stay closed if and only if no surviving router shares a dropped service. */
  lemma TcpReferencesStayClosedIff(m: Routers, services: set<string>, isTunnel: HostTest)
    requires TcpClosed(m, services)
    ensures TcpClosed(TcpRouters(m, m.Keys, isTunnel), services - DroppedServices(m, m.Keys, isTunnel))
            <==> NoSharedDrop(m, isTunnel)
  {
    var out, left := TcpRouters(m, m.Keys, isTunnel), services - DroppedServices(m, m.Keys, isTunnel);
    forall k | k in out
      ensures k in m && out[k].service == m[k].service
    {
      TcpKeepsPublicHosts(m[k], isTunnel, "");
    }
    hide TcpRemainder, TcpHosts;
    if TcpClosed(out, left) {
      forall a, b | a in m && b in m && TcpRemainder(m[a], isTunnel).Some? && TcpRemainder(m[b], isTunnel).None?
        ensures m[a].service != m[b].service
      {
        assert a in out;
        assert m[b].service in DroppedServices(m, m.Keys, isTunnel);
      }
    }
  }

  /** Generated TCP routers each name a service of their own, so nothing is shared. */
  lemma OwnNamesNotShared(m: Routers, isTunnel: HostTest)
    requires forall n | n in m :: m[n].service == n
    ensures NoSharedDrop(m, isTunnel)
  {
    hide TcpRemainder;
  }
}
