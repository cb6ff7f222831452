/**
 * The HTTP routers generated for running deployments: the project's default hosts, its aliases, the
 * paths that bypass authentication, and the sign-in namespace of every host.
 */
module TraefikConfig {
  import opened Wrappers
  import opened TextTools
  import opened HostRules
  import opened CfTunnel

  const CERT_RESOLVER := "letsencrypt"
  const EMBED_BRIDGE := "embed-bridge@file"
  const DEVICE_FLOW := "-device-flow"
  const DEVICE_BACKEND := "muvee-authservice-device"
  const OAUTH := " && PathPrefix(`/_oauth`)"
  const AUTH := "-auth"

  /** A running deployment together with the rows of its project. */
  datatype Deployed = Deployed(project: nat, prefix: string, needsAuth: bool, bypass: string, aliases: seq<string>)

  /** One write to the router map, and the project it is made for. */
  datatype Emission = Emission(name: string, router: Router, owner: nat)

  /** What a service name stands for: an address, and whose it is (the sign-in backend belongs to nobody). */
  datatype Backend = Backend(owner: Option<nat>, url: string)

  type Services = map<string, Backend>

  function HostsForPrefix(prefix: string, bases: seq<string>): seq<string> {
    if bases == [] then [] else [prefix + "." + bases[0]] + HostsForPrefix(prefix, bases[1..])
  }

  function Certified(hosts: seq<string>): Option<Tls> {
    Some(Tls(CERT_RESOLVER, hosts))
  }

  function Digits(n: nat): string {
    if n < 10 then [('0' as int + n) as char] else Digits(n / 10) + [('0' as int + n % 10) as char]
  }

  /** A trailing star makes a prefix rule, anything else an exact path. */
  function PathRule(path: string): string {
    if HasSuffix(path, "*") then "PathPrefix(`" + TrimSuffix(path, "*") + "`)" else "Path(`" + path + "`)"
  }

  function BypassRouter(name: string, hosts: seq<string>, tls: Option<Tls>, path: string): Router {
    Router(MatchRule(hosts, false) + (" && " + PathRule(path)), [WEBSECURE], name, [], tls, 100)
  }

  /** Blank lines are skipped but still counted. */
  function BypassFrom(name: string, hosts: seq<string>, tls: Option<Tls>, lines: seq<string>, i: nat, owner: nat): seq<Emission>
    requires i <= |lines|
    decreases |lines| - i
  {
    if i == |lines| then []
    else
      var path := Trim(lines[i]);
      (if path == "" then []
       else [Emission(name + "-bypass-" + Digits(i), BypassRouter(name, hosts, tls, path), owner)])
      + BypassFrom(name, hosts, tls, lines, i + 1, owner)
  }

  function Bypass(name: string, hosts: seq<string>, tls: Option<Tls>, d: Deployed): seq<Emission> {
    if d.needsAuth && d.bypass != "" then BypassFrom(name, hosts, tls, Split(d.bypass, '\n'), 0, d.project) else []
  }

  function DeviceFlow(name: string, hosts: seq<string>, tls: Option<Tls>, owner: nat): Emission {
    Emission(name + DEVICE_FLOW, Router(MatchRule(hosts, false) + OAUTH, [WEBSECURE], DEVICE_BACKEND, [], tls, 200), owner)
  }

  /** The chain of every user-facing router of a project. */
  function Chain(d: Deployed): seq<string> {
    (if d.needsAuth then [d.prefix + AUTH] else []) + [EMBED_BRIDGE]
  }

  function Facing(name: string, hosts: seq<string>, d: Deployed): Emission {
    Emission(name, Router(MatchRule(hosts, false), [WEBSECURE], d.prefix, Chain(d), Certified(hosts), 0), d.project)
  }

  /** The routers for one set of hosts of a deployment. */
  function Group(name: string, hosts: seq<string>, d: Deployed): seq<Emission> {
    Bypass(name, hosts, Certified(hosts), d) + [DeviceFlow(name, hosts, Certified(hosts), d.project), Facing(name, hosts, d)]
  }

  function AliasName(d: Deployed, i: nat): string {
    d.prefix + "-alias-" + Digits(i)
  }

  function AliasesFrom(d: Deployed, i: nat): seq<Emission>
    requires i <= |d.aliases|
    decreases |d.aliases| - i
  {
    if i == |d.aliases| then [] else Group(AliasName(d, i), [d.aliases[i]], d) + AliasesFrom(d, i + 1)
  }

  function Emit(d: Deployed, bases: seq<string>): seq<Emission> {
    Group(d.prefix, HostsForPrefix(d.prefix, bases), d) + AliasesFrom(d, 0)
  }

  function EmitAll(ds: seq<Deployed>, bases: seq<string>): seq<Emission> {
    if ds == [] then [] else Emit(ds[0], bases) + EmitAll(ds[1..], bases)
  }

  /** Writing emissions in order: a later one under the same name replaces the earlier one. */
  function PutAll(m: Routers, es: seq<Emission>): Routers
    decreases |es|
  {
    if es == [] then m else PutAll(m[es[0].name := es[0].router], es[1..])
  }

  /** The ForwardAuth middlewares, by name, with the project each one verifies against. */
  function AuthsOf(auths: map<string, nat>, ds: seq<Deployed>): map<string, nat>
    decreases |ds|
  {
    if ds == [] then auths
    else AuthsOf(if ds[0].needsAuth then auths[ds[0].prefix + AUTH := ds[0].project] else auths, ds[1..])
  }

  /** Each deployment defines the service of its prefix; a later one of the same name replaces it. */
  function ServicesOf(services: Services, ds: seq<Deployed>, urls: seq<string>): Services
    requires |urls| == |ds|
    decreases |ds|
  {
    if ds == [] then services
    else ServicesOf(services[ds[0].prefix := Backend(Some(ds[0].project), urls[0])], ds[1..], urls[1..])
  }

  /** Before the loop only the sign-in backend is defined. */
  function FirstServices(authServiceUrl: string): Services {
    map[DEVICE_BACKEND := Backend(None, authServiceUrl)]
  }

  // ---------------------------------------------------------------- tunnels and placeholders

  const TUNNEL := "tunnel-"
  const DOMAIN := "domain-"

  /** A route back to this server, for an active tunnel or for a reserved prefix without one. */
  datatype Front = Front(tunnel: bool, domain: string, project: nat, needsAuth: bool, bypass: string)

  function NameOf(f: Front): string {
    (if f.tunnel then TUNNEL else DOMAIN) + f.domain
  }

  /** Its routers are written like those of a deployment without aliases whose prefix is the front's name. */
  function AsDeployed(f: Front): Deployed {
    Deployed(f.project, NameOf(f), f.needsAuth, f.bypass, [])
  }

  function FrontWrites(f: Front, bases: seq<string>): seq<Emission> {
    Group(NameOf(f), HostsForPrefix(f.domain, bases), AsDeployed(f))
  }

  function PutFronts(m: Routers, fs: seq<Front>, bases: seq<string>): Routers
    decreases |fs|
  {
    if fs == [] then m else PutFronts(PutAll(m, FrontWrites(fs[0], bases)), fs[1..], bases)
  }

  function FrontServices(services: Services, fs: seq<Front>, url: string): Services
    decreases |fs|
  {
    if fs == [] then services else FrontServices(services[NameOf(fs[0]) := Backend(None, url)], fs[1..], url)
  }

  /** The placeholders that are written: those whose prefix and tunnel have no router yet. */
  function Placed(m: Routers, ps: seq<Front>, bases: seq<string>): seq<Front>
    decreases |ps|
  {
    if ps == [] then []
    else if ps[0].domain in m || TUNNEL + ps[0].domain in m then Placed(m, ps[1..], bases)
    else [ps[0]] + Placed(PutAll(m, FrontWrites(ps[0], bases)), ps[1..], bases)
  }

  lemma {:induction false} PutAllAppend(m: Routers, a: seq<Emission>, b: seq<Emission>)
    ensures PutAll(m, a + b) == PutAll(PutAll(m, a), b)
    decreases |a|
  {
    if a == [] {
      assert a + b == b;
    } else {
      PutAllAppend(m[a[0].name := a[0].router], a[1..], b);
      assert (a + b)[1..] == a[1..] + b;
    }
  }

  lemma PutAllCons(m: Routers, e: Emission, rest: seq<Emission>)
    ensures PutAll(m, [e] + rest) == PutAll(m[e.name := e.router], rest)
  {
    assert ([e] + rest)[1..] == rest;
  }

  // ---------------------------------------------------------------- building the configuration

  class Builder {
    var routers: Routers
    var services: Services
    var auths: map<string, nat>

    constructor (authServiceUrl: string)
      ensures routers == map[] && auths == map[] && services == FirstServices(authServiceUrl)
    {
      routers, auths, services := map[], map[], FirstServices(authServiceUrl);
    }

    method AddBypassRouters(name: string, hosts: seq<string>, tls: Option<Tls>, bypassPaths: string, owner: nat)
      modifies this`routers
      ensures routers == PutAll(old(routers), BypassFrom(name, hosts, tls, Split(bypassPaths, '\n'), 0, owner))
    {
      var lines := Split(bypassPaths, '\n');
      hide BypassRouter, Split, Digits, Trim;
      ghost var all := BypassFrom(name, hosts, tls, lines, 0, owner);
      for i := 0 to |lines|
        invariant PutAll(old(routers), all) == PutAll(routers, BypassFrom(name, hosts, tls, lines, i, owner))
      {
        var path := Trim(lines[i]);
        ghost var rest := BypassFrom(name, hosts, tls, lines, i + 1, owner);
        assert [] + rest == rest;
        if path != "" {
          PutAllCons(routers, Emission(name + "-bypass-" + Digits(i), BypassRouter(name, hosts, tls, path), owner), rest);
          routers := routers[name + "-bypass-" + Digits(i) := BypassRouter(name, hosts, tls, path)];
        }
      }
    }

    method AddDeviceFlowRouter(name: string, hosts: seq<string>, tls: Option<Tls>, owner: nat)
      modifies this`routers
      ensures routers == PutAll(old(routers), [DeviceFlow(name, hosts, tls, owner)])
    {
      var e := DeviceFlow(name, hosts, tls, owner);
      routers := routers[e.name := e.router];
      assert [e][1..] == [];
    }

    /** One deployment: default hosts first, then its aliases with the same backend and chain. */
    method AddDeployment(d: Deployed, bases: seq<string>, backendUrl: string)
      modifies this
      ensures routers == PutAll(old(routers), Emit(d, bases))
      ensures services == old(services)[d.prefix := Backend(Some(d.project), backendUrl)]
      ensures auths == if d.needsAuth then old(auths)[d.prefix + AUTH := d.project] else old(auths)
    {
      var hosts := HostsForPrefix(d.prefix, bases);
      if d.needsAuth {
        auths := auths[d.prefix + AUTH := d.project];
      }
      ghost var before := routers;
      AddGroup(d.prefix, hosts, d);
      services := services[d.prefix := Backend(Some(d.project), backendUrl)];
      hide Group, DeviceFlow, Facing, Chain, Bypass;
      ghost var group, rest := Group(d.prefix, hosts, d), AliasesFrom(d, 0);
      PutAllAppend(before, group, rest);
      assert Emit(d, bases) == group + rest;
      for i := 0 to |d.aliases|
        invariant PutAll(before, Emit(d, bases)) == PutAll(routers, AliasesFrom(d, i))
        invariant services == old(services)[d.prefix := Backend(Some(d.project), backendUrl)]
        invariant auths == if d.needsAuth then old(auths)[d.prefix + AUTH := d.project] else old(auths)
      {
        PutAllAppend(routers, Group(AliasName(d, i), [d.aliases[i]], d), AliasesFrom(d, i + 1));
        AddGroup(AliasName(d, i), [d.aliases[i]], d);
      }
    }

    method AddGroup(name: string, hosts: seq<string>, d: Deployed)
      modifies this`routers
      ensures routers == PutAll(old(routers), Group(name, hosts, d))
    {
      var tls := Certified(hosts);
      ghost var flow, facing := DeviceFlow(name, hosts, tls, d.project), Facing(name, hosts, d);
      PutAllAppend(routers, Bypass(name, hosts, tls, d), [flow, facing]);
      if d.needsAuth && d.bypass != "" {
        AddBypassRouters(name, hosts, tls, d.bypass, d.project);
      }
      ghost var mid := routers;
      hide BypassFrom, DeviceFlow, Split;
      assert mid == PutAll(old(routers), Bypass(name, hosts, tls, d));
      AddDeviceFlowRouter(name, hosts, tls, d.project);
      assert [flow] + [facing] == [flow, facing];
      PutAllAppend(mid, [flow], [facing]);
      routers := routers[name := Router(MatchRule(hosts, false), [WEBSECURE], d.prefix, Chain(d), tls, 0)];
      assert [facing][1..] == [];
    }

    method AddAll(ds: seq<Deployed>, bases: seq<string>, urls: seq<string>)
      requires |urls| == |ds|
      modifies this
      ensures routers == PutAll(old(routers), EmitAll(ds, bases))
      ensures auths == AuthsOf(old(auths), ds)
      ensures services == ServicesOf(old(services), ds, urls)
    {
      hide Emit;
      for i := 0 to |ds|
        invariant AuthsOf(old(auths), ds) == AuthsOf(auths, ds[i..])
        invariant ServicesOf(old(services), ds, urls) == ServicesOf(services, ds[i..], urls[i..])
        invariant PutAll(old(routers), EmitAll(ds, bases)) == PutAll(routers, EmitAll(ds[i..], bases))
      {
        assert ds[i..][1..] == ds[i + 1..] && urls[i..][1..] == urls[i + 1..];
        PutAllAppend(routers, Emit(ds[i], bases), EmitAll(ds[i + 1..], bases));
        AddDeployment(ds[i], bases, urls[i]);
      }
    }

    method AddFront(f: Front, bases: seq<string>, url: string)
      modifies this`routers, this`services
      ensures routers == PutAll(old(routers), FrontWrites(f, bases))
      ensures services == old(services)[NameOf(f) := Backend(None, url)]
    {
      AddGroup(NameOf(f), HostsForPrefix(f.domain, bases), AsDeployed(f));
      services := services[NameOf(f) := Backend(None, url)];
    }

    /** Active tunnels, in any order. */
    method AddTunnels(ts: seq<Front>, bases: seq<string>, url: string)
      modifies this`routers, this`services
      ensures routers == PutFronts(old(routers), ts, bases)
      ensures services == FrontServices(old(services), ts, url)
    {
      hide FrontWrites, PutAll;
      for i := 0 to |ts|
        invariant PutFronts(old(routers), ts, bases) == PutFronts(routers, ts[i..], bases)
        invariant FrontServices(old(services), ts, url) == FrontServices(services, ts[i..], url)
      {
        assert ts[i..][1..] == ts[i + 1..];
        AddFront(ts[i], bases, url);
      }
    }

    /** Reserved prefixes, unless a router of that name or of its tunnel exists. */
    method AddPlaceholders(ps: seq<Front>, bases: seq<string>, url: string)
      modifies this`routers, this`services
      ensures routers == PutFronts(old(routers), Placed(old(routers), ps, bases), bases)
      ensures services == FrontServices(old(services), Placed(old(routers), ps, bases), url)
    {
      hide FrontWrites, PutAll;
      ghost var placed := Placed(old(routers), ps, bases);
      for i := 0 to |ps|
        invariant PutFronts(old(routers), placed, bases) == PutFronts(routers, Placed(routers, ps[i..], bases), bases)
        invariant FrontServices(old(services), placed, url) == FrontServices(services, Placed(routers, ps[i..], bases), url)
      {
        assert ps[i..][1..] == ps[i + 1..];
        if ps[i].domain !in routers && TUNNEL + ps[i].domain !in routers {
          ghost var rest := Placed(PutAll(routers, FrontWrites(ps[i], bases)), ps[i + 1..], bases);
          assert ([ps[i]] + rest)[1..] == rest;
          AddFront(ps[i], bases, url);
        }
      }
    }
  }
}
