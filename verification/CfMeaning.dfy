/**
 * What the Cloudflare Tunnel rewrite preserves: which service, middleware chain, path rule and
 * priority a request for a host reaches, and that every named service stays defined.
 */
module CfMeaning {
  import opened Wrappers
  import opened HostRules
  import opened CfTunnel

  const PANEL := "panel"
  const PANEL_OAUTH := "panel-oauth"
  const PANEL_SERVICE := "muvee@docker"
  const DEVICE_SERVICE := "muvee-authservice-device"

  /** Everything that decides what happens to a request once its host matched. */
  datatype Target = Target(service: string, middlewares: seq<string>, pathRule: string, priority: int)

  function TargetOf(r: Router): Target {
    Target(r.service, r.middlewares, PathOf(r), r.priority)
  }

  /** The rule holds the host's token somewhere, whether or not the rewrite can take the rule apart. */
  predicate Mentions(r: Router, host: string) {
    host in Hosts(r.rule)
  }

  /** The rewrite leaves a rule alone that is not the print of its hosts followed by something else. */
  predicate Foreign(r: Router) {
    SplitRule(r.rule, false).None?
  }

  lemma MentionsIs(r: Router, host: string)
    ensures !Foreign(r) ==> (Mentions(r, host) <==> host in HostsOf(r))
    ensures Foreign(r) ==> HostsOf(r) == []
  {
    hide Hosts, MatchRule;
  }

  predicate Serves(r: Router, entryPoint: string, host: string) {
    entryPoint in r.entryPoints && Mentions(r, host)
  }

  /** The routers that compete for `host` on an entrypoint, with what each one leads to. */
  function Matching(m: Routers, entryPoint: string, host: string): map<string, Target> {
    map n | n in m && Serves(m[n], entryPoint, host) :: TargetOf(m[n])
  }

  /** Generated routers live on the public entrypoints only. */
  predicate NoneOnTunnel(m: Routers) {
    forall n | n in m :: CF_ENTRYPOINT !in m[n].entryPoints
  }

  // ---------------------------------------------------------------- one router

  lemma SiblingServes(r: Router, isTunnel: HostTest, entryPoint: string, host: string)
    requires Moves(r, isTunnel)
    ensures
      var s := Sibling(r, isTunnel);
      && (Serves(s, entryPoint, host) <==> entryPoint == CF_ENTRYPOINT && isTunnel(host) && host in HostsOf(r))
      && TargetOf(s) == TargetOf(r) && s.tls == None
  {
    SiblingSplits(r, isTunnel);
    FilterFacts(HostsOf(r), isTunnel);
    MentionsIs(Sibling(r, isTunnel), host);
    hide Moves, Filter, SplitRule, MatchRule, Mentions;
  }

  lemma RemainderServes(r: Router, isTunnel: HostTest, entryPoint: string, host: string)
    ensures
      var s := Remainder(r, isTunnel);
      && (s.Some? && Serves(s.value, entryPoint, host) <==>
            Serves(r, entryPoint, host) && (isTunnel(host) ==> Foreign(r)))
      && (s.Some? ==> TargetOf(s.value) == TargetOf(r) && s.value.entryPoints == r.entryPoints)
  {
    FilterFacts(HostsOf(r), isTunnel);
    FilterFacts(HostsOf(r), h => !isTunnel(h));
    MentionsIs(r, host);
    if Moves(r, isTunnel) && Remainder(r, isTunnel).Some? {
      RemainderSplits(r, isTunnel);
      MentionsIs(Remainder(r, isTunnel).value, host);
    }
    hide Filter, SplitRule, MatchRule, Mentions;
  }

  /** The certificate list of what remains is exactly the hosts that remain. */
  lemma RemainderCertificates(r: Router, isTunnel: HostTest)
    requires Moves(r, isTunnel) && Remainder(r, isTunnel).Some?
    ensures
      var s := Remainder(r, isTunnel).value;
      && (s.tls.Some? <==> r.tls.Some?)
      && (s.tls.Some? ==> s.tls.value.certResolver == r.tls.value.certResolver && s.tls.value.domains == HostsOf(s))
      && forall h | h in HostsOf(s) :: !isTunnel(h)
  {
    RemainderSplits(r, isTunnel);
    FilterFacts(HostsOf(r), h => !isTunnel(h));
    hide Filter, SplitRule, MatchRule;
  }

  // ---------------------------------------------------------------- the whole map

  lemma RewriteAt(m: Routers, k: string, isTunnel: HostTest)
    requires NoClash(m, isTunnel)
    ensures
      var b := BaseName(k);
      At(RewriteAll(m, isTunnel), k) ==
      if b.Some? && b.value in m && Moves(m[b.value], isTunnel) then Some(Sibling(m[b.value], isTunnel))
      else if k in m then Remainder(m[k], isTunnel)
      else None
    ensures
      var b := BaseName(k);
      b.Some? && b.value in m && Moves(m[b.value], isTunnel) ==> k !in m
  {
    AfterIsAfterAt(m, m.Keys, k, isTunnel);
    SiblingOfBaseName(k);
  }

  /** A router with a foreign rule, or one that names no tunnel host, stays exactly as it was. */
  lemma UnmovedRoutersStay(m: Routers, n: string, isTunnel: HostTest)
    requires NoClash(m, isTunnel) && n in m
    ensures
      var out := RewriteAll(m, isTunnel);
      n in out && out[n] == m[n] <==> SplitRule(m[n].rule, false).None? || (forall h | h in HostsOf(m[n]) :: !isTunnel(h))
  {
    RewriteAt(m, n, isTunnel);
    NothingMoves(m[n], isTunnel);
    FilterFacts(HostsOf(m[n]), isTunnel);
    FilterFacts(HostsOf(m[n]), h => !isTunnel(h));
    var r := Remainder(m[n], isTunnel);
    if Moves(m[n], isTunnel) && r.Some? {
      RemainderSplits(m[n], isTunnel);
      assert HostsOf(r.value) != HostsOf(m[n]);
    }
    hide RewriteAll, NoClash, SplitRule, MatchRule, Filter, BaseName;
  }

  /** Public hosts: every entrypoint offers the same routers leading to the same targets as before. */
  lemma PublicHostsUnchanged(m: Routers, isTunnel: HostTest, entryPoint: string, host: string)
    requires NoClash(m, isTunnel) && NoneOnTunnel(m) && !isTunnel(host)
    ensures Matching(RewriteAll(m, isTunnel), entryPoint, host) == Matching(m, entryPoint, host)
  {
    var out := RewriteAll(m, isTunnel);
    var before, after := Matching(m, entryPoint, host), Matching(out, entryPoint, host);
    hide RewriteAll, NoClash, Remainder, Sibling, Moves;
    forall k
      ensures k in after <==> k in before
      ensures k in after ==> after[k] == before[k]
    {
      RewriteAt(m, k, isTunnel);
      var b := BaseName(k);
      if b.Some? && b.value in m && Moves(m[b.value], isTunnel) {
        SiblingServes(m[b.value], isTunnel, entryPoint, host);
      } else if k in m {
        RemainderServes(m[k], isTunnel, entryPoint, host);
      }
    }
  }

  /** The foreign rules on an entrypoint that hold the host's token. */
  function Stuck(m: Routers, entryPoint: string, host: string): map<string, Target> {
    map n | n in m && Foreign(m[n]) && Serves(m[n], entryPoint, host) :: TargetOf(m[n])
  }

  /**
   * Tunnel hosts leave every public entrypoint, except that foreign rules stay. So they leave it if and
   * only if no foreign rule on it holds their token.
   */
  lemma TunnelHostsLeave(m: Routers, isTunnel: HostTest, entryPoint: string, host: string)
    requires NoClash(m, isTunnel) && isTunnel(host) && entryPoint != CF_ENTRYPOINT
    ensures Matching(RewriteAll(m, isTunnel), entryPoint, host) == Stuck(m, entryPoint, host)
    ensures Matching(RewriteAll(m, isTunnel), entryPoint, host) == map[] <==>
            forall n | n in m && Foreign(m[n]) :: !Serves(m[n], entryPoint, host)
  {
    var out := RewriteAll(m, isTunnel);
    var stuck, after := Stuck(m, entryPoint, host), Matching(out, entryPoint, host);
    hide RewriteAll, NoClash, Remainder, Sibling, Serves, Foreign;
    forall k
      ensures k in after <==> k in stuck
      ensures k in after ==> after[k] == stuck[k]
    {
      RewriteAt(m, k, isTunnel);
      var b := BaseName(k);
      if b.Some? && b.value in m && Moves(m[b.value], isTunnel) {
        SiblingServes(m[b.value], isTunnel, entryPoint, host);
      } else if k in m {
        RemainderServes(m[k], isTunnel, entryPoint, host);
      }
    }
    assert after == stuck;
    assert stuck == map[] <==> forall n | n in m && Foreign(m[n]) :: !Serves(m[n], entryPoint, host) by {
      if n :| n in m && Foreign(m[n]) && Serves(m[n], entryPoint, host) {
        assert n in stuck;
      }
    }
  }

  /**
   * Tunnel hosts arrive on the tunnel entrypoint: exactly the siblings of the routers that named
   * them, each without TLS and leading where the original led.
   */
  lemma TunnelHostsArrive(m: Routers, isTunnel: HostTest, host: string, k: string)
    requires NoClash(m, isTunnel) && NoneOnTunnel(m) && isTunnel(host)
    ensures
      var after := Matching(RewriteAll(m, isTunnel), CF_ENTRYPOINT, host);
      && (k in after <==> Names(m, k, host))
      && (k in after ==> after[k] == TargetOf(m[BaseName(k).value]) && RewriteAll(m, isTunnel)[k].tls == None)
  {
    var out := RewriteAll(m, isTunnel);
    RewriteAt(m, k, isTunnel);
    var b := BaseName(k);
    if b.Some? && b.value in m {
      NamingMoves(m[b.value], isTunnel, host);
    }
    hide RewriteAll, NoClash, Remainder, Sibling, Moves;
    if b.Some? && b.value in m && Moves(m[b.value], isTunnel) {
      SiblingServes(m[b.value], isTunnel, CF_ENTRYPOINT, host);
    } else if k in m {
      RemainderServes(m[k], isTunnel, CF_ENTRYPOINT, host);
    }
  }

  lemma NamingMoves(r: Router, isTunnel: HostTest, host: string)
    requires isTunnel(host)
    ensures host in HostsOf(r) ==> Moves(r, isTunnel)
  {
    FilterFacts(HostsOf(r), isTunnel);
  }

  // ---------------------------------------------------------------- the panel routers

  /** The panel answers on each tunnel base and on its `app.` host. */
  function PanelHosts(bases: seq<string>): seq<string> {
    if bases == [] then [] else [bases[0], "app." + bases[0]] + PanelHosts(bases[1..])
  }

  function PanelRouter(bases: seq<string>): Router {
    Router(MatchRule(PanelHosts(bases), false), [CF_ENTRYPOINT], PANEL_SERVICE,
           ["strip-internal-key@file", "block-internal-api@file"], None, 0)
  }

  function PanelOauthRouter(bases: seq<string>): Router {
    Router(MatchRule(PanelHosts(bases), false) + OAUTH_PATH, [CF_ENTRYPOINT], DEVICE_SERVICE, [], None, 200)
  }

  const OAUTH_PATH := " && PathPrefix(`/_oauth`)"

  function WithPanel(m: Routers, bases: seq<string>): Routers {
    m[PANEL + SUFFIX := PanelRouter(bases)][PANEL_OAUTH + SUFFIX := PanelOauthRouter(bases)]
  }

  /** The routers an apply leaves behind. */
  function Applied(m: Routers, bases: seq<string>, isTunnel: HostTest): Routers {
    WithPanel(RewriteAll(m, isTunnel), bases)
  }

  function PanelTargets(): map<string, Target> {
    map[PANEL + SUFFIX := Target(PANEL_SERVICE, ["strip-internal-key@file", "block-internal-api@file"], "", 0),
        PANEL_OAUTH + SUFFIX := Target(DEVICE_SERVICE, [], OAUTH_PATH, 200)]
  }

  /** The panel's hosts are the bases and their `app.` hosts, nothing else. */
  lemma {:induction false} PanelHostsListed(bases: seq<string>, h: string)
    ensures h in PanelHosts(bases) <==> h in bases || (HasPrefix(h, "app.") && h[4..] in bases)
  {
    if bases != [] {
      PanelHostsListed(bases[1..], h);
      assert bases == [bases[0]] + bases[1..];
      AppHost(bases[0], h);
      hide HasPrefix;
    }
  }

  lemma AppHost(d: string, h: string)
    ensures h == "app." + d <==> HasPrefix(h, "app.") && h[4..] == d
  {
    if HasPrefix(h, "app.") && h[4..] == d {
      assert h == h[..4] + h[4..];
    }
  }

  lemma {:induction false} PanelHostsPrintable(bases: seq<string>)
    requires forall d | d in bases :: d != "" && '`' !in d
    ensures forall h | h in PanelHosts(bases) :: h != "" && '`' !in h
    ensures bases != [] ==> PanelHosts(bases) != []
  {
    if bases != [] {
      assert forall d | d in bases[1..] :: d in bases;
      PanelHostsPrintable(bases[1..]);
      assert '`' !in "app." + bases[0];
    }
  }

  lemma {:induction false} OauthPathNamesNoHost()
    ensures Hosts(OAUTH_PATH) == []
  {
    assert Hosts("") == [];
    HostsSkip(OAUTH_PATH, "");
    assert OAUTH_PATH + "" == OAUTH_PATH;
  }

  lemma PanelRuleSplits(hosts: seq<string>)
    requires Printable(hosts)
    ensures SplitRule(MatchRule(hosts, false), false) == Some((hosts, ""))
    ensures SplitRule(MatchRule(hosts, false) + OAUTH_PATH, false) == Some((hosts, OAUTH_PATH))
  {
    OauthPathNamesNoHost();
    SplitPrinted(hosts, false, OAUTH_PATH);
    SplitPrinted(hosts, false, "");
    hide MatchRule, SplitRule;
    assert MatchRule(hosts, false) + "" == MatchRule(hosts, false);
  }

  /** Both panel routers answer for exactly the panel's hosts. */
  lemma PanelServes(bases: seq<string>, entryPoint: string, host: string)
    requires bases != [] && forall d | d in bases :: d != "" && '`' !in d
    ensures
      var here := entryPoint == CF_ENTRYPOINT && host in PanelHosts(bases);
      && (Serves(PanelRouter(bases), entryPoint, host) <==> here)
      && (Serves(PanelOauthRouter(bases), entryPoint, host) <==> here)
    ensures TargetOf(PanelRouter(bases)) == PanelTargets()[PANEL + SUFFIX]
    ensures TargetOf(PanelOauthRouter(bases)) == PanelTargets()[PANEL_OAUTH + SUFFIX]
  {
    PanelHostsPrintable(bases);
    PanelRuleSplits(PanelHosts(bases));
    hide SplitRule, MatchRule, PanelHosts;
  }

  const PANEL_KEYS := {PANEL + SUFFIX, PANEL_OAUTH + SUFFIX}

  lemma MatchingPutTwo(m: Routers, p: string, rp: Router, o: string, ro: Router, entryPoint: string, host: string)
    requires p != o
    requires Serves(rp, entryPoint, host) <==> Serves(ro, entryPoint, host)
    ensures Matching(m[p := rp][o := ro], entryPoint, host) ==
            (Matching(m, entryPoint, host) - {p, o}) +
            if Serves(rp, entryPoint, host) then map[p := TargetOf(rp), o := TargetOf(ro)] else map[]
  {
    hide Serves, TargetOf;
  }

  lemma PanelTargetsMeet(bases: seq<string>)
    requires bases != [] && forall d | d in bases :: d != "" && '`' !in d
    ensures PanelTargets() ==
            map[PANEL + SUFFIX := TargetOf(PanelRouter(bases)), PANEL_OAUTH + SUFFIX := TargetOf(PanelOauthRouter(bases))]
    ensures PANEL + SUFFIX != PANEL_OAUTH + SUFFIX
  {
    PanelServes(bases, "", "");
    assert PANEL + SUFFIX != PANEL_OAUTH + SUFFIX;
  }

  /** Adding the panel replaces whatever had the two panel names and changes nothing else. */
  lemma PanelAdds(m: Routers, bases: seq<string>, entryPoint: string, host: string)
    requires bases != [] && forall d | d in bases :: d != "" && '`' !in d
    ensures Matching(WithPanel(m, bases), entryPoint, host) ==
            (Matching(m, entryPoint, host) - PANEL_KEYS) + PanelEntries(bases, entryPoint, host)
  {
    hide Serves, TargetOf, PanelRouter, PanelOauthRouter, PanelHosts, Matching, PanelTargets;
    PanelServes(bases, entryPoint, host);
    PanelTargetsMeet(bases);
    MatchingPutTwo(m, PANEL + SUFFIX, PanelRouter(bases), PANEL_OAUTH + SUFFIX, PanelOauthRouter(bases), entryPoint, host);
  }

  function PanelEntries(bases: seq<string>, entryPoint: string, host: string): map<string, Target> {
    if entryPoint == CF_ENTRYPOINT && host in PanelHosts(bases) then PanelTargets() else map[]
  }

  /** Independent of the rewrite: the tunnel routers a host should have. */
  function Siblings(m: Routers, isTunnel: HostTest, host: string): map<string, Target> {
    map k | k in SiblingNames(m) && isTunnel(host) && Names(m, k, host) :: TargetOf(m[BaseName(k).value])
  }

  function SiblingNames(m: Routers): set<string> {
    set n | n in m :: n + SUFFIX
  }

  /** `k` is the sibling name of a router that names `host`. */
  predicate Names(m: Routers, k: string, host: string) {
    var b := BaseName(k);
    b.Some? && b.value in m && host in HostsOf(m[b.value])
  }

  lemma TunnelEntryHoldsSiblings(m: Routers, isTunnel: HostTest, host: string)
    requires NoClash(m, isTunnel) && NoneOnTunnel(m)
    ensures Matching(RewriteAll(m, isTunnel), CF_ENTRYPOINT, host) == Siblings(m, isTunnel, host)
  {
    var out := Matching(RewriteAll(m, isTunnel), CF_ENTRYPOINT, host);
    hide RewriteAll, NoClash, TargetOf, HostsOf;
    if isTunnel(host) {
      forall k
        ensures k in out <==> k in Siblings(m, isTunnel, host)
        ensures k in out ==> out[k] == Siblings(m, isTunnel, host)[k]
      {
        TunnelHostsArrive(m, isTunnel, host, k);
        SiblingOfBaseName(k);
      }
    } else {
      PublicHostsUnchanged(m, isTunnel, CF_ENTRYPOINT, host);
      assert out == map[];
    }
  }

  lemma AppliedIs(m: Routers, bases: seq<string>, isTunnel: HostTest)
    ensures Applied(m, bases, isTunnel) == WithPanel(RewriteAll(m, isTunnel), bases)
  {
    hide RewriteAll, WithPanel;
  }

  lemma NoPanelOutside(bases: seq<string>, entryPoint: string, host: string)
    ensures entryPoint != CF_ENTRYPOINT ==> PanelEntries(bases, entryPoint, host) == map[]
  {
    hide PanelHosts, PanelTargets;
  }

  /**
   * The whole apply on a public entrypoint: public hosts keep the same routers leading to the same
   * targets, tunnel hosts keep the foreign rules only; routers called like the panel's go either way.
   */
  lemma ApplyOnPublicEntry(m: Routers, bases: seq<string>, isTunnel: HostTest, entryPoint: string, host: string)
    requires NoClash(m, isTunnel) && NoneOnTunnel(m)
    requires bases != [] && forall d | d in bases :: d != "" && '`' !in d
    requires entryPoint != CF_ENTRYPOINT
    ensures Matching(Applied(m, bases, isTunnel), entryPoint, host) ==
            (if isTunnel(host) then Stuck(m, entryPoint, host) else Matching(m, entryPoint, host)) - PANEL_KEYS
  {
    hide *;
    PanelAdds(RewriteAll(m, isTunnel), bases, entryPoint, host);
    AppliedIs(m, bases, isTunnel);
    NoPanelOutside(bases, entryPoint, host);
    if isTunnel(host) {
      TunnelHostsLeave(m, isTunnel, entryPoint, host);
    } else {
      PublicHostsUnchanged(m, isTunnel, entryPoint, host);
    }
  }

  /**
   * The whole apply on the tunnel entrypoint: a tunnel host reaches, without TLS, exactly the
   * targets of the routers that named it, except where the panel took the sibling's name; every panel
   * host reaches the two panel routers besides.
   */
  lemma ApplyOnTunnelEntry(m: Routers, bases: seq<string>, isTunnel: HostTest, host: string)
    requires NoClash(m, isTunnel) && NoneOnTunnel(m)
    requires bases != [] && forall d | d in bases :: d != "" && '`' !in d
    ensures Matching(Applied(m, bases, isTunnel), CF_ENTRYPOINT, host) ==
            (Siblings(m, isTunnel, host) - PANEL_KEYS) + PanelEntries(bases, CF_ENTRYPOINT, host)
  {
    hide *;
    PanelAdds(RewriteAll(m, isTunnel), bases, CF_ENTRYPOINT, host);
    TunnelEntryHoldsSiblings(m, isTunnel, host);
    AppliedIs(m, bases, isTunnel);
  }

  // ---------------------------------------------------------------- what the panel names cost

  /** The names the panel writes are the sibling names of projects called `panel` and `panel-oauth`. */
  predicate PanelTaken(m: Routers, isTunnel: HostTest) {
    || (PANEL in m && Moves(m[PANEL], isTunnel))
    || (PANEL_OAUTH in m && Moves(m[PANEL_OAUTH], isTunnel))
  }

  /** No project router forwards to the panel's own services. */
  predicate OwnServices(m: Routers) {
    && (PANEL in m ==> m[PANEL].service != PANEL_SERVICE)
    && (PANEL_OAUTH in m ==> m[PANEL_OAUTH].service != DEVICE_SERVICE)
  }

  lemma PanelOverwrites(m: Routers, bases: seq<string>, n: string, isTunnel: HostTest)
    requires NoClash(m, isTunnel) && n in m && Moves(m[n], isTunnel)
    ensures n + SUFFIX in Applied(m, bases, isTunnel)
    ensures Applied(m, bases, isTunnel)[n + SUFFIX] ==
            if n == PANEL_OAUTH then PanelOauthRouter(bases)
            else if n == PANEL then PanelRouter(bases)
            else Sibling(m[n], isTunnel)
  {
    RewriteAt(m, n + SUFFIX, isTunnel);
    BaseNameOfSibling(n);
    BaseNameOfSibling(PANEL);
    BaseNameOfSibling(PANEL_OAUTH);
    hide RewriteAll, NoClash, Remainder, Sibling, Moves, PanelRouter, PanelOauthRouter;
  }

  /** Every sibling survives the panel if and only if no moved router is called `panel` or `panel-oauth`. */
  lemma SiblingsSurviveIff(m: Routers, bases: seq<string>, isTunnel: HostTest)
    requires NoClash(m, isTunnel) && OwnServices(m)
    ensures
      var out := Applied(m, bases, isTunnel);
      (forall n | n in m && Moves(m[n], isTunnel) :: n + SUFFIX in out && out[n + SUFFIX] == Sibling(m[n], isTunnel))
      <==> !PanelTaken(m, isTunnel)
  {
    var out := Applied(m, bases, isTunnel);
    forall n | n in m && Moves(m[n], isTunnel)
      ensures n + SUFFIX in out
      ensures out[n + SUFFIX] == Sibling(m[n], isTunnel) <==> n != PANEL && n != PANEL_OAUTH
    {
      PanelOverwrites(m, bases, n, isTunnel);
    }
    hide Applied, NoClash, Moves, Sibling;
  }

  // ---------------------------------------------------------------- service references

  /** Every router names a defined service or one of another provider. */
  predicate Closed(m: Routers, services: set<string>) {
    forall n | n in m :: m[n].service in services || '@' in m[n].service
  }

  /** The rewrite never invents a service; with the panel's own backend added, references stay closed. */
  lemma ApplyKeepsReferences(m: Routers, services: set<string>, bases: seq<string>, isTunnel: HostTest)
    requires NoClash(m, isTunnel) && Closed(m, services)
    ensures Closed(Applied(m, bases, isTunnel), services + {DEVICE_SERVICE})
  {
    var mid, out := RewriteAll(m, isTunnel), Applied(m, bases, isTunnel);
    assert PANEL_SERVICE[5] == '@';
    hide RewriteAll, NoClash, Moves;
    forall k | k in out
      ensures out[k].service in services + {DEVICE_SERVICE} || '@' in out[k].service
    {
      RewriteAt(m, k, isTunnel);
      if k in mid && out[k] == mid[k] {
        var b := BaseName(k);
        if b.Some? && b.value in m && Moves(m[b.value], isTunnel) {
          assert mid[k].service == m[b.value].service;
        } else {
          RemainderServes(m[k], isTunnel, "", "");
          assert mid[k].service == m[k].service;
        }
      }
    }
  }
}
