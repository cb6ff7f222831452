/**
 * The generated routing table agrees with host ownership: every router is the write of one deployment,
 * and a router that names a host is a write for the project the host lookup returns.
 */
module TraefikOwnership {
  import opened Wrappers
  import opened TextTools
  import opened HostRules
  import opened CfTunnel
  import opened TraefikConfig
  import opened TraefikNames
  import Own = HostOwnership
  import Claims = HostClaims
  import Look = HostLookup
  import CfMeaning

  // ---------------------------------------------------------------- hosts of generated rules

  /** A default or alias host can be printed into a rule and read back. */
  predicate PlainHost(h: string) {
    h != "" && '`' !in h
  }

  lemma LabelIsPlain(s: string)
    ensures Own.IsLabel(s) ==> '`' !in s && '_' !in s
  {
  }

  lemma AcceptedIsPlain(host: string, base: string)
    requires Own.Norm(host) == host && Own.AliasAccepted(host, base)
    ensures PlainHost(host)
  {
    SplitCovers(host, '.');
    hide Own.Norm, Own.BaseSubPrefix, Split, Own.IsLabel;
    if '`' in host {
      var l :| l in Split(host, '.') && '`' in l;
      LabelIsPlain(l);
    }
  }

  /** Text after the last backtick holds no token, nor does text before it. */
  lemma {:induction false} OneTickNoHost(p: string)
    requires '`' !in p
    ensures Hosts(p + CLOSE_TOKEN) == []
    decreases |p|
  {
    var s := p + CLOSE_TOKEN;
    if p == "" {
      TickNoHost();
      assert s == CLOSE_TOKEN;
    } else {
      OneTickNoHost(p[1..]);
      assert s[1..] == p[1..] + CLOSE_TOKEN;
      NoTokenBeforeLastTick(p);
    }
  }

  lemma TickNoHost()
    ensures Hosts(CLOSE_TOKEN) == []
  {
    assert Hosts("") == [];
    HostsSkip(CLOSE_TOKEN, "");
    assert CLOSE_TOKEN + "" == CLOSE_TOKEN;
  }

  lemma NoTokenBeforeLastTick(p: string)
    requires '`' !in p && p != ""
    ensures MatchToken(p + CLOSE_TOKEN) == None
  {
    NoTokenAfter(p, false);
    NoTokenAfter(p, true);
    hide MatchAfter, HasPrefix;
  }

  lemma NoTokenAfter(p: string, sni: bool)
    requires '`' !in p
    ensures
      var s := p + CLOSE_TOKEN;
      HasPrefix(s, Opening(sni)) ==> |Opening(sni)| <= |s| && MatchAfter(s, |Opening(sni)|) == None
  {
    var s, n := p + CLOSE_TOKEN, |Opening(sni)|;
    if HasPrefix(s, Opening(sni)) {
      PrefixAgrees(s, Opening(sni), n - 1);
      assert s[n - 1] == '`';
      assert n - 1 == |p|;
      assert s[n..] == ")";
      assert Run(")") == ")";
    }
  }

  lemma TickedTextNoHost(pre: string, p: string)
    requires 'H' !in pre && '`' !in p
    ensures Hosts(pre + p + CLOSE_TOKEN) == []
  {
    OneTickNoHost(p);
    HostsSkip(pre, p + CLOSE_TOKEN);
    assert pre + p + CLOSE_TOKEN == pre + (p + CLOSE_TOKEN);
  }

  lemma PathRuleText(path: string)
    ensures " && " + PathRule(path) ==
            if HasSuffix(path, "*") then " && PathPrefix(`" + TrimSuffix(path, "*") + CLOSE_TOKEN
            else " && Path(`" + path + CLOSE_TOKEN
  {
    hide HasSuffix, TrimSuffix;
    assert " && " + "PathPrefix(`" == " && PathPrefix(`";
    assert " && " + "Path(`" == " && Path(`";
    Assoc(" && ", "PathPrefix(`", TrimSuffix(path, "*"), CLOSE_TOKEN);
    Assoc(" && ", "Path(`", path, CLOSE_TOKEN);
  }

  lemma Assoc(a: string, b: string, c: string, d: string)
    ensures a + (b + c + d) == (a + b) + c + d
  {
  }

  /** A bypass path without backticks adds no host to its rule. */
  lemma PathNamesNoHost(path: string)
    requires '`' !in path
    ensures LineHosts(path) == []
  {
    PathRuleText(path);
    assert forall c | c in TrimSuffix(path, "*") :: c in path;
    hide *;
    if HasSuffix(path, "*") {
      TickedTextNoHost(" && PathPrefix(`", TrimSuffix(path, "*"));
    } else {
      TickedTextNoHost(" && Path(`", path);
    }
  }

  /** A printed rule mentions its hosts and those of its rest; it is foreign when there are any of the latter. */
  lemma PrintedHosts(r: Router, hosts: seq<string>, rest: string)
    requires Printable(hosts) && r.rule == MatchRule(hosts, false) + rest
    ensures Hosts(r.rule) == hosts + Hosts(rest)
    ensures CfMeaning.Foreign(r) <==> Hosts(rest) != []
  {
    SplitPrinted(hosts, false, rest);
    HostsOfRule(hosts, false, rest);
    hide Hosts, MatchRule, SplitRule;
  }

  // ---------------------------------------------------------------- hosts in bypass lines

  /** The hosts whose tokens the path rule of a line holds. */
  function LineHosts(path: string): seq<string> {
    Hosts(" && " + PathRule(path))
  }

  /** A bypass line of the deployment holds the host's token. */
  predicate LineMentions(d: Deployed, h: string) {
    exists i: nat | i < |Split(d.bypass, '\n')| :: BypassLine(d, i) && h in LineHosts(BypassPath(d, i))
  }

  // ---------------------------------------------------------------- one group of routers

  /** The hosts a router mentions: first one of its group, and besides the group only those of bypass lines. */
  predicate MentionsOnly(r: Router, hosts: seq<string>, d: Deployed) {
    && Hosts(r.rule) != [] && Hosts(r.rule)[0] in hosts
    && forall h | h in Hosts(r.rule) :: h in hosts || LineMentions(d, h)
  }

  /** What every router of a group has in common. */
  predicate InGroup(e: Emission, name: string, hosts: seq<string>, d: Deployed) {
    && e.owner == d.project
    && e.router.entryPoints == [WEBSECURE]
    && MentionsOnly(e.router, hosts, d)
    && (e.router.middlewares == [] || e.router.middlewares == Chain(d))
    && e.router.service in {d.prefix, DEVICE_BACKEND, name}
  }

  lemma PrintedMentions(r: Router, hosts: seq<string>, rest: string, d: Deployed)
    requires Printable(hosts) && r.rule == MatchRule(hosts, false) + rest
    requires forall h | h in Hosts(rest) :: LineMentions(d, h)
    ensures MentionsOnly(r, hosts, d)
  {
    PrintedHosts(r, hosts, rest);
    hide LineMentions, MatchRule, Hosts;
  }

  lemma FacingInGroup(name: string, hosts: seq<string>, d: Deployed)
    requires Printable(hosts)
    ensures InGroup(Facing(name, hosts, d), name, hosts, d) && Hosts(Facing(name, hosts, d).router.rule) == hosts
  {
    var r := Facing(name, hosts, d).router;
    assert Hosts("") == [];
    assert r.rule == r.rule + "";
    PrintedHosts(r, hosts, "");
    PrintedMentions(r, hosts, "", d);
    hide Hosts, MatchRule, MentionsOnly;
  }

  lemma DeviceFlowInGroup(name: string, hosts: seq<string>, d: Deployed)
    requires Printable(hosts)
    ensures
      var e := DeviceFlow(name, hosts, Certified(hosts), d.project);
      InGroup(e, name, hosts, d) && Hosts(e.router.rule) == hosts && !CfMeaning.Foreign(e.router)
  {
    var r := DeviceFlow(name, hosts, Certified(hosts), d.project).router;
    CfMeaning.OauthPathNamesNoHost();
    PrintedHosts(r, hosts, OAUTH);
    PrintedMentions(r, hosts, OAUTH, d);
    hide Hosts, MatchRule, MentionsOnly;
  }

  lemma {:induction false} BypassInGroup(name: string, hosts: seq<string>, i: nat, d: Deployed)
    requires Printable(hosts) && d.needsAuth && d.bypass != "" && i <= |Split(d.bypass, '\n')|
    ensures forall e | e in BypassFrom(name, hosts, Certified(hosts), Split(d.bypass, '\n'), i, d.project) ::
              InGroup(e, name, hosts, d)
    decreases |Split(d.bypass, '\n')| - i
  {
    var lines := Split(d.bypass, '\n');
    if i < |lines| {
      BypassInGroup(name, hosts, i + 1, d);
      var path := Trim(lines[i]);
      var r := BypassRouter(name, hosts, Certified(hosts), path);
      if path != "" {
        assert BypassLine(d, i) && BypassPath(d, i) == path;
        PrintedMentions(r, hosts, " && " + PathRule(path), d);
      }
      hide MentionsOnly, MatchRule, Trim, PathRule, Printable, Split;
    }
  }

  lemma GroupInGroup(name: string, hosts: seq<string>, d: Deployed)
    requires Printable(hosts)
    ensures forall e | e in Group(name, hosts, d) :: InGroup(e, name, hosts, d)
  {
    FacingInGroup(name, hosts, d);
    DeviceFlowInGroup(name, hosts, d);
    if d.needsAuth && d.bypass != "" {
      BypassInGroup(name, hosts, 0, d);
    }
    hide InGroup, BypassFrom, Split, DeviceFlow, Facing;
  }

  /**
   * Precedence within a group: every router that skips the chain outranks the user-facing one, and
   * the sign-in router outranks every other, so no bypass path can shadow it.
   */
  lemma GroupPrecedence(name: string, hosts: seq<string>, d: Deployed)
    ensures
      var flow, facing := DeviceFlow(name, hosts, Certified(hosts), d.project), Facing(name, hosts, d);
      && flow in Group(name, hosts, d) && facing in Group(name, hosts, d)
      && forall e | e in Group(name, hosts, d) ::
           && (e != facing ==> e.router.priority > facing.router.priority && e.router.middlewares == [])
           && (e != flow ==> e.router.priority < flow.router.priority)
  {
    BypassPriority(name, hosts, Certified(hosts), Split(d.bypass, '\n'), 0, d.project);
    hide BypassFrom, Split, MatchRule;
  }

  lemma {:induction false} BypassPriority(
      name: string, hosts: seq<string>, tls: Option<Tls>, lines: seq<string>, i: nat, owner: nat)
    requires i <= |lines|
    ensures forall e | e in BypassFrom(name, hosts, tls, lines, i, owner) ::
              e.router.priority == 100 && e.router.middlewares == []
    decreases |lines| - i
  {
    if i < |lines| {
      BypassPriority(name, hosts, tls, lines, i + 1, owner);
    }
  }

  // ---------------------------------------------------------------- a whole deployment

  predicate PlainDeployment(d: Deployed, bases: seq<string>) {
    && HostsForPrefix(d.prefix, bases) != []
    && (forall h | h in HostsForPrefix(d.prefix, bases) :: PlainHost(h))
    && (forall h | h in d.aliases :: PlainHost(h))
  }

  /** The services routers of `d` may name: its own, the sign-in backend, or (bypass of an alias) an alias name. */
  predicate OwnService(d: Deployed, service: string) {
    || service == d.prefix || service == DEVICE_BACKEND
    || exists a: nat | a < |d.aliases| :: service == AliasName(d, a)
  }

  predicate HasHost(d: Deployed, bases: seq<string>, h: string) {
    h in HostsForPrefix(d.prefix, bases) || h in d.aliases
  }

  /**
   * A router made for `d`: its rule starts with a host of `d` and mentions besides the hosts of `d` only
   * what the bypass lines of `d` hold, it names a service of `d`, and it carries either no middleware or
   * the chain of `d`.
   */
  predicate MadeFor(e: Emission, d: Deployed, bases: seq<string>) {
    && e.owner == d.project
    && e.router.entryPoints == [WEBSECURE]
    && (e.router.middlewares == [] || e.router.middlewares == Chain(d))
    && OwnService(d, e.router.service)
    && Hosts(e.router.rule) != [] && HasHost(d, bases, Hosts(e.router.rule)[0])
    && forall h | h in Hosts(e.router.rule) :: HasHost(d, bases, h) || LineMentions(d, h)
  }

  lemma {:induction false} AliasesMadeFor(d: Deployed, i: nat, bases: seq<string>)
    requires i <= |d.aliases| && PlainDeployment(d, bases)
    ensures forall e | e in AliasesFrom(d, i) :: MadeFor(e, d, bases)
    decreases |d.aliases| - i
  {
    if i < |d.aliases| {
      AliasesMadeFor(d, i + 1, bases);
      var hosts := [d.aliases[i]];
      assert PlainHost(d.aliases[i]);
      assert Printable(hosts);
      GroupInGroup(AliasName(d, i), hosts, d);
      assert OwnService(d, AliasName(d, i));
      hide Group, AliasName, Chain, HostsForPrefix, LineMentions, Hosts;
    }
  }

  lemma EmitMadeFor(d: Deployed, bases: seq<string>)
    requires PlainDeployment(d, bases)
    ensures forall e | e in Emit(d, bases) :: MadeFor(e, d, bases)
  {
    AliasesMadeFor(d, 0, bases);
    GroupInGroup(d.prefix, HostsForPrefix(d.prefix, bases), d);
    hide Group, AliasesFrom, HostsForPrefix, LineMentions, Hosts;
  }

  /** Every write of the whole loop is a write of one deployment, made for that deployment. */
  lemma {:induction false} EmitAllMadeFor(ds: seq<Deployed>, bases: seq<string>)
    requires forall d | d in ds :: PlainDeployment(d, bases)
    ensures forall e | e in EmitAll(ds, bases) :: exists d | d in ds :: e in Emit(d, bases) && MadeFor(e, d, bases)
  {
    if ds != [] {
      EmitMadeFor(ds[0], bases);
      assert forall d | d in ds[1..] :: d in ds;
      EmitAllMadeFor(ds[1..], bases);
      hide Emit, MadeFor, PlainDeployment;
      assert ds[0] in ds;
    }
  }

  lemma {:induction false} PutAllFrom(m: Routers, es: seq<Emission>)
    ensures forall k | k in PutAll(m, es) ::
              || (k in m && PutAll(m, es)[k] == m[k])
              || exists e | e in es :: e.name == k && e.router == PutAll(m, es)[k]
    decreases |es|
  {
    if es != [] {
      PutAllFrom(m[es[0].name := es[0].router], es[1..]);
      assert forall e | e in es[1..] :: e in es;
      assert es[0] in es;
    }
  }

  // ---------------------------------------------------------------- agreement with ownership

  /** The deployment carries the rows of its project. */
  ghost predicate FromRow(db: Own.Db, d: Deployed) {
    && d.project in db.projects && db.projects[d.project].prefix == d.prefix
    && forall h :: h in d.aliases <==> Own.HasAlias(db, d.project, h)
  }

  /** Deployments read off a reachable database; deployments of one project carry the same project columns. */
  ghost predicate Generated(db: Own.Db, base: string, ds: seq<Deployed>) {
    && Own.Inv(db, base) && Own.Canonical(base) && '`' !in base
    && (forall d | d in ds :: FromRow(db, d))
    && (forall d, o | d in ds && o in ds && d.project == o.project :: d == o)
  }

  function Table(ds: seq<Deployed>, base: string): Routers {
    PutAll(map[], EmitAll(ds, [base]))
  }

  /** A prefix is served under every base domain, in their order. */
  lemma {:induction false} HostsUnderEveryBase(prefix: string, bases: seq<string>)
    ensures |HostsForPrefix(prefix, bases)| == |bases|
    ensures forall i | 0 <= i < |bases| :: HostsForPrefix(prefix, bases)[i] == Own.HostOf(prefix, bases[i])
  {
    if bases != [] {
      HostsUnderEveryBase(prefix, bases[1..]);
    }
  }

  lemma DefaultHosts(prefix: string, base: string)
    ensures HostsForPrefix(prefix, [base]) == [Own.HostOf(prefix, base)]
  {
    assert HostsForPrefix(prefix, []) == [];
  }

  lemma DefaultHostIsPlain(prefix: string, base: string)
    requires Own.IsLabel(prefix) && '`' !in base
    ensures PlainHost(Own.HostOf(prefix, base))
  {
    LabelIsPlain(prefix);
  }

  lemma DefaultHostIsNormal(prefix: string, base: string)
    requires Own.IsLabel(prefix) && Own.Canonical(base)
    ensures Own.Norm(Own.HostOf(prefix, base)) == Own.HostOf(prefix, base)
  {
    if base == "" {
      Look.DefaultHostIsNormal(prefix);
    } else {
      HostIsNormal(prefix, base);
    }
    hide Own.Norm;
  }

  lemma HostIsNormal(prefix: string, base: string)
    requires Own.IsLabel(prefix) && Own.Canonical(base) && base != ""
    ensures Own.Norm(Own.HostOf(prefix, base)) == Own.HostOf(prefix, base)
  {
    var host := Own.HostOf(prefix, base);
    Claims.CanonicalIsLower(base);
    TrimIsTrimmed(base);
    LowerKeepsTrimmed(Trim(base));
    assert Trimmed(base);
    assert host[|host| - 1] == base[|base| - 1];
    TrimmedStays(host);
    forall i | 0 <= i < |host|
      ensures LowerChar(host[i]) == host[i]
    {
      if i < |prefix| {
        assert host[i] == prefix[i] && prefix[i] in prefix;
      } else if i > |prefix| {
        assert host[i] == base[i - |prefix| - 1] == Lower(base)[i - |prefix| - 1];
      }
    }
    assert Lower(host) == host;
  }

  /** Hosts of a deployment are claimed by its project, printable and in normal form. */
  lemma DeploymentHosts(db: Own.Db, base: string, ds: seq<Deployed>, d: Deployed)
    requires Generated(db, base, ds) && d in ds
    ensures PlainDeployment(d, [base])
    ensures forall h | h in HostsForPrefix(d.prefix, [base]) || h in d.aliases ::
              Own.Norm(h) == h && Own.Claims(db, base, d.project, h)
  {
    DefaultHosts(d.prefix, base);
    DefaultHostIsPlain(d.prefix, base);
    DefaultHostIsNormal(d.prefix, base);
    forall h | h in d.aliases
      ensures PlainHost(h) && Own.Norm(h) == h && Own.Claims(db, base, d.project, h)
    {
      var a :| a in db.aliases && db.aliases[a] == Own.Alias(d.project, h);
      AcceptedIsPlain(h, base);
    }
    hide Own.Norm, Own.AliasAccepted, Own.HostOf, PlainHost, HostsForPrefix;
  }

  /**
   * Soundness: a router whose rule holds a host's token is a write of one deployment, made for it and
   * naming one of its services. Either that deployment's project claims the host and is the one the host
   * lookup returns (without a base domain the lookup knows aliases only), or the token stands in one of its
   * bypass lines.
   */
  lemma RouterBelongsToLookup(db: Own.Db, base: string, ds: seq<Deployed>, k: string, h: string)
    requires Generated(db, base, ds) && k in Table(ds, base) && h in Hosts(Table(ds, base)[k].rule)
    ensures exists d, e :: WrittenFor(ds, base, d, e, k) && (BelongsTo(db, base, h, d) || LineMentions(d, h))
  {
    TableIsWritten(db, base, ds, k);
    var d, e :| WrittenFor(ds, base, d, e, k);
    DeploymentHosts(db, base, ds, d);
    if HasHost(d, [base], h) {
      ClaimedIsFound(db, base, d, h);
    }
    hide Own.Norm, Own.Claims, Own.Inv, Table, Emit, Hosts, PlainDeployment;
    hide BelongsTo, LineMentions, HostsForPrefix, OwnService;
  }

  lemma TableIsWritten(db: Own.Db, base: string, ds: seq<Deployed>, k: string)
    requires Generated(db, base, ds) && k in Table(ds, base)
    ensures exists d, e :: WrittenFor(ds, base, d, e, k)
  {
    forall d | d in ds
      ensures PlainDeployment(d, [base])
    {
      DeploymentHosts(db, base, ds, d);
    }
    EmitAllMadeFor(ds, [base]);
    PutAllFrom(map[], EmitAll(ds, [base]));
    var e :| e in EmitAll(ds, [base]) && e.name == k && e.router == Table(ds, base)[k];
    var d :| d in ds && e in Emit(d, [base]) && MadeFor(e, d, [base]);
    hide EmitAll, Emit, PutAll, MadeFor, Generated;
    assert WrittenFor(ds, base, d, e, k);
  }

  /** Router `k` of the table is the write `e` of deployment `d`. */
  predicate WrittenFor(ds: seq<Deployed>, base: string, d: Deployed, e: Emission, k: string) {
    && d in ds && e in Emit(d, [base]) && MadeFor(e, d, [base])
    && e.name == k && k in Table(ds, base) && Table(ds, base)[k] == e.router
  }

  /** The host is claimed by the project of `d`, and found by the lookup as far as that knows it. */
  ghost predicate BelongsTo(db: Own.Db, base: string, h: string, d: Deployed) {
    && Own.Claims(db, base, d.project, h)
    && (Look.Lookup(db, base, h) == Ok(d.project) <==> base != "" || h in d.aliases)
  }

  lemma ClaimedIsFound(db: Own.Db, base: string, d: Deployed, h: string)
    requires Own.Inv(db, base) && Own.Canonical(base) && FromRow(db, d)
    requires Own.Norm(h) == h && Own.Claims(db, base, d.project, h)
    ensures BelongsTo(db, base, h, d)
  {
    Look.LookupIffClaims(db, base, h, d.project);
    hide Own.Norm, Own.Claims, Own.Inv, Look.Lookup;
  }

  // ---------------------------------------------------------------- authentication and the rewrite

  /** The ForwardAuth middleware of a project verifies against that project, however many share the table. */
  lemma {:induction false} AuthVerifiesOwner(db: Own.Db, auths: map<string, nat>, ds: seq<Deployed>, d: Deployed)
    requires Own.PrefixesOk(db)
    requires forall o | o in ds :: o.project in db.projects && db.projects[o.project].prefix == o.prefix
    requires d.project in db.projects && db.projects[d.project].prefix == d.prefix
    requires d.prefix + AUTH in auths ==> auths[d.prefix + AUTH] == d.project
    requires (d in ds && d.needsAuth) || d.prefix + AUTH in auths
    ensures d.prefix + AUTH in AuthsOf(auths, ds) && AuthsOf(auths, ds)[d.prefix + AUTH] == d.project
    decreases |ds|
  {
    hide Own.ValidPrefix;
    if ds != [] {
      var o := ds[0];
      var auths' := if o.needsAuth then auths[o.prefix + AUTH := o.project] else auths;
      AuthNameInjective(o.prefix, d.prefix);
      assert forall x | x in ds[1..] :: x in ds;
      AuthVerifiesOwner(db, auths', ds[1..], d);
    }
  }

  lemma AuthNameInjective(p: string, q: string)
    ensures p + AUTH == q + AUTH ==> p == q
  {
    assert (p + AUTH)[..|p + AUTH| - |AUTH|] == p;
    assert (q + AUTH)[..|q + AUTH| - |AUTH|] == q;
  }

  lemma {:induction false} DigitsArePlain(n: nat)
    ensures '_' !in Digits(n)
  {
    if n >= 10 {
      DigitsArePlain(n / 10);
    }
  }

  lemma {:induction false} BypassNamesPlain(
      name: string, hosts: seq<string>, tls: Option<Tls>, lines: seq<string>, i: nat, owner: nat)
    requires i <= |lines| && '_' !in name
    ensures forall e | e in BypassFrom(name, hosts, tls, lines, i, owner) :: '_' !in e.name
    decreases |lines| - i
  {
    if i < |lines| {
      BypassNamesPlain(name, hosts, tls, lines, i + 1, owner);
      DigitsArePlain(i);
      hide Digits, BypassRouter, Trim;
    }
  }

  lemma GroupNamesPlain(name: string, hosts: seq<string>, d: Deployed)
    requires '_' !in name
    ensures forall e | e in Group(name, hosts, d) :: '_' !in e.name
  {
    BypassNamesPlain(name, hosts, Certified(hosts), Split(d.bypass, '\n'), 0, d.project);
    hide BypassFrom, Split, MatchRule;
  }

  lemma {:induction false} AliasNamesPlain(d: Deployed, i: nat)
    requires i <= |d.aliases| && '_' !in d.prefix
    ensures forall e | e in AliasesFrom(d, i) :: '_' !in e.name
    decreases |d.aliases| - i
  {
    if i < |d.aliases| {
      AliasNamesPlain(d, i + 1);
      DigitsArePlain(i);
      assert '_' !in AliasName(d, i);
      GroupNamesPlain(AliasName(d, i), [d.aliases[i]], d);
      hide Group, AliasName;
    }
  }

  lemma {:induction false} NamesPlain(ds: seq<Deployed>, bases: seq<string>)
    requires forall d | d in ds :: '_' !in d.prefix
    ensures forall e | e in EmitAll(ds, bases) :: '_' !in e.name
  {
    if ds != [] {
      NamesPlain(ds[1..], bases);
      AliasNamesPlain(ds[0], 0);
      GroupNamesPlain(ds[0].prefix, HostsForPrefix(ds[0].prefix, bases), ds[0]);
      hide Group, AliasesFrom, HostsForPrefix;
    }
  }

  /** No generated name contains an underscore. */
  lemma TableNamesPlain(db: Own.Db, base: string, ds: seq<Deployed>)
    requires Generated(db, base, ds)
    ensures forall k | k in Table(ds, base) :: '_' !in k
  {
    forall d | d in ds
      ensures '_' !in d.prefix
    {
      LabelIsPlain(d.prefix);
    }
    NamesPlain(ds, [base]);
    PutAllFrom(map[], EmitAll(ds, [base]));
    hide EmitAll, PutAll;
  }

  /** The generated table meets what the Cloudflare rewrite needs: no taken sibling name, nothing on its entrypoint. */
  lemma TableSuitsRewrite(db: Own.Db, base: string, ds: seq<Deployed>, isTunnel: HostTest)
    requires Generated(db, base, ds)
    ensures NoClash(Table(ds, base), isTunnel) && CfMeaning.NoneOnTunnel(Table(ds, base))
  {
    forall d | d in ds
      ensures PlainDeployment(d, [base])
    {
      DeploymentHosts(db, base, ds, d);
    }
    TableNamesPlain(db, base, ds);
    EmitAllMadeFor(ds, [base]);
    PutAllFrom(map[], EmitAll(ds, [base]));
    hide EmitAll, PutAll, Hosts, PlainDeployment, FromRow, Own.Inv, OwnService;
    PlainNamesDoNotClash(Table(ds, base), isTunnel);
  }
}
