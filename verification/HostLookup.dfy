/**
 * The host-to-project lookup the auth service relies on, and what changes when the platform runs on
 * several base domains.
 */
module HostLookup {
  import opened Wrappers
  import opened TextTools
  import opened HostOwnership
  import opened HostClaims

  // ---------------------------------------------------------------- lookup

  ghost function ByPrefix(db: Db, prefix: string): (found: Option<nat>)
    ensures found.Some? ==> found.value in db.projects && db.projects[found.value].prefix == prefix
    ensures found.None? ==> !PrefixTaken(db, prefix, None)
  {
    if PrefixTaken(db, prefix, None) then
      var p :| p in db.projects && db.projects[p].prefix == prefix;
      Some(p)
    else None
  }

  ghost function ByAliasHost(db: Db, host: string): (found: Option<nat>)
    ensures found.Some? ==> HasAlias(db, found.value, host)
    ensures found.None? ==> !HostAliased(db, host, None)
  {
    if HostAliased(db, host, None) then
      var a :| a in db.aliases && db.aliases[a].host == host;
      assert db.aliases[a] == Alias(db.aliases[a].project, host);
      Some(db.aliases[a].project)
    else None
  }

  /** `handleInternalProjectByHost`: default host first, then base-domain and custom aliases. */
  ghost function Lookup(db: Db, baseDomain: string, raw: string): Result<nat, Status> {
    var host, base := Norm(raw), Lower(baseDomain);
    if host == "" then Err(BadRequest)
    else
      var found :=
        if base != "" && HasSuffix(host, "." + base) then
          var p := ByPrefix(db, TrimSuffix(host, "." + base));
          if p.Some? then p else ByAliasHost(db, host)
        else if host == base then None
        else ByAliasHost(db, host);
      if found.Some? then Ok(found.value) else Err(NotFound)
  }

  lemma ClaimedHostIsText(db: Db, base: string, p: nat, host: string)
    requires Inv(db, base) && Canonical(base)
    ensures Claims(db, base, p, host) ==> host != "" && host != base
  {
    if p in db.projects {
      assert |HostOf(db.projects[p].prefix, base)| > |base|;
      forall a | a in db.aliases
        ensures db.aliases[a].host != "" && db.aliases[a].host != base
      {
        AcceptedIsText(db.aliases[a].host, base);
      }
      hide AliasAccepted, Norm, HostOf;
    }
  }

  lemma AcceptedIsText(host: string, base: string)
    requires Norm(host) == host && AliasAccepted(host, base) && Canonical(base)
    ensures host != "" && host != base
  {
    hide Norm, Split, BaseSubPrefix;
  }

  /** What the lookup can see of a claim: without a base domain only aliases. */
  predicate Findable(db: Db, base: string, p: nat, host: string) {
    Claims(db, base, p, host) && (base != "" || HasAlias(db, p, host))
  }

  lemma LookupFindsOnlyClaimants(db: Db, base: string, raw: string)
    requires Inv(db, base) && Canonical(base)
    ensures Lookup(db, base, raw).Ok? ==> Findable(db, base, Lookup(db, base, raw).value, Norm(raw))
  {
    var host := Norm(raw);
    CanonicalIsLower(base);
    SuffixBack(host, "." + base);
    assert TrimSuffix(host, "." + base) + ("." + base) == HostOf(TrimSuffix(host, "." + base), base);
    hide AliasAccepted, Norm, HasSuffix, TrimSuffix, HostOf, PrefixesOk, Agree;
  }

  lemma LookupMissesNoClaim(db: Db, base: string, raw: string, p: nat)
    requires Inv(db, base) && Canonical(base) && Findable(db, base, p, Norm(raw))
    ensures Lookup(db, base, raw).Ok?
  {
    var host := Norm(raw);
    ClaimedHostIsText(db, base, p, host);
    CanonicalIsLower(base);
    if base != "" && host == HostOf(db.projects[p].prefix, base) {
      SuffixCut(db.projects[p].prefix, "." + base);
      assert host == db.projects[p].prefix + ("." + base);
      assert PrefixTaken(db, TrimSuffix(host, "." + base), None);
    } else {
      var a :| a in db.aliases && db.aliases[a] == Alias(p, host);
      assert HostAliased(db, host, None);
    }
    hide AliasAccepted, Norm, HasSuffix, TrimSuffix, HostOf, PrefixesOk, Agree, PrefixTaken, HostAliased;
  }

  /**
   * The lookup answers with a project exactly when that project claims the host, where without a base
   * domain only claims by alias are seen.
   */
  lemma LookupIffClaims(db: Db, base: string, raw: string, p: nat)
    requires Inv(db, base) && Canonical(base)
    ensures Lookup(db, base, raw) == Ok(p) <==> Findable(db, base, p, Norm(raw))
  {
    LookupFindsOnlyClaimants(db, base, raw);
    hide Lookup, Claims, Norm, Inv;
    if Findable(db, base, p, Norm(raw)) {
      LookupMissesNoClaim(db, base, raw, p);
      OneOwner(db, base, p, Lookup(db, base, raw).value, Norm(raw));
    }
  }

  /** Lookup and claims agree on every host. */
  ghost predicate LookupAgrees(db: Db, base: string) {
    forall raw, p: nat :: Lookup(db, base, raw) == Ok(p) <==> Claims(db, base, p, Norm(raw))
  }

  lemma DefaultHostIsNormal(prefix: string)
    requires IsLabel(prefix)
    ensures Norm(HostOf(prefix, "")) == HostOf(prefix, "")
  {
    var host := HostOf(prefix, "");
    TrimmedStays(host);
    forall i | 0 <= i < |host|
      ensures LowerChar(host[i]) == host[i]
    {
      if i < |prefix| {
        assert host[i] == prefix[i] && prefix[i] in prefix;
      }
    }
    assert Lower(host) == host;
  }

  lemma LookupOnEmptyBase(db: Db, raw: string)
    ensures Lookup(db, "", raw).Ok? ==> HostAliased(db, Norm(raw), None)
  {
    assert Lower("") == "";
    hide Norm;
  }

  /** Without a base domain the default hosts are claimed but never found. */
  lemma EmptyBaseLosesDefaultHosts(db: Db, p: nat)
    requires Inv(db, "") && p in db.projects
    ensures !LookupAgrees(db, "")
  {
    var host := HostOf(db.projects[p].prefix, "");
    DefaultHostIsNormal(db.projects[p].prefix);
    LookupOnEmptyBase(db, host);
    assert Claims(db, "", p, Norm(host));
    forall a | a in db.aliases
      ensures db.aliases[a].host != host
    {
      NoAliasOnEmptyBase(db.aliases[a].host, db.projects[p].prefix, "");
    }
    hide Norm, AliasAccepted, Inv, Claims, HasAlias, Lookup;
    assert Lookup(db, "", host) != Ok(p);
  }

  lemma LookupAgreesIffBaseSet(db: Db, base: string)
    requires Inv(db, base) && Canonical(base)
    ensures LookupAgrees(db, base) <==> base != "" || db.projects == map[]
  {
    hide Lookup, Claims, Norm, AliasAccepted;
    if base != "" {
      forall raw, p: nat
        ensures Lookup(db, base, raw) == Ok(p) <==> Claims(db, base, p, Norm(raw))
      {
        LookupIffClaims(db, base, raw, p);
      }
    } else if db.projects == map[] {
      forall raw, p: nat
        ensures Lookup(db, base, raw) != Ok(p) && !Claims(db, base, p, Norm(raw))
      {
        LookupFindsOnlyClaimants(db, base, raw);
        NobodyClaims(db, base, p, Norm(raw));
        if Lookup(db, base, raw).Ok? {
          NobodyClaims(db, base, Lookup(db, base, raw).value, Norm(raw));
        }
      }
    } else {
      var p :| p in db.projects;
      EmptyBaseLosesDefaultHosts(db, p);
    }
  }

  lemma NobodyClaims(db: Db, base: string, p: nat, host: string)
    ensures p !in db.projects ==> !Claims(db, base, p, host)
  {
  }

  // ---------------------------------------------------------------- several base domains

  /** What a project answers for when its prefix is served under every configured base. */
  predicate ClaimsUnder(db: Db, bases: seq<string>, p: nat, host: string) {
    p in db.projects && ((exists b | b in bases :: host == HostOf(db.projects[p].prefix, b)) || HasAlias(db, p, host))
  }

  ghost predicate OneOwnerUnder(db: Db, bases: seq<string>) {
    forall p, q, host | ClaimsUnder(db, bases, p, host) && ClaimsUnder(db, bases, q, host) :: p == q
  }

  /** No alias is another project's default host under any base. */
  predicate AgreeUnder(db: Db, bases: seq<string>) {
    forall b | b in bases :: Agree(db, b)
  }

  /** The first dot ends the label, whatever base follows. */
  lemma FirstLabel(p: string, q: string, a: string, b: string)
    requires '.' !in p && '.' !in q && HostOf(p, a) == HostOf(q, b)
    ensures p == q
  {
    FirstDot(p, a);
    FirstDot(q, b);
    var host := HostOf(p, a);
    assert |p| == |q|;
    assert host[..|p|] == p && host[..|q|] == q;
  }

  lemma FirstDot(p: string, base: string)
    requires '.' !in p
    ensures var host := HostOf(p, base); host[|p|] == '.' && forall i | 0 <= i < |p| :: host[i] != '.'
  {
    forall i | 0 <= i < |p|
      ensures HostOf(p, base)[i] != '.'
    {
      assert HostOf(p, base)[i] == p[i] && p[i] in p;
    }
  }

  /**
   * The handlers check aliases against the canonical base only. Under several bases one owner per
   * host survives if and only if no alias is another project's default host under an extra base.
   */
  lemma OneOwnerUnderIff(db: Db, base: string, bases: seq<string>)
    requires Inv(db, base)
    ensures OneOwnerUnder(db, bases) <==> AgreeUnder(db, bases)
  {
    if AgreeUnder(db, bases) {
      forall p, q, host | ClaimsUnder(db, bases, p, host) && ClaimsUnder(db, bases, q, host)
        ensures p == q
      {
        OneOwnerOfHost(db, base, bases, p, q, host);
      }
    }
    if OneOwnerUnder(db, bases) {
      forall b, a, p | b in bases && a in db.aliases && p in db.projects && db.aliases[a].host == HostOf(db.projects[p].prefix, b)
        ensures db.aliases[a].project == p
      {
        assert HasAlias(db, db.aliases[a].project, db.aliases[a].host);
        assert ClaimsUnder(db, bases, p, db.aliases[a].host);
        assert ClaimsUnder(db, bases, db.aliases[a].project, db.aliases[a].host);
      }
    }
  }

  lemma OneOwnerOfHost(db: Db, base: string, bases: seq<string>, p: nat, q: nat, host: string)
    requires Inv(db, base) && AgreeUnder(db, bases)
    requires ClaimsUnder(db, bases, p, host) && ClaimsUnder(db, bases, q, host)
    ensures p == q
  {
    var pp, qp := db.projects[p].prefix, db.projects[q].prefix;
    LabelHasNoDot(pp);
    LabelHasNoDot(qp);
    hide AliasAccepted, Norm, IsLabel;
    if a :| a in bases && host == HostOf(pp, a) {
      if b :| b in bases && host == HostOf(qp, b) {
        FirstLabel(pp, qp, a, b);
      }
      if HasAlias(db, q, host) {
        assert Agree(db, a);
      }
    }
    if HasAlias(db, p, host) {
      if b :| b in bases && host == HostOf(qp, b) {
        assert Agree(db, b);
      }
    }
  }

  // ---------------------------------------------------------------- which requests break it

  /**
   * What no handler checks: the host a request would give meets, under some base, an alias or the
   * default host of another project.
   */
  ghost predicate Meets(db: Db, bases: seq<string>, r: Request) {
    match r
    case CreateProject(id, _, kind, name, prefix, fieldsOk) =>
      var p := Checked(name, fieldsOk, kind, prefix);
      p.Some? && exists b | b in bases :: HostAliased(db, HostOf(p.value, b), Some(id))
    case UpdateProject(id, _, _, _, _) =>
      id in db.projects &&
      var p := Updated(db.projects[id], r);
      p.Some? && exists b | b in bases :: HostAliased(db, HostOf(p.value.prefix, b), Some(id))
    case CreateAlias(_, project, _, _, host) =>
      exists b, q | b in bases && q in db.projects :: q != project && Norm(host) == HostOf(db.projects[q].prefix, b)
    case ChangeOwner(_, _, _) => false
    case DeleteProject(_) => false
    case DeleteAlias(_, _, _, _) => false
  }

  lemma RefusedChangesNothing(db: Db, base: string, r: Request)
    ensures Step(db, base, r).1 != Done ==> Step(db, base, r).0 == db
  {
    hide Checked, PrefixTaken, HostAliased, NameTaken, AliasAccepted, BaseSubPrefix, Norm, HostOf, MayManage;
  }

  lemma PutProjectAgrees(db: Db, bases: seq<string>, id: nat, p: Project)
    requires AgreeUnder(db, bases)
    ensures AgreeUnder(db.(projects := db.projects[id := p]), bases) <==>
            forall b | b in bases :: !HostAliased(db, HostOf(p.prefix, b), Some(id))
  {
    hide HostOf;
    var after := db.(projects := db.projects[id := p]);
    if AgreeUnder(after, bases) {
      forall b, a | b in bases && a in db.aliases && db.aliases[a].host == HostOf(p.prefix, b)
        ensures db.aliases[a].project == id
      {
        assert Agree(after, b);
        assert id in after.projects && after.projects[id].prefix == p.prefix;
      }
    }
    if forall b | b in bases :: !HostAliased(db, HostOf(p.prefix, b), Some(id)) {
      forall b | b in bases
        ensures Agree(after, b)
      {
        assert Agree(db, b);
      }
    }
  }

  lemma PutAliasAgrees(db: Db, bases: seq<string>, id: nat, x: Alias)
    requires AgreeUnder(db, bases) && id !in db.aliases
    ensures AgreeUnder(db.(aliases := db.aliases[id := x]), bases) <==>
            forall b, q | b in bases && q in db.projects :: q != x.project ==> x.host != HostOf(db.projects[q].prefix, b)
  {
    hide HostOf;
    var after := db.(aliases := db.aliases[id := x]);
    if AgreeUnder(after, bases) {
      forall b, q | b in bases && q in db.projects && q != x.project
        ensures x.host != HostOf(db.projects[q].prefix, b)
      {
        assert Agree(after, b);
        assert after.aliases[id] == x;
      }
    }
    if forall b, q | b in bases && q in db.projects :: q != x.project ==> x.host != HostOf(db.projects[q].prefix, b) {
      forall b | b in bases
        ensures Agree(after, b)
      {
        assert Agree(db, b);
      }
    }
  }

  /** Taking rows away, or changing nothing but owners, breaks no agreement. */
  lemma ShrinkAgrees(db: Db, after: Db, bases: seq<string>)
    requires AgreeUnder(db, bases)
    requires forall p | p in after.projects :: p in db.projects && after.projects[p].prefix == db.projects[p].prefix
    requires forall a | a in after.aliases :: a in db.aliases && after.aliases[a] == db.aliases[a]
    ensures AgreeUnder(after, bases)
  {
    hide HostOf;
    forall b | b in bases
      ensures Agree(after, b)
    {
      assert Agree(db, b);
    }
  }

  lemma DoneAgreesIff(db: Db, base: string, bases: seq<string>, r: Request)
    requires AgreeUnder(db, bases) && Step(db, base, r).1 == Done
    ensures AgreeUnder(Step(db, base, r).0, bases) <==> !Meets(db, bases, r)
  {
    var after := Step(db, base, r).0;
    hide AgreeUnder, HostAliased, HostOf, PrefixTaken, NameTaken, AliasAccepted, BaseSubPrefix, Norm, MayManage, Checked;
    if r.CreateProject? {
      PutProjectAgrees(db, bases, r.id, after.projects[r.id]);
    } else if r.UpdateProject? {
      PutProjectAgrees(db, bases, r.id, after.projects[r.id]);
    } else if r.CreateAlias? {
      PutAliasAgrees(db, bases, r.aliasId, Alias(r.project, Norm(r.host)));
    } else {
      ShrinkAgrees(db, after, bases);
    }
  }

  /**
   * Request by request: while hosts have one owner under all bases, a request keeps it so if and only if
   * it is refused or meets no other project's alias or default host under any base.
   */
  lemma OwnersStayIff(db: Db, base: string, bases: seq<string>, r: Request)
    requires Inv(db, base) && Canonical(base) && OneOwnerUnder(db, bases)
    ensures OneOwnerUnder(Step(db, base, r).0, bases) <==> Step(db, base, r).1 != Done || !Meets(db, bases, r)
  {
    hide Inv, AgreeUnder, OneOwnerUnder, Step, Meets, Canonical;
    OneOwnerUnderIff(db, base, bases);
    if Step(db, base, r).1 == Done {
      DoneAgreesIff(db, base, bases, r);
      StepKeepsInv(db, base, r);
      OneOwnerUnderIff(Step(db, base, r).0, base, bases);
    } else {
      RefusedChangesNothing(db, base, r);
    }
  }

  /** A project called `p`, and an alias of project `q` that is its host under an extra base. */
  function ClashRequests(extra: string): seq<Request> {
    [CreateProject(1, 0, Deployment, "p", "", true),
     CreateProject(2, 0, Deployment, "q", "", true),
     CreateAlias(7, 2, 0, false, HostOf("p", extra))]
  }

  /** Three accepted requests reach a state where a host has two owners. */
  lemma ExtraBaseClash(base: string, extra: string, bases: seq<string>)
    requires extra in bases && CustomDomain(HostOf("p", extra), base)
    ensures !OneOwnerUnder(Run(Db(map[], map[]), base, ClashRequests(extra)), bases)
  {
    var none, host, rs := Db(map[], map[]), HostOf("p", extra), ClashRequests(extra);
    var one := none.(projects := map[1 := Project("p", 0, Deployment, "p")]);
    var two := none.(projects := one.projects[2 := Project("q", 0, Deployment, "q")]);
    var three := two.(aliases := map[7 := Alias(2, host)]);
    TrimmedStays("p");
    TrimmedStays("q");
    CreateStores(none, base, 1, "p");
    CreateStores(one, base, 2, "q");
    AliasStores(two, base, 7, 2, host);
    RunOfThree(none, base, rs[0], rs[1], rs[2]);
    assert Run(none, base, rs) == three by {
      hide Step, HostOf, Run;
    }
    hide Run, Step, HostOf, CustomDomain;
    assert three.aliases[7] == Alias(2, host);
    assert HasAlias(three, 2, host);
    assert ClaimsUnder(three, bases, 1, host) && ClaimsUnder(three, bases, 2, host);
  }

  const CLASH := "p.c.d"

  lemma ClashLabels()
    ensures Split(CLASH, '.') == ["p", "c", "d"] && HostOf("p", "c.d") == CLASH
  {
    assert HostOf("p", "c.d") == CLASH;
    SplitFirst("p", '.', "c.d");
    SplitFirst("c", '.', "d");
    SplitPlain("d", '.');
    hide Split;
    assert "p" + (['.'] + "c.d") == CLASH && "c" + (['.'] + "d") == "c.d";
    assert ["p"] + (["c"] + ["d"]) == ["p", "c", "d"];
  }

  lemma ClashIsNormal()
    ensures Norm(CLASH) == CLASH && Norm("a.b") == "a.b"
  {
    TrimmedStays(CLASH);
    TrimmedStays("a.b");
    hide Trim;
    assert Lower(CLASH) == CLASH && Lower("a.b") == "a.b";
  }

  lemma ClashIsCustom()
    ensures CustomDomain(CLASH, "a.b")
  {
    ClashLabels();
    ClashIsNormal();
    hide Norm, Split, HostOf;
    assert CLASH[1..] == ".c.d";
  }

  /** For instance the base `a.b` with `c.d` besides it, and the alias `p.c.d`. */
  lemma ExtraBaseClashExists()
    ensures !OneOwnerUnder(Run(Db(map[], map[]), "a.b", ClashRequests("c.d")), ["a.b", "c.d"])
  {
    ClashIsCustom();
    ClashLabels();
    hide Run, OneOwnerUnder, Split, CustomDomain, HostOf, ClashRequests;
    ExtraBaseClash("a.b", "c.d", ["a.b", "c.d"]);
  }
}
