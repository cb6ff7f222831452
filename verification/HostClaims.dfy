/** No two projects ever claim a host, and the host lookup finds exactly the claimant. */
module HostClaims {
  import opened Wrappers
  import opened TextTools
  import opened HostOwnership

  // ---------------------------------------------------------------- host texts

  lemma NormAgain(s: string)
    ensures Norm(Norm(s)) == Norm(s)
  {
    TrimIsTrimmed(s);
    LowerKeepsTrimmed(Trim(s));
    TrimmedStays(Norm(s));
    LowerAgain(Trim(s));
  }

  lemma CanonicalIsLower(base: string)
    requires Canonical(base)
    ensures Lower(base) == base
  {
    LowerAgain(Trim(base));
  }

  lemma HostOfInjective(p: string, q: string, base: string)
    ensures HostOf(p, base) == HostOf(q, base) ==> p == q
  {
    assert HostOf(p, base)[..|p|] == p;
    assert HostOf(q, base)[..|q|] == q;
    assert |HostOf(p, base)| == |p| + 1 + |base|;
    assert |HostOf(q, base)| == |q| + 1 + |base|;
  }

  lemma LabelHasNoDot(s: string)
    ensures IsLabel(s) ==> '.' !in s && s != ""
  {
  }

  /** A default host is recognised by its label; anything recognised is that label's default host. */
  lemma SubPrefixIff(host: string, base: string, label_: string)
    requires Canonical(base) && base != "" && Norm(host) == host
    ensures IsLabel(label_) && host == HostOf(label_, base) ==> BaseSubPrefix(host, base) == Some(label_)
    ensures BaseSubPrefix(host, base) == Some(label_) ==> host == HostOf(label_, base)
  {
    LabelHasNoDot(label_);
    SuffixCut(label_, "." + base);
    SuffixBack(host, "." + base);
    assert label_ + ("." + base) == HostOf(label_, base);
    assert TrimSuffix(host, "." + base) + ("." + base) == HostOf(TrimSuffix(host, "." + base), base);
    hide HasSuffix, TrimSuffix, IsLabel;
  }

  /** Without a base domain a default host ends in a dot, which no alias does. */
  lemma NoAliasOnEmptyBase(host: string, prefix: string, base: string)
    requires Norm(host) == host && AliasAccepted(host, base)
    ensures host == HostOf(prefix, "") ==> base != ""
  {
    assert HostOf(prefix, "")[|HostOf(prefix, "")| - 1] == '.';
    hide Split, BaseSubPrefix, ShortLabel;
  }

  /** The alias check guards the default host of a prefix, with or without a base domain. */
  lemma CheckedHostIsFree(db: Db, base: string, prefix: string, except: Option<nat>)
    requires AliasesOk(db, base) && Canonical(base)
    ensures (base != "" && HostAliased(db, HostOf(prefix, Lower(base)), except)) <==>
            HostAliased(db, HostOf(prefix, base), except)
  {
    CanonicalIsLower(base);
    if base == "" {
      forall a | a in db.aliases
        ensures db.aliases[a].host != HostOf(prefix, base)
      {
        NoAliasOnEmptyBase(db.aliases[a].host, prefix, base);
      }
    }
    hide AliasAccepted, Norm;
  }

  // ---------------------------------------------------------------- claims

  /** Someone other than `except` claims the host. */
  ghost predicate Claimed(db: Db, base: string, host: string, except: Option<nat>) {
    exists q: nat :: Some(q) != except && Claims(db, base, q, host)
  }

  lemma ClaimedByAlias(db: Db, base: string, host: string, except: Option<nat>)
    requires AliasesOk(db, base)
    ensures HostAliased(db, host, except) <==> exists q: nat :: q in db.projects && Some(q) != except && HasAlias(db, q, host)
  {
    hide AliasAccepted, Norm;
    if HostAliased(db, host, except) {
      var a :| a in db.aliases && Some(db.aliases[a].project) != except && db.aliases[a].host == host;
      assert HasAlias(db, db.aliases[a].project, host);
    }
    if q: nat :| q in db.projects && Some(q) != except && HasAlias(db, q, host) {
      var a :| a in db.aliases && db.aliases[a] == Alias(q, host);
      assert HostAliased(db, host, except);
    }
  }

  /** A default host is claimed exactly when its prefix is taken or an alias took it. */
  lemma ClaimedDefaultHost(db: Db, base: string, prefix: string, except: Option<nat>)
    requires AliasesOk(db, base)
    ensures Claimed(db, base, HostOf(prefix, base), except) <==>
            PrefixTaken(db, prefix, except) || HostAliased(db, HostOf(prefix, base), except)
  {
    var host := HostOf(prefix, base);
    ClaimedByAlias(db, base, host, except);
    forall q | q in db.projects
      ensures db.projects[q].prefix == prefix <==> host == HostOf(db.projects[q].prefix, base)
    {
      HostOfInjective(db.projects[q].prefix, prefix, base);
    }
    hide AliasAccepted, Norm, HasAlias, HostAliased, HostOf, AliasesOk;
    if PrefixTaken(db, prefix, except) {
      var q :| q in db.projects && Some(q) != except && db.projects[q].prefix == prefix;
      assert Claims(db, base, q, host);
    }
    if HostAliased(db, host, except) {
      var q :| q in db.projects && Some(q) != except && HasAlias(db, q, host);
      assert Claims(db, base, q, host);
    }
    if Claimed(db, base, host, except) {
      var q: nat :| Some(q) != except && Claims(db, base, q, host);
    }
  }

  /** A host an alias may take is claimed exactly when it is some project's default host or aliased. */
  lemma ClaimedAliasHost(db: Db, base: string, host: string)
    requires PrefixesOk(db) && AliasesOk(db, base) && Canonical(base)
    requires Norm(host) == host && AliasAccepted(host, base)
    ensures Claimed(db, base, host, None) <==>
            || (BaseSubPrefix(host, base).Some? && PrefixTaken(db, BaseSubPrefix(host, base).value, None))
            || HostAliased(db, host, None)
  {
    var sub := BaseSubPrefix(host, base);
    if sub.Some? {
      SubPrefixIff(host, base, sub.value);
      ClaimedDefaultHost(db, base, sub.value, None);
    } else {
      ClaimedByAlias(db, base, host, None);
      forall q | q in db.projects
        ensures host != HostOf(db.projects[q].prefix, base)
      {
        if base == "" {
          NoAliasOnEmptyBase(host, db.projects[q].prefix, base);
        } else {
          SubPrefixIff(host, base, db.projects[q].prefix);
        }
      }
      hide AliasAccepted, Norm, HasAlias, HostAliased, HostOf, AliasesOk, PrefixesOk, BaseSubPrefix;
      if HostAliased(db, host, None) {
        var q :| q in db.projects && HasAlias(db, q, host);
        assert Claims(db, base, q, host);
      }
    }
  }

  /** The invariant is enough for one owner per host. */
  lemma OneOwner(db: Db, base: string, p: nat, q: nat, host: string)
    requires Inv(db, base) && Claims(db, base, p, host) && Claims(db, base, q, host)
    ensures p == q
  {
    HostOfInjective(db.projects[p].prefix, db.projects[q].prefix, base);
    hide AliasAccepted, Norm, HostOf;
  }

  // ---------------------------------------------------------------- every step keeps the invariant

  lemma EmptyInv(base: string)
    ensures Inv(Db(map[], map[]), base)
  {
  }

  /** Storing a project keeps the invariant when nobody else claims its default host. */
  lemma PutProject(db: Db, base: string, id: nat, p: Project)
    requires Inv(db, base) && ValidPrefix(p.prefix) && !Claimed(db, base, HostOf(p.prefix, base), Some(id))
    ensures Inv(db.(projects := db.projects[id := p]), base)
  {
    ClaimedDefaultHost(db, base, p.prefix, Some(id));
    hide AliasAccepted, Norm, ValidPrefix, HostOf, Claimed;
  }

  /** Storing an alias keeps the invariant when nobody claims its host. */
  lemma PutAlias(db: Db, base: string, id: nat, a: Alias)
    requires Inv(db, base) && a.project in db.projects && AliasAccepted(a.host, base) && Norm(a.host) == a.host
    requires id !in db.aliases && !Claimed(db, base, a.host, None)
    ensures Inv(db.(aliases := db.aliases[id := a]), base)
  {
    UnclaimedAlias(db, base, a.host);
    hide AliasAccepted, Norm, ValidPrefix, HostOf, Claimed, PrefixesOk, HasAlias;
  }

  lemma UnclaimedAlias(db: Db, base: string, host: string)
    requires AliasesOk(db, base) && !Claimed(db, base, host, None)
    ensures forall p | p in db.projects :: host != HostOf(db.projects[p].prefix, base)
    ensures forall a | a in db.aliases :: db.aliases[a].host != host
  {
    ClaimedByAlias(db, base, host, None);
    hide AliasAccepted, Norm, HostOf, HasAlias;
    forall p | p in db.projects
      ensures host != HostOf(db.projects[p].prefix, base)
      ensures !HasAlias(db, p, host)
    {
      assert !Claims(db, base, p, host);
    }
    assert !HostAliased(db, host, None);
  }

  lemma ResolvedIsValid(kind: Kind, name: string, prefix: string)
    ensures ResolvePrefix(kind, name, prefix).Some? ==> ValidPrefix(ResolvePrefix(kind, name, prefix).value)
  {
    hide IsLabel;
  }

  /**
   * `createProject` refuses a host conflict if and only if some project claims the host already:
   * past validation and with a free name, it succeeds exactly when nobody does.
   */
  lemma CreateIffUnclaimed(db: Db, base: string, r: Request)
    requires Inv(db, base) && Canonical(base) && r.CreateProject?
    requires Checked(r.name, r.fieldsOk, r.kind, r.prefix).Some?
    requires !NameTaken(db, r.owner, r.name, None) && r.id !in db.projects
    ensures
      var host := HostOf(Checked(r.name, r.fieldsOk, r.kind, r.prefix).value, base);
      var (after, status) := Create(db, base, r);
      && (status == Done <==> !Claimed(db, base, host, None))
      && (status != Done ==> status == Conflict)
      && (status == Done ==> Claims(after, base, r.id, host))
  {
    var prefix := Checked(r.name, r.fieldsOk, r.kind, r.prefix).value;
    CheckedHostIsFree(db, base, prefix, None);
    ClaimedDefaultHost(db, base, prefix, None);
    hide PrefixTaken, HostAliased, Claimed, Inv, Checked, HostOf, HasAlias, NameTaken;
  }

  /** `updateProject` likewise, counting only claims of other projects: an alias of one's own may become the prefix. */
  lemma UpdateIffUnclaimed(db: Db, base: string, r: Request)
    requires Inv(db, base) && Canonical(base) && r.UpdateProject? && r.allowed && r.id in db.projects
    requires Updated(db.projects[r.id], r).Some?
    requires !NameTaken(db, db.projects[r.id].owner, Updated(db.projects[r.id], r).value.name, Some(r.id))
    ensures
      var p := Updated(db.projects[r.id], r).value;
      var (after, status) := Update(db, base, r);
      && (status == Done <==> !Claimed(db, base, HostOf(p.prefix, base), Some(r.id)))
      && (status != Done ==> status == Conflict)
      && (status == Done ==> after == db.(projects := db.projects[r.id := p]))
  {
    var p := Updated(db.projects[r.id], r).value;
    CheckedHostIsFree(db, base, p.prefix, Some(r.id));
    ClaimedDefaultHost(db, base, p.prefix, Some(r.id));
    hide PrefixTaken, HostAliased, Claimed, Inv, Checked, HostOf, NameTaken;
  }

  /** The row an update would store, if its fields pass. */
  function Updated(p: Project, r: Request): Option<Project>
    requires r.UpdateProject?
  {
    var name := if r.newName.Some? then r.newName.value else p.name;
    match Checked(name, r.fieldsOk, p.kind, if r.newPrefix.Some? then r.newPrefix.value else p.prefix)
    case Some(prefix) => Some(p.(name := name, prefix := prefix))
    case None => None
  }

  lemma AcceptedNormal(raw: string, base: string)
    requires AliasAccepted(raw, base)
    ensures AliasAccepted(Norm(raw), base)
  {
    NormAgain(raw);
    hide Norm, Split, ShortLabel, BaseSubPrefix;
  }

  /** `createProjectAlias`: a well-formed host is accepted if and only if no project claims it, not even the caller's. */
  lemma AddAliasIffUnclaimed(db: Db, base: string, r: Request)
    requires Inv(db, base) && Canonical(base) && r.CreateAlias?
    requires r.project in db.projects && MayManage(db, r.project, r.caller, r.admin)
    requires AliasAccepted(r.host, base) && r.aliasId !in db.aliases
    ensures
      var (after, status) := AddAlias(db, base, r);
      && (status == Done <==> !Claimed(db, base, Norm(r.host), None))
      && (status != Done ==> status == Conflict)
      && (status == Done ==> after == db.(aliases := db.aliases[r.aliasId := Alias(r.project, Norm(r.host))]))
  {
    NormAgain(r.host);
    AcceptedNormal(r.host, base);
    ClaimedAliasHost(db, base, Norm(r.host));
    hide PrefixTaken, HostAliased, Claimed, Inv, Norm, AliasAccepted, BaseSubPrefix;
  }

  lemma CreateKeepsInv(db: Db, base: string, r: Request)
    requires Inv(db, base) && Canonical(base) && r.CreateProject?
    ensures Inv(Create(db, base, r).0, base)
  {
    if Create(db, base, r).1 == Done {
      CreateIffUnclaimed(db, base, r);
      var prefix := Checked(r.name, r.fieldsOk, r.kind, r.prefix).value;
      ResolvedIsValid(r.kind, r.name, r.prefix);
      PutProject(db, base, r.id, Project(r.name, r.owner, r.kind, prefix));
    }
    hide Inv, PrefixTaken, HostAliased, NameTaken, Claimed, ResolvePrefix;
  }

  lemma UpdateKeepsInv(db: Db, base: string, r: Request)
    requires Inv(db, base) && Canonical(base) && r.UpdateProject?
    ensures Inv(Update(db, base, r).0, base)
  {
    if Update(db, base, r).1 == Done {
      var p := Updated(db.projects[r.id], r);
      if NameTaken(db, db.projects[r.id].owner, p.value.name, Some(r.id)) {
        CheckedHostIsFree(db, base, p.value.prefix, Some(r.id));
        ClaimedDefaultHost(db, base, p.value.prefix, Some(r.id));
      } else {
        UpdateIffUnclaimed(db, base, r);
      }
      ResolvedIsValid(p.value.kind, p.value.name, if r.newPrefix.Some? then r.newPrefix.value else db.projects[r.id].prefix);
      PutProject(db, base, r.id, p.value);
    }
    hide Inv, PrefixTaken, HostAliased, NameTaken, Claimed, ResolvePrefix;
  }

  lemma AddAliasKeepsInv(db: Db, base: string, r: Request)
    requires Inv(db, base) && Canonical(base) && r.CreateAlias?
    ensures Inv(AddAlias(db, base, r).0, base)
  {
    if AddAlias(db, base, r).1 == Done {
      AddAliasIffUnclaimed(db, base, r);
      NormAgain(r.host);
      AcceptedNormal(r.host, base);
      PutAlias(db, base, r.aliasId, Alias(r.project, Norm(r.host)));
    }
    hide Inv, PrefixTaken, HostAliased, Claimed, AliasAccepted, Norm, BaseSubPrefix;
  }

  /** Fewer rows, none of them changed, keep the invariant while no alias is orphaned. */
  lemma ShrinkKeepsInv(db: Db, after: Db, base: string)
    requires Inv(db, base)
    requires forall p | p in after.projects :: p in db.projects && after.projects[p] == db.projects[p]
    requires forall a | a in after.aliases ::
               a in db.aliases && after.aliases[a] == db.aliases[a] && after.aliases[a].project in after.projects
    ensures Inv(after, base)
  {
    hide AliasAccepted, Norm, ValidPrefix, HostOf;
  }

  lemma DeleteKeepsInv(db: Db, base: string, id: nat)
    requires Inv(db, base)
    ensures Inv(Delete(db, id).0, base)
  {
    assert forall a | a in db.aliases :: db.aliases[a].project in db.projects;
    hide Inv;
    ShrinkKeepsInv(db, Delete(db, id).0, base);
  }

  lemma RemoveAliasKeepsInv(db: Db, base: string, r: Request)
    requires Inv(db, base) && r.DeleteAlias?
    ensures Inv(RemoveAlias(db, r).0, base)
  {
    assert forall a | a in db.aliases :: db.aliases[a].project in db.projects;
    hide Inv;
    ShrinkKeepsInv(db, RemoveAlias(db, r).0, base);
  }

  lemma ReassignKeepsInv(db: Db, base: string, r: Request)
    requires Inv(db, base) && r.ChangeOwner?
    ensures Inv(Reassign(db, r).0, base)
  {
    hide AliasAccepted, Norm, ValidPrefix, HostOf, NameTaken;
  }

  lemma StepKeepsInv(db: Db, base: string, r: Request)
    requires Inv(db, base) && Canonical(base)
    ensures Inv(Step(db, base, r).0, base)
  {
    if r.DeleteProject? {
      DeleteKeepsInv(db, base, r.id);
    } else if r.DeleteAlias? {
      RemoveAliasKeepsInv(db, base, r);
    } else if r.ChangeOwner? {
      ReassignKeepsInv(db, base, r);
    } else {
      if r.CreateProject? {
        CreateKeepsInv(db, base, r);
      } else if r.UpdateProject? {
        UpdateKeepsInv(db, base, r);
      } else {
        AddAliasKeepsInv(db, base, r);
      }
    }
    hide Inv, Create, Update, AddAlias, Delete, RemoveAlias, Reassign;
  }

  /** Over every run of the handlers from an empty database, no two projects claim the same host. */
  lemma {:induction false} RunKeepsInv(db: Db, base: string, rs: seq<Request>)
    requires Inv(db, base) && Canonical(base)
    ensures Inv(Run(db, base, rs), base)
    decreases |rs|
  {
    if rs != [] {
      StepKeepsInv(db, base, rs[0]);
      RunKeepsInv(Step(db, base, rs[0]).0, base, rs[1..]);
    }
    hide Inv, Step;
  }

  lemma NoHostHasTwoOwners(base: string, rs: seq<Request>, p: nat, q: nat, host: string)
    requires Canonical(base)
    ensures
      var db := Run(Db(map[], map[]), base, rs);
      Claims(db, base, p, host) && Claims(db, base, q, host) ==> p == q
  {
    hide Inv, Claims, Run, Step;
    var db := Run(Db(map[], map[]), base, rs);
    EmptyInv(base);
    RunKeepsInv(Db(map[], map[]), base, rs);
    if Claims(db, base, p, host) && Claims(db, base, q, host) {
      OneOwner(db, base, p, q, host);
    }
  }

  // ---------------------------------------------------------------- platform hosts

  /** The platform's own hosts are never claimed: not the apex, not a reserved prefix. */
  lemma PlatformHostsUnclaimed(db: Db, base: string, p: nat, reserved: string)
    requires Inv(db, base) && Canonical(base) && base != "" && reserved in RESERVED
    ensures !Claims(db, base, p, base) && !Claims(db, base, p, HostOf(reserved, base))
  {
    if p in db.projects {
      HostOfInjective(db.projects[p].prefix, reserved, base);
      assert IsLabel(reserved);
      forall a | a in db.aliases
        ensures db.aliases[a].host != base && db.aliases[a].host != HostOf(reserved, base)
      {
        AliasNotPlatform(db.aliases[a].host, base, reserved);
      }
      hide AliasAccepted, Norm, IsLabel;
    }
  }

  lemma AliasNotPlatform(host: string, base: string, reserved: string)
    requires Norm(host) == host && AliasAccepted(host, base) && Canonical(base) && base != ""
    requires IsLabel(reserved) && reserved in RESERVED
    ensures host != base && host != HostOf(reserved, base)
  {
    SubPrefixIff(host, base, reserved);
    hide Norm, IsLabel, BaseSubPrefix, Split;
  }

  // ---------------------------------------------------------------- what a request leaves alone

  /** The project a request is about. */
  function Subject(r: Request): nat {
    match r
    case CreateProject(id, _, _, _, _, _) => id
    case UpdateProject(id, _, _, _, _) => id
    case ChangeOwner(id, _, _) => id
    case DeleteProject(id) => id
    case CreateAlias(_, project, _, _, _) => project
    case DeleteAlias(project, _, _, _) => project
  }

  /** No request gives to or takes from any project but its own. */
  lemma StepFrames(db: Db, base: string, r: Request, q: nat, host: string)
    requires q != Subject(r)
    ensures Claims(Step(db, base, r).0, base, q, host) <==> Claims(db, base, q, host)
  {
    var after := Step(db, base, r).0;
    hide AliasAccepted, Norm, HostOf, Checked, BaseSubPrefix, PrefixTaken, HostAliased, NameTaken;
    assert after.projects.Keys - {Subject(r)} == db.projects.Keys - {Subject(r)};
    assert q in db.projects ==> q in after.projects && after.projects[q] == db.projects[q];
    forall a | a in db.aliases && db.aliases[a] == Alias(q, host)
      ensures a in after.aliases && after.aliases[a] == db.aliases[a]
    {
    }
    forall a | a in after.aliases && after.aliases[a] == Alias(q, host)
      ensures a in db.aliases && db.aliases[a] == after.aliases[a]
    {
    }
    hide Step;
  }

  /** A deleted project gives up every host it had, aliases included. */
  lemma DeleteReleases(db: Db, base: string, id: nat, q: nat, host: string)
    requires Inv(db, base) && id in db.projects && Claims(db, base, id, host)
    ensures !Claims(Delete(db, id).0, base, q, host)
  {
    var after := Delete(db, id).0;
    assert id !in after.projects;
    if q != id {
      StepFrames(db, base, Request.DeleteProject(id), q, host);
      hide Inv, HasAlias, Delete;
      if Claims(db, base, q, host) {
        OneOwner(db, base, id, q, host);
      }
    }
  }

  /** No two projects of one owner share a name. */
  predicate NamesOk(db: Db) {
    forall p, q | p in db.projects && q in db.projects && p != q ::
      db.projects[p].owner != db.projects[q].owner || db.projects[p].name != db.projects[q].name
  }

  lemma StepKeepsNames(db: Db, base: string, r: Request)
    requires NamesOk(db)
    ensures NamesOk(Step(db, base, r).0)
  {
    hide AliasAccepted, Norm, HostOf, Checked, BaseSubPrefix, PrefixTaken, HostAliased;
  }

  /** Over every run, an owner's projects have distinct names. */
  lemma {:induction false} RunKeepsNames(db: Db, base: string, rs: seq<Request>)
    requires NamesOk(db)
    ensures NamesOk(Run(db, base, rs))
    decreases |rs|
  {
    hide NamesOk, Step;
    if rs != [] {
      StepKeepsNames(db, base, rs[0]);
      RunKeepsNames(Step(db, base, rs[0]).0, base, rs[1..]);
    }
  }

  // ---------------------------------------------------------------- short runs

  /** What creating a project adds while there are no aliases. */
  lemma CreateStores(db: Db, base: string, id: nat, name: string)
    requires db.aliases == map[] && id !in db.projects && ValidPrefix(name) && Trim(name) == name
    requires forall q | q in db.projects :: db.projects[q].prefix != name && db.projects[q].name != name
    ensures Step(db, base, CreateProject(id, 0, Deployment, name, "", true)) ==
            (db.(projects := db.projects[id := Project(name, 0, Deployment, name)]), Done)
  {
    assert name != "";
    hide Trim, HostOf, IsLabel;
  }

  /** A domain of the user's own, which the alias handler accepts. */
  predicate CustomDomain(host: string, base: string) {
    Norm(host) == host && AliasAccepted(host, base) && BaseSubPrefix(host, base).None?
  }

  /** What giving a project its first alias adds. */
  lemma AliasStores(db: Db, base: string, id: nat, p: nat, host: string)
    requires db.aliases == map[] && p in db.projects && db.projects[p].owner == 0 && CustomDomain(host, base)
    ensures Step(db, base, CreateAlias(id, p, 0, false, host)) == (db.(aliases := map[id := Alias(p, host)]), Done)
  {
    hide Norm, AliasAccepted, BaseSubPrefix;
  }

  lemma RunOfOne(db: Db, base: string, r: Request)
    ensures Run(db, base, [r]) == Step(db, base, r).0
  {
    hide Step;
    assert [r][1..] == [];
    assert Run(Step(db, base, r).0, base, []) == Step(db, base, r).0;
  }

  lemma RunOfTwo(db: Db, base: string, a: Request, b: Request)
    ensures Run(db, base, [a, b]) == Step(Step(db, base, a).0, base, b).0
  {
    hide Step;
    var mid := Step(db, base, a).0;
    assert [a, b][1..] == [b] && [b][1..] == [];
    assert Run(db, base, [a, b]) == Run(mid, base, [b]);
    assert Run(mid, base, [b]) == Run(Step(mid, base, b).0, base, []);
  }

  lemma RunOfThree(db: Db, base: string, a: Request, b: Request, c: Request)
    ensures Run(db, base, [a, b, c]) == Step(Step(Step(db, base, a).0, base, b).0, base, c).0
  {
    hide Step;
    assert [a, b, c][1..] == [b, c];
    RunOfTwo(Step(db, base, a).0, base, b, c);
  }
}
