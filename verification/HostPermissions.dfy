/**
 * Who may change a project's aliases, and when each request is refused for which reason.
 */
module HostPermissions {
  import opened Wrappers
  import opened TextTools
  import opened HostOwnership
  import opened HostClaims

  // ---------------------------------------------------------------- who may manage aliases

  /** The caller neither owns the project nor is an administrator. */
  predicate Stranger(db: Db, project: nat, caller: nat, admin: bool) {
    project in db.projects && !admin && caller != db.projects[project].owner
  }

  /** Adding an alias is forbidden exactly to strangers, and then nothing changes. */
  lemma CreateAliasForbiddenIff(db: Db, base: string, r: Request)
    requires r.CreateAlias?
    ensures
      var (after, status) := Step(db, base, r);
      && (status == Forbidden <==> Stranger(db, r.project, r.caller, r.admin))
      && (status == NotFound <==> r.project !in db.projects)
      && (status != Done ==> after == db)
  {
    hide Norm, AliasAccepted, BaseSubPrefix, PrefixTaken, HostAliased;
  }

  /** So is removing one; past that, only an alias of the project itself can go. */
  lemma DeleteAliasForbiddenIff(db: Db, base: string, r: Request)
    requires r.DeleteAlias?
    ensures
      var (after, status) := Step(db, base, r);
      && (status == Forbidden <==> Stranger(db, r.project, r.caller, r.admin))
      && (status == Done <==>
            && r.project in db.projects && !Stranger(db, r.project, r.caller, r.admin)
            && r.aliasId in db.aliases && db.aliases[r.aliasId].project == r.project)
      && (status == Done ==> after == db.(aliases := db.aliases - {r.aliasId}))
      && (status != Done ==> after == db)
  {
  }

  /** The aliases of a project, by id. */
  function AliasesOf(db: Db, p: nat): map<nat, string> {
    map a | a in db.aliases && db.aliases[a].project == p :: db.aliases[a].host
  }

  /** A request by the project's owner or an administrator about its aliases, or the project's deletion. */
  predicate Manages(db: Db, r: Request, p: nat) {
    match r
    case CreateAlias(_, project, caller, admin, _) => project == p && p in db.projects && !Stranger(db, p, caller, admin)
    case DeleteAlias(project, _, caller, admin) => project == p && p in db.projects && !Stranger(db, p, caller, admin)
    case DeleteProject(id) => id == p
    case _ => false
  }

  lemma StepLeavesAliases(db: Db, base: string, r: Request, p: nat)
    requires !Manages(db, r, p)
    ensures AliasesOf(Step(db, base, r).0, p) == AliasesOf(db, p)
  {
    if r.CreateAlias? {
      CreateAliasForbiddenIff(db, base, r);
    } else if r.DeleteAlias? {
      DeleteAliasForbiddenIff(db, base, r);
    }
    hide Norm, AliasAccepted, BaseSubPrefix, PrefixTaken, HostAliased, NameTaken, Checked, HostOf;
  }

  /** No request of the run manages the aliases of the project, whoever owns it at that moment. */
  predicate NeverManaged(db: Db, base: string, rs: seq<Request>, p: nat)
    decreases |rs|
  {
    rs == [] || (!Manages(db, rs[0], p) && NeverManaged(Step(db, base, rs[0]).0, base, rs[1..], p))
  }

  /** Over every run without such requests the project's aliases stay the same. */
  lemma {:induction false} StrangersChangeNoAlias(db: Db, base: string, rs: seq<Request>, p: nat)
    requires NeverManaged(db, base, rs, p)
    ensures AliasesOf(Run(db, base, rs), p) == AliasesOf(db, p)
    decreases |rs|
  {
    if rs != [] {
      StepLeavesAliases(db, base, rs[0], p);
      hide Step, AliasesOf, Manages;
      StrangersChangeNoAlias(Step(db, base, rs[0]).0, base, rs[1..], p);
    }
  }

  // ---------------------------------------------------------------- why requests are refused

  /** The fields of the request and the row it would store pass their checks. */
  predicate WellFormed(name: string, fieldsOk: bool, kind: Kind, prefix: string) {
    fieldsOk && Trim(name) != "" && ResolvePrefix(kind, name, prefix).Some?
  }

  /** Past validation a name conflict refuses like a host conflict. */
  lemma CreateStatus(db: Db, base: string, r: Request)
    requires Inv(db, base) && Canonical(base) && r.CreateProject? && r.id !in db.projects
    ensures
      var (after, status) := Step(db, base, r);
      var valid := WellFormed(r.name, r.fieldsOk, r.kind, r.prefix);
      && (status == BadRequest <==> !valid)
      && (status == Conflict <==>
            valid && (Claimed(db, base, HostOf(ResolvePrefix(r.kind, r.name, r.prefix).value, base), None)
                      || exists p | p in db.projects :: db.projects[p].owner == r.owner && db.projects[p].name == r.name))
      && (status == Done <==> after != db)
      && (status == Done ==> after == db.(projects := db.projects[r.id :=
            Project(r.name, r.owner, r.kind, ResolvePrefix(r.kind, r.name, r.prefix).value)]))
  {
    hide Inv, Claimed, PrefixTaken, HostAliased, ResolvePrefix, Trim, HostOf, Canonical;
    if WellFormed(r.name, r.fieldsOk, r.kind, r.prefix) && !NameTaken(db, r.owner, r.name, None) {
      CreateIffUnclaimed(db, base, r);
    }
    if WellFormed(r.name, r.fieldsOk, r.kind, r.prefix) {
      StoredIsNew(db, r.id, Project(r.name, r.owner, r.kind, ResolvePrefix(r.kind, r.name, r.prefix).value));
    }
  }

  lemma StoredIsNew(db: Db, id: nat, p: Project)
    requires id !in db.projects
    ensures db.(projects := db.projects[id := p]) != db
  {
    assert id in db.(projects := db.projects[id := p]).projects;
  }

  /** An update is refused to whoever has no access, then for a missing project, then by the checks on the row. */
  lemma UpdateStatus(db: Db, base: string, r: Request)
    requires r.UpdateProject?
    ensures
      var (after, status) := Step(db, base, r);
      && (status == Forbidden <==> !r.allowed)
      && (status == NotFound <==> r.allowed && r.id !in db.projects)
      && (status != Done ==> after == db)
      && (status == Done ==>
            && after.projects.Keys == db.projects.Keys && after.aliases == db.aliases
            && (forall p | p in db.projects && p != r.id :: after.projects[p] == db.projects[p])
            && after.projects[r.id].owner == db.projects[r.id].owner && after.projects[r.id].kind == db.projects[r.id].kind
            && after.projects[r.id].name == (if r.newName.Some? then r.newName.value else db.projects[r.id].name))
  {
    hide Checked, PrefixTaken, HostAliased, NameTaken, HostOf;
  }

  /** A project is deleted exactly when it is there, with its aliases and nothing else. */
  lemma DeleteStatus(db: Db, base: string, id: nat)
    ensures
      var (after, status) := Step(db, base, DeleteProject(id));
      && (status == Done <==> id in db.projects) && (status != Done ==> status == NotFound && after == db)
      && (status == Done ==>
            && after.projects == db.projects - {id}
            && (forall a :: a in after.aliases <==> a in db.aliases && db.aliases[a].project != id)
            && (forall a | a in after.aliases :: after.aliases[a] == db.aliases[a]))
  {
  }

  /** Only the owner changes, to a user that exists and has no project of that name. */
  lemma ChangeOwnerStatus(db: Db, base: string, r: Request)
    requires r.ChangeOwner?
    ensures
      var (after, status) := Step(db, base, r);
      && (status == Done <==>
            && r.newOwner.Some? && r.id in db.projects
            && (db.projects[r.id].owner == r.newOwner.value
                || (r.ownerExists && forall p | p in db.projects && p != r.id ::
                      db.projects[p].owner != r.newOwner.value || db.projects[p].name != db.projects[r.id].name)))
      && (status == Done ==>
            after == db.(projects := db.projects[r.id := db.projects[r.id].(owner := r.newOwner.value)]))
      && (status != Done ==> after == db)
  {
    if r.id in db.projects && r.newOwner.Some? && db.projects[r.id].owner == r.newOwner.value {
      assert db.projects[r.id := db.projects[r.id].(owner := r.newOwner.value)] == db.projects;
    }
  }

  // ---------------------------------------------------------------- prefixes

  const LETTERS := "abcdefghijklmnopqrstuvwxyz"
  const DIGITS := "0123456789"

  /** The shape of an RFC 1123 label, spelled out. */
  lemma LabelIs(s: string)
    ensures IsLabel(s) <==>
            && |s| > 0 && (s[0] in LETTERS || s[0] in DIGITS) && (s[|s| - 1] in LETTERS || s[|s| - 1] in DIGITS)
            && forall i | 0 <= i < |s| :: s[i] in LETTERS || s[i] in DIGITS || s[i] == '-'
  {
    forall c: char
      ensures Alnum(c) <==> c in LETTERS || c in DIGITS
    {
      LettersAre(c);
      DigitsAre(c);
    }
    hide Alnum;
    assert forall i | 0 <= i < |s| :: s[i] in s;
  }

  lemma LettersAre(c: char)
    ensures c in LETTERS <==> 'a' <= c <= 'z'
  {
    var letters := seq(26, i requires 0 <= i < 26 => ('a' as int + i) as char);
    assert LETTERS == letters;
    if 'a' <= c <= 'z' {
      assert letters[c as int - 'a' as int] == c;
    }
  }

  lemma DigitsAre(c: char)
    ensures c in DIGITS <==> '0' <= c <= '9'
  {
    var digits := seq(10, i requires 0 <= i < 10 => ('0' as int + i) as char);
    assert DIGITS == digits;
    if '0' <= c <= '9' {
      assert digits[c as int - '0' as int] == c;
    }
  }

  /**
   * The prefix a project gets, or none: reserved names never, and for domain-only projects nothing implied or
   * in the tunnels' namespace.
   */
  lemma PrefixIs(kind: Kind, name: string, prefix: string)
    ensures
      var chosen := if prefix == "" && kind != DomainOnly then name else prefix;
      var refused := !IsLabel(chosen) || chosen == "registry" || chosen == "traefik" || chosen == "muvee"
                     || (kind == DomainOnly && |chosen| >= 2 && chosen[0] == 't' && chosen[1] == '-');
      ResolvePrefix(kind, name, prefix) == if refused then None else Some(chosen)
  {
    hide IsLabel;
    assert "t-"[0] == 't' && "t-"[1] == '-';
    var chosen := if prefix == "" && kind != DomainOnly then name else prefix;
    if |chosen| >= 2 {
      assert "t-" <= chosen <==> chosen[0] == 't' && chosen[1] == '-' by {
        if chosen[0] == 't' && chosen[1] == '-' {
          assert chosen[..2] == "t-";
        }
      }
    }
  }

  /** The namespace of ephemeral tunnels stays free of domain-only projects. */
  predicate NamespaceFree(db: Db) {
    forall p | p in db.projects && db.projects[p].kind.DomainOnly? :: !("t-" <= db.projects[p].prefix)
  }

  lemma {:induction false} RunKeepsNamespace(db: Db, base: string, rs: seq<Request>)
    requires NamespaceFree(db)
    ensures NamespaceFree(Run(db, base, rs))
    decreases |rs|
  {
    if rs != [] {
      StepKeepsNamespace(db, base, rs[0]);
      hide NamespaceFree, Step;
      RunKeepsNamespace(Step(db, base, rs[0]).0, base, rs[1..]);
    }
  }

  lemma StepKeepsNamespace(db: Db, base: string, r: Request)
    requires NamespaceFree(db)
    ensures NamespaceFree(Step(db, base, r).0)
  {
    hide Norm, AliasAccepted, BaseSubPrefix, PrefixTaken, HostAliased, NameTaken, HostOf, ValidPrefix, Trim;
  }

  // ---------------------------------------------------------------- aliases

  lemma EdgesOfParts(s: string)
    requires s != ""
    ensures s[0] == '.' || s[|s| - 1] == '.' ==> "" in Split(s, '.')
  {
    assert s[0] == '.' ==> Split(s, '.')[0] == "";
    if s[|s| - 1] == '.' {
      LastIsEmpty(s);
    }
  }

  /** A text that ends in the separator has an empty last part after a first one. */
  lemma {:induction false} LastIsEmpty(s: string)
    requires s != "" && s[|s| - 1] == '.'
    ensures |Split(s, '.')| > 1 && Split(s, '.')[|Split(s, '.')| - 1] == ""
    decreases |s|
  {
    var rest := Split(s[1..], '.');
    if |s| == 1 {
      assert s[1..] == "" && rest == [""];
    } else {
      LastIsEmpty(s[1..]);
    }
  }

  /** The reserved labels under the base domain, and the base domain itself, are not to be aliased. */
  predicate OffLimits(host: string, base: string) {
    || host == base
    || exists l | l in RESERVED :: host == HostOf(l, base)
  }

  /** With proper labels the check on the label under the base refuses exactly the reserved ones. */
  lemma ReservedUnderBase(host: string, base: string)
    requires Canonical(base) && base != "" && Norm(host) == host && forall l | l in Split(host, '.') :: IsLabel(l)
    ensures BaseSubPrefix(host, base).Some? && !ValidPrefix(BaseSubPrefix(host, base).value) <==>
            exists l | l in RESERVED :: host == HostOf(l, base)
  {
    var sub := BaseSubPrefix(host, base);
    if sub.Some? {
      SubPrefixIff(host, base, sub.value);
      SubIsLabel(host, base, sub.value);
    }
    forall l | l in RESERVED
      ensures host == HostOf(l, base) ==> sub == Some(l)
    {
      ReservedIsLabel(l);
      SubPrefixIff(host, base, l);
    }
    hide Norm, BaseSubPrefix, HostOf, IsLabel, Split;
  }

  lemma ReservedIsLabel(l: string)
    requires l in RESERVED
    ensures IsLabel(l)
  {
  }

  lemma NoEmptyLabel(host: string)
    requires forall l | l in Split(host, '.') :: IsLabel(l)
    ensures host != "" && host[0] != '.' && host[|host| - 1] != '.'
  {
    assert !IsLabel("");
    assert host == "" ==> "" in Split(host, '.');
    if host != "" {
      EdgesOfParts(host);
    }
    hide IsLabel;
  }

  /**
   * Which hosts may become an alias: two or more labels of 1 to 63 letters, digits and inner hyphens, 253
   * characters in all, neither the base domain nor a reserved label directly under it.
   */
  lemma AcceptedIff(raw: string, base: string)
    requires Canonical(base)
    ensures
      var host, labels := Norm(raw), Split(Norm(raw), '.');
      AliasAccepted(raw, base) <==>
        && |host| <= 253 && |labels| >= 2
        && (forall l | l in labels :: IsLabel(l) && |l| <= 63)
        && (base != "" ==> !OffLimits(host, base))
  {
    var host := Norm(raw);
    NormAgain(raw);
    if forall l | l in Split(host, '.') :: IsLabel(l) {
      NoEmptyLabel(host);
      if base != "" {
        ReservedUnderBase(host, base);
      }
    }
    hide Norm, BaseSubPrefix, HostOf, IsLabel, ValidPrefix, Split;
  }

  /** The label under the base is the host's first label. */
  lemma SubIsLabel(host: string, base: string, sub: string)
    requires host == HostOf(sub, base) && '.' !in sub && forall l | l in Split(host, '.') :: IsLabel(l)
    ensures IsLabel(sub)
  {
    SplitFirst(sub, '.', base);
    assert sub + (['.'] + base) == host;
    assert sub in Split(host, '.');
  }
}
