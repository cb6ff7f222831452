/**
 * Who owns which host: projects claim `<prefix>.<base>` and any number of aliases. The handlers are
 * atomic steps on the stored rows; the rows keep the schema's uniqueness constraints.
 */
module HostOwnership {
  import opened Wrappers
  import opened TextTools

  datatype Kind = Deployment | DomainOnly | Compose | Image | Build

  datatype Project = Project(name: string, owner: nat, kind: Kind, prefix: string)

  datatype Alias = Alias(project: nat, host: string)

  datatype Db = Db(projects: map<nat, Project>, aliases: map<nat, Alias>)

  datatype Status = Done | BadRequest | Forbidden | NotFound | Conflict | Failed

  // ---------------------------------------------------------------- validation

  predicate Alnum(c: char) {
    'a' <= c <= 'z' || '0' <= c <= '9'
  }

  /** A lowercase RFC 1123 label, of any length. */
  predicate IsLabel(s: string) {
    && s != "" && Alnum(s[0]) && Alnum(s[|s| - 1])
    && forall c | c in s :: Alnum(c) || c == '-'
  }

  const RESERVED := {"registry", "traefik", "muvee"}

  predicate ValidPrefix(s: string) {
    IsLabel(s) && s !in RESERVED
  }

  /** The prefix a project ends up with: an omitted one defaults to the name, except for domain-only projects. */
  function ResolvePrefix(kind: Kind, name: string, prefix: string): Option<string> {
    if kind.DomainOnly? then
      if ValidPrefix(prefix) && !("t-" <= prefix) then Some(prefix) else None
    else
      var chosen := if prefix == "" then name else prefix;
      if ValidPrefix(chosen) then Some(chosen) else None
  }

  function Norm(host: string): string {
    Lower(Trim(host))
  }

  /** `baseSubPrefix`: the label when `host` is exactly one label under the base domain. */
  function BaseSubPrefix(host: string, baseDomain: string): Option<string> {
    var h, base := Norm(host), Norm(baseDomain);
    if base == "" || !HasSuffix(h, "." + base) then None
    else
      var sub := TrimSuffix(h, "." + base);
      if sub == "" || '.' in sub then None else Some(sub)
  }

  predicate ShortLabel(l: string) {
    IsLabel(l) && |l| <= 63
  }

  /** `validateAliasHost`. */
  predicate AliasAccepted(raw: string, baseDomain: string) {
    var host, base := Norm(raw), Norm(baseDomain);
    && host != "" && |host| <= 253 && host[0] != '.' && host[|host| - 1] != '.'
    && |Split(host, '.')| >= 2
    && (forall l | l in Split(host, '.') :: ShortLabel(l))
    && (base != "" ==>
          && host != base
          && (BaseSubPrefix(host, base).Some? ==> ValidPrefix(BaseSubPrefix(host, base).value)))
  }

  method ValidateAliasHost(raw: string, baseDomain: string) returns (accepted: bool)
    ensures accepted <==> AliasAccepted(raw, baseDomain)
  {
    var host := Norm(raw);
    if host == "" || |host| > 253 || host[0] == '.' || host[|host| - 1] == '.' {
      return false;
    }
    var labels := Split(host, '.');
    if |labels| < 2 {
      return false;
    }
    for i := 0 to |labels|
      invariant forall j | 0 <= j < i :: ShortLabel(labels[j])
    {
      if !ShortLabel(labels[i]) {
        return false;
      }
    }
    var base := Norm(baseDomain);
    if base != "" {
      if host == base {
        return false;
      }
      var sub := BaseSubPrefix(host, base);
      if sub.Some? && !ValidPrefix(sub.value) {
        return false;
      }
    }
    return true;
  }

  // ---------------------------------------------------------------- queries

  /** A project other than `except` has this prefix. */
  predicate PrefixTaken(db: Db, prefix: string, except: Option<nat>) {
    exists p | p in db.projects :: Some(p) != except && db.projects[p].prefix == prefix
  }

  /** An alias of a project other than `except` has this host. */
  predicate HostAliased(db: Db, host: string, except: Option<nat>) {
    exists a | a in db.aliases :: Some(db.aliases[a].project) != except && db.aliases[a].host == host
  }

  predicate NameTaken(db: Db, owner: nat, name: string, except: Option<nat>) {
    exists p | p in db.projects ::
      Some(p) != except && db.projects[p].owner == owner && db.projects[p].name == name
  }

  function HostOf(prefix: string, base: string): string {
    prefix + "." + base
  }

  // ---------------------------------------------------------------- steps

  /**
   * The requests. Identifiers are chosen by the database; `fieldsOk` stands for the checks on
   * fields that have nothing to do with hosts.
   */
  datatype Request =
    | CreateProject(id: nat, owner: nat, kind: Kind, name: string, prefix: string, fieldsOk: bool)
    | UpdateProject(id: nat, allowed: bool, newName: Option<string>, newPrefix: Option<string>, fieldsOk: bool)
    | ChangeOwner(id: nat, newOwner: Option<nat>, ownerExists: bool)
    | DeleteProject(id: nat)
    | CreateAlias(aliasId: nat, project: nat, caller: nat, admin: bool, host: string)
    | DeleteAlias(project: nat, aliasId: nat, caller: nat, admin: bool)

  function Checked(name: string, fieldsOk: bool, kind: Kind, prefix: string): Option<string> {
    if Trim(name) == "" || !fieldsOk then None else ResolvePrefix(kind, name, prefix)
  }

  function Create(db: Db, base: string, r: Request): (Db, Status)
    requires r.CreateProject?
  {
    var prefix := Checked(r.name, r.fieldsOk, r.kind, r.prefix);
    if prefix.None? then (db, BadRequest)
    else if PrefixTaken(db, prefix.value, None) then (db, Conflict)
    else if base != "" && HostAliased(db, HostOf(prefix.value, Lower(base)), None) then (db, Conflict)
    else if NameTaken(db, r.owner, r.name, None) then (db, Conflict)
    else if r.id in db.projects then (db, Failed)
    else (db.(projects := db.projects[r.id := Project(r.name, r.owner, r.kind, prefix.value)]), Done)
  }

  function Update(db: Db, base: string, r: Request): (Db, Status)
    requires r.UpdateProject?
  {
    if !r.allowed then (db, Forbidden)
    else if r.id !in db.projects then (db, NotFound)
    else
      var was := db.projects[r.id];
      var name := if r.newName.Some? then r.newName.value else was.name;
      var prefix := Checked(name, r.fieldsOk, was.kind, if r.newPrefix.Some? then r.newPrefix.value else was.prefix);
      if prefix.None? then (db, BadRequest)
      else if PrefixTaken(db, prefix.value, Some(r.id)) then (db, Conflict)
      else if base != "" && HostAliased(db, HostOf(prefix.value, Lower(base)), Some(r.id)) then (db, Conflict)
      else if name != was.name && NameTaken(db, was.owner, name, Some(r.id)) then (db, Conflict)
      else (db.(projects := db.projects[r.id := was.(name := name, prefix := prefix.value)]), Done)
  }

  /** `changeProjectOwner`: giving a project to its owner is accepted and changes nothing. */
  function Reassign(db: Db, r: Request): (Db, Status)
    requires r.ChangeOwner?
  {
    if r.newOwner.None? then (db, BadRequest)
    else if r.id !in db.projects then (db, NotFound)
    else
      var p := db.projects[r.id];
      if p.owner == r.newOwner.value then (db, Done)
      else if !r.ownerExists then (db, NotFound)
      else if NameTaken(db, r.newOwner.value, p.name, Some(r.id)) then (db, Conflict)
      else (db.(projects := db.projects[r.id := p.(owner := r.newOwner.value)]), Done)
  }

  function Delete(db: Db, id: nat): (Db, Status) {
    if id !in db.projects then (db, NotFound)
    else (Db(db.projects - {id}, map a | a in db.aliases && db.aliases[a].project != id :: db.aliases[a]), Done)
  }

  predicate MayManage(db: Db, project: nat, caller: nat, admin: bool)
    requires project in db.projects
  {
    admin || db.projects[project].owner == caller
  }

  function AddAlias(db: Db, base: string, r: Request): (Db, Status)
    requires r.CreateAlias?
  {
    var host := Norm(r.host);
    var sub := BaseSubPrefix(host, base);
    if r.project !in db.projects then (db, NotFound)
    else if !MayManage(db, r.project, r.caller, r.admin) then (db, Forbidden)
    else if !AliasAccepted(r.host, base) then (db, BadRequest)
    else if sub.Some? && PrefixTaken(db, sub.value, None) then (db, Conflict)
    else if HostAliased(db, host, None) then (db, Conflict)
    else if r.aliasId in db.aliases then (db, Failed)
    else (db.(aliases := db.aliases[r.aliasId := Alias(r.project, host)]), Done)
  }

  function RemoveAlias(db: Db, r: Request): (Db, Status)
    requires r.DeleteAlias?
  {
    if r.project !in db.projects then (db, NotFound)
    else if !MayManage(db, r.project, r.caller, r.admin) then (db, Forbidden)
    else if r.aliasId !in db.aliases || db.aliases[r.aliasId].project != r.project then (db, NotFound)
    else (db.(aliases := db.aliases - {r.aliasId}), Done)
  }

  function Step(db: Db, base: string, r: Request): (Db, Status) {
    match r
    case CreateProject(_, _, _, _, _, _) => Create(db, base, r)
    case UpdateProject(_, _, _, _, _) => Update(db, base, r)
    case ChangeOwner(_, _, _) => Reassign(db, r)
    case DeleteProject(id) => Delete(db, id)
    case CreateAlias(_, _, _, _, _) => AddAlias(db, base, r)
    case DeleteAlias(_, _, _, _) => RemoveAlias(db, r)
  }

  function Run(db: Db, base: string, rs: seq<Request>): Db
    decreases |rs|
  {
    if rs == [] then db else Run(Step(db, base, rs[0]).0, base, rs[1..])
  }

  // ---------------------------------------------------------------- ownership

  predicate HasAlias(db: Db, p: nat, host: string) {
    exists a | a in db.aliases :: db.aliases[a] == Alias(p, host)
  }

  /** Project `p` answers for `host`. */
  predicate Claims(db: Db, base: string, p: nat, host: string) {
    p in db.projects && (host == HostOf(db.projects[p].prefix, base) || HasAlias(db, p, host))
  }

  /** The base domain as the configuration stores it. */
  predicate Canonical(base: string) {
    Norm(base) == base
  }

  predicate PrefixesOk(db: Db) {
    && (forall p | p in db.projects :: ValidPrefix(db.projects[p].prefix))
    && (forall p, q | p in db.projects && q in db.projects && p != q :: db.projects[p].prefix != db.projects[q].prefix)
  }

  predicate AliasesOk(db: Db, base: string) {
    && (forall a | a in db.aliases :: db.aliases[a].project in db.projects)
    && (forall a | a in db.aliases :: Norm(db.aliases[a].host) == db.aliases[a].host)
    && (forall a | a in db.aliases :: AliasAccepted(db.aliases[a].host, base))
    && (forall a, b | a in db.aliases && b in db.aliases && a != b :: db.aliases[a].host != db.aliases[b].host)
  }

  /** An alias that looks like a default host belongs to the project with that prefix. */
  predicate Agree(db: Db, base: string) {
    forall a, p | a in db.aliases && p in db.projects && db.aliases[a].host == HostOf(db.projects[p].prefix, base) ::
      db.aliases[a].project == p
  }

  predicate Inv(db: Db, base: string) {
    PrefixesOk(db) && AliasesOk(db, base) && Agree(db, base)
  }
}
