/**
 * The projects as stored: subdomains, pinned ports and TCP hostnames across projects, over every run of
 * the handlers, and what host ownership sees of it.
 */
module ProjectStore {
  import opened Wrappers
  import opened TextTools
  import opened ProjectMerge
  import Own = HostOwnership
  import Claims = HostClaims

  /** A project: its columns, what kind it is, and whose. */
  datatype Entry = Entry(row: Row, kind: Own.Kind, owner: nat)

  /** Projects, aliases, and the deploy nodes. */
  datatype Db = Db(projects: map<nat, Entry>, aliases: map<nat, Own.Alias>, nodes: set<nat>)

  /** The rows as far as host ownership looks at them. */
  function HostView(db: Db): Own.Db {
    Own.Db(map p | p in db.projects :: Own.Project(db.projects[p].row.name, db.projects[p].owner, db.projects[p].kind,
                                                   db.projects[p].row.domainPrefix),
           db.aliases)
  }

  // ---------------------------------------------------------------- queries

  predicate PrefixTaken(db: Db, prefix: string, except: nat) {
    exists p | p in db.projects :: p != except && db.projects[p].row.domainPrefix == prefix
  }

  predicate NameTaken(db: Db, owner: nat, name: string, except: nat) {
    exists p | p in db.projects :: p != except && db.projects[p].owner == owner && db.projects[p].row.name == name
  }

  predicate AliasTaken(db: Db, base: string, prefix: string, except: nat) {
    base != "" && exists a | a in db.aliases ::
      db.aliases[a].project != except && db.aliases[a].host == Own.HostOf(prefix, Lower(base))
  }

  /** The pair of node and port a row pins. */
  function Pin(r: Row): Option<(nat, int)> {
    if r.fixedNode.Some? && r.fixedPort.Some? then Some((r.fixedNode.value, r.fixedPort.value)) else None
  }

  predicate PinTaken(db: Db, pin: (nat, int), except: nat) {
    exists p | p in db.projects :: p != except && Pin(db.projects[p].row) == Some(pin)
  }

  /** Another project answers on the hostname, over HTTP or TCP. */
  predicate HostnameTaken(db: Db, prefix: string, except: nat) {
    exists p | p in db.projects :: p != except &&
      (db.projects[p].row.domainPrefix == prefix || db.projects[p].row.tcpPrefix == Some(prefix))
  }

  // ---------------------------------------------------------------- steps

  /** `fieldsOk` stands for the checks on other fields, `typeEnabled` for the platform's list of types. */
  datatype Request =
    | Create(id: nat, owner: nat, kind: Own.Kind, admin: bool, fieldsOk: bool, typeEnabled: bool, row: Row)
    | Update(id: nat, allowed: bool, admin: bool, fieldsOk: bool, body: seq<Member>)
    | Delete(id: nat)
    | Hosts(request: Own.Request)
    | AddNode(node: nat)
    | DeleteNode(node: nat)

  /** Prefix, alias and name conflicts, in that order; all three answer alike. */
  predicate Conflicts(db: Db, base: string, owner: nat, r: Row, id: nat, checkName: bool) {
    || PrefixTaken(db, r.domainPrefix, id)
    || AliasTaken(db, base, r.domainPrefix, id)
    || (checkName && NameTaken(db, owner, r.name, id))
  }

  /** The checks on a new fixed port. */
  function PinStatus(db: Db, admin: bool, r: Row, id: nat): Own.Status {
    if !admin then Own.Forbidden
    else if r.fixedPort.None? || r.fixedNode.None? then Own.Done
    else if r.fixedNode.value !in db.nodes then Own.BadRequest
    else if PinTaken(db, (r.fixedNode.value, r.fixedPort.value), id) then Own.Conflict
    else Own.Done
  }

  /** The checks on a new TCP route. */
  function RouteStatus(db: Db, admin: bool, r: Row, id: nat): Own.Status {
    if !admin then Own.Forbidden
    else if r.tcpPrefix.Some? && HostnameTaken(db, r.tcpPrefix.value, id) then Own.Conflict
    else Own.Done
  }

  function Put(db: Db, id: nat, e: Entry): Db {
    db.(projects := db.projects[id := e])
  }

  /** A new identifier excludes no project from the checks. */
  function CreateStep(db: Db, base: string, r: Request): (Db, Own.Status)
    requires r.Create?
  {
    var v := Validated(r.kind, r.fieldsOk, r.row);
    if v.None? then (db, Own.BadRequest)
    else if !r.typeEnabled then (db, Own.Forbidden)
    else if r.id in db.projects then (db, Own.Failed)
    else if Conflicts(db, base, r.owner, v.value, r.id, true) then (db, Own.Conflict)
    else
      var pin := if v.value.fixedPort.Some? then PinStatus(db, r.admin, v.value, r.id) else Own.Done;
      var route := if v.value.tcpPrefix.Some? then RouteStatus(db, r.admin, v.value, r.id) else Own.Done;
      if pin != Own.Done then (db, pin)
      else if route != Own.Done then (db, route)
      else (Put(db, r.id, Entry(v.value, r.kind, r.owner)), Own.Done)
  }

  function UpdateStep(db: Db, base: string, r: Request): (Db, Own.Status)
    requires r.Update?
  {
    if !r.allowed then (db, Own.Forbidden)
    else if r.id !in db.projects then (db, Own.NotFound)
    else
      var was := db.projects[r.id];
      var gates := GatesOf(was.kind, r.fieldsOk, was.row, r.body);
      if gates.Refused? then (db, Own.BadRequest)
      else if Conflicts(db, base, was.owner, gates.row, r.id, gates.row.name != was.row.name) then (db, Own.Conflict)
      else
        var pin := if gates.fixedPort then PinStatus(db, r.admin, gates.row, r.id) else Own.Done;
        var route := if gates.tcpRoute then RouteStatus(db, r.admin, gates.row, r.id) else Own.Done;
        if pin != Own.Done then (db, pin)
        else if route != Own.Done then (db, route)
        else (Put(db, r.id, was.(row := gates.row)), Own.Done)
  }

  function DeleteStep(db: Db, id: nat): (Db, Own.Status) {
    var (after, status) := Own.Delete(HostView(db), id);
    (db.(projects := db.projects - {id}, aliases := after.aliases), status)
  }

  /** The requests that concern aliases and owners only. */
  function HostStep(db: Db, base: string, q: Own.Request): (Db, Own.Status) {
    var (after, status) := Own.Step(HostView(db), base, q);
    if q.CreateAlias? || q.DeleteAlias? then (db.(aliases := after.aliases), status)
    else if q.ChangeOwner? then
      if status == Own.Done && q.id in db.projects && q.newOwner.Some?
      then (Put(db, q.id, db.projects[q.id].(owner := q.newOwner.value)), status)
      else (db, status)
    else (db, Own.BadRequest)
  }

  /** A deleted node leaves the port columns of its projects behind. */
  function WithoutNode(r: Row, node: nat): Row {
    r.(fixedNode := if r.fixedNode == Some(node) then None else r.fixedNode,
       pinnedNode := if r.pinnedNode == Some(node) then None else r.pinnedNode)
  }

  function Step(db: Db, base: string, r: Request): (Db, Own.Status) {
    match r
    case Create(_, _, _, _, _, _, _) => CreateStep(db, base, r)
    case Update(_, _, _, _, _) => UpdateStep(db, base, r)
    case Delete(id) => DeleteStep(db, id)
    case Hosts(q) => HostStep(db, base, q)
    case AddNode(node) => (db.(nodes := db.nodes + {node}), Own.Done)
    case DeleteNode(node) =>
      (Db(map p | p in db.projects :: db.projects[p].(row := WithoutNode(db.projects[p].row, node)),
          db.aliases, db.nodes - {node}), Own.Done)
  }

  function Run(db: Db, base: string, rs: seq<Request>): Db
    decreases |rs|
  {
    if rs == [] then db else Run(Step(db, base, rs[0]).0, base, rs[1..])
  }

  // ---------------------------------------------------------------- what every run keeps

  predicate RowOk(r: Row) {
    Own.ValidPrefix(r.domainPrefix) && TcpRouteOk(r.(domainPrefix := ""))
  }

  /** Two projects share no subdomain, no TCP hostname and no pinned port. */
  predicate Compatible(a: Row, b: Row) {
    && a.domainPrefix != b.domainPrefix
    && (a.tcpPrefix.Some? ==> a.tcpPrefix != b.tcpPrefix)
    && (Pin(a).Some? ==> Pin(a) != Pin(b))
  }

  predicate Sound(db: Db) {
    && (forall p | p in db.projects :: RowOk(db.projects[p].row))
    && (forall p, q | p in db.projects && q in db.projects && p != q ::
          Compatible(db.projects[p].row, db.projects[q].row))
  }

  /** The checks leave a row that is compatible with every other project. */
  predicate Fits(db: Db, r: Row, id: nat) {
    forall q | q in db.projects && q != id :: Compatible(r, db.projects[q].row) && Compatible(db.projects[q].row, r)
  }

  lemma PutFits(db: Db, id: nat, e: Entry)
    requires Sound(db) && RowOk(e.row) && Fits(db, e.row, id)
    ensures Sound(Put(db, id, e))
  {
    hide RowOk, Compatible;
  }

  lemma ValidatedIsOk(kind: Own.Kind, fieldsOk: bool, r: Row)
    requires Validated(kind, fieldsOk, r).Some?
    ensures RowOk(Validated(kind, fieldsOk, r).value)
    ensures FixedOk(kind, Validated(kind, fieldsOk, r).value)
  {
    StoredRoute(kind, fieldsOk, r);
    hide Validated, Own.ValidPrefix;
  }

  lemma CreateKeepsSound(db: Db, base: string, r: Request)
    requires Sound(db) && r.Create?
    ensures Sound(CreateStep(db, base, r).0)
  {
    var v := Validated(r.kind, r.fieldsOk, r.row);
    hide Validated, NameTaken, AliasTaken;
    if CreateStep(db, base, r).1 == Own.Done {
      ValidatedIsOk(r.kind, r.fieldsOk, r.row);
      assert Fits(db, v.value, r.id) by {
        hide RowOk;
      }
      hide Sound, Fits, Conflicts, PinStatus, RouteStatus;
      PutFits(db, r.id, Entry(v.value, r.kind, r.owner));
    }
  }

  lemma UpdateKeepsSound(db: Db, base: string, r: Request)
    requires Sound(db) && r.Update?
    ensures Sound(UpdateStep(db, base, r).0)
  {
    hide Validated, NameTaken, AliasTaken;
    if UpdateStep(db, base, r).1 == Own.Done {
      var was := db.projects[r.id];
      var row := GatesOf(was.kind, r.fieldsOk, was.row, r.body).row;
      ValidatedIsOk(was.kind, r.fieldsOk, Patched(was.row, r.body));
      hide Patched;
      assert Fits(db, row, r.id) by {
        hide RowOk;
      }
      hide Sound, Fits, Conflicts, PinStatus, RouteStatus, GatesOf;
      PutFits(db, r.id, was.(row := row));
    }
  }

  /** Fewer projects, fewer pins, the same hostnames. */
  lemma ShrinkKeepsSound(db: Db, after: Db)
    requires Sound(db)
    requires forall p | p in after.projects ::
               && p in db.projects
               && (after.projects[p].row == db.projects[p].row
                   || exists node :: after.projects[p].row == WithoutNode(db.projects[p].row, node))
    ensures Sound(after)
  {
    hide Own.ValidPrefix;
  }

  lemma StepKeepsSound(db: Db, base: string, r: Request)
    requires Sound(db)
    ensures Sound(Step(db, base, r).0)
  {
    hide Sound, CreateStep, UpdateStep;
    if r.Create? {
      CreateKeepsSound(db, base, r);
    } else if r.Update? {
      UpdateKeepsSound(db, base, r);
    } else {
      ShrinkKeepsSound(db, Step(db, base, r).0);
    }
  }

  /** Over every run subdomains, TCP hostnames and pinned ports each belong to one project. */
  lemma {:induction false} RunKeepsSound(db: Db, base: string, rs: seq<Request>)
    requires Sound(db)
    ensures Sound(Run(db, base, rs))
    decreases |rs|
  {
    hide Sound, Step;
    if rs != [] {
      StepKeepsSound(db, base, rs[0]);
      RunKeepsSound(Step(db, base, rs[0]).0, base, rs[1..]);
    }
  }

  // ---------------------------------------------------------------- the same hosts as before

  /** The checks on fields that have nothing to do with subdomains and aliases. */
  predicate OthersOk(kind: Own.Kind, fieldsOk: bool, r: Row) {
    fieldsOk && FixedOk(kind, r) && TcpRoute(r).Some?
  }

  /** What an accepted request is to host ownership: one of its requests, or nothing. */
  function HostRequest(db: Db, r: Request): Option<Own.Request> {
    match r
    case Create(id, owner, kind, _, fieldsOk, _, row) =>
      Some(Own.CreateProject(id, owner, kind, row.name, row.domainPrefix, OthersOk(kind, fieldsOk, row)))
    case Update(id, allowed, _, fieldsOk, body) =>
      if id !in db.projects then None
      else
        var row := Patched(db.projects[id].row, body);
        Some(Own.UpdateProject(id, allowed, Some(row.name), Some(row.domainPrefix),
                               OthersOk(db.projects[id].kind, fieldsOk, row)))
    case Delete(id) => Some(Own.DeleteProject(id))
    case Hosts(q) => Some(q)
    case AddNode(_) => None
    case DeleteNode(_) => None
  }

  lemma ValidatedIsChecked(kind: Own.Kind, fieldsOk: bool, r: Row)
    ensures
      var v, prefix := Validated(kind, fieldsOk, r), Own.Checked(r.name, OthersOk(kind, fieldsOk, r), kind, r.domainPrefix);
      && (v.Some? <==> prefix.Some?)
      && (v.Some? ==> v.value.domainPrefix == prefix.value && v.value.name == r.name)
  {
    TcpRouteKeeps(r);
    hide Trim, TcpRoute, FixedOk, Own.ResolvePrefix;
  }

  lemma SameConflicts(db: Db, base: string, owner: nat, r: Row, id: nat, checkName: bool)
    ensures
      var hosts := HostView(db);
      Conflicts(db, base, owner, r, id, checkName) <==>
        || Own.PrefixTaken(hosts, r.domainPrefix, Some(id))
        || (base != "" && Own.HostAliased(hosts, Own.HostOf(r.domainPrefix, Lower(base)), Some(id)))
        || (checkName && Own.NameTaken(hosts, owner, r.name, Some(id)))
  {
    hide Own.HostOf, Lower;
    var hosts := HostView(db);
    assert hosts.projects.Keys == db.projects.Keys;
    assert forall p | p in db.projects :: hosts.projects[p].prefix == db.projects[p].row.domainPrefix;
  }

  lemma PutView(db: Db, id: nat, e: Entry)
    ensures
      HostView(Put(db, id, e)) ==
      HostView(db).(projects :=
        HostView(db).projects[id := Own.Project(e.row.name, e.owner, e.kind, e.row.domainPrefix)])
  {
  }

  lemma UpdateRefines(db: Db, base: string, r: Request)
    requires r.Update? && UpdateStep(db, base, r).1 == Own.Done
    ensures
      && HostRequest(db, r).Some?
      && Own.Step(HostView(db), base, HostRequest(db, r).value) == (HostView(UpdateStep(db, base, r).0), Own.Done)
  {
    var was := db.projects[r.id];
    var merged := Patched(was.row, r.body);
    var v := Validated(was.kind, r.fieldsOk, merged).value;
    ValidatedIsChecked(was.kind, r.fieldsOk, merged);
    SameConflicts(db, base, was.owner, v, r.id, v.name != was.row.name);
    PutView(db, r.id, was.(row := v));
    hide Validated, Patched, Own.Checked, Conflicts, Own.PrefixTaken, Own.HostAliased, Own.NameTaken, OthersOk;
    hide PinStatus, RouteStatus, Own.HostOf, Lower;
  }

  lemma NewIdExcludesNobody(hosts: Own.Db, id: nat, prefix: string, host: string, owner: nat, name: string)
    requires id !in hosts.projects && forall a | a in hosts.aliases :: hosts.aliases[a].project in hosts.projects
    ensures Own.PrefixTaken(hosts, prefix, Some(id)) <==> Own.PrefixTaken(hosts, prefix, None)
    ensures Own.HostAliased(hosts, host, Some(id)) <==> Own.HostAliased(hosts, host, None)
    ensures Own.NameTaken(hosts, owner, name, Some(id)) <==> Own.NameTaken(hosts, owner, name, None)
  {
  }

  lemma CreateRefines(db: Db, base: string, r: Request)
    requires r.Create? && CreateStep(db, base, r).1 == Own.Done
    requires forall a | a in db.aliases :: db.aliases[a].project in db.projects
    ensures
      && HostRequest(db, r).Some?
      && Own.Step(HostView(db), base, HostRequest(db, r).value) == (HostView(CreateStep(db, base, r).0), Own.Done)
  {
    var v := Validated(r.kind, r.fieldsOk, r.row).value;
    ValidatedIsChecked(r.kind, r.fieldsOk, r.row);
    SameConflicts(db, base, r.owner, v, r.id, true);
    NewIdExcludesNobody(HostView(db), r.id, v.domainPrefix, Own.HostOf(v.domainPrefix, Lower(base)), r.owner, v.name);
    PutView(db, r.id, Entry(v, r.kind, r.owner));
    hide Validated, Own.Checked, Conflicts, Own.PrefixTaken, Own.HostAliased, Own.NameTaken;
    hide OthersOk, PinStatus, RouteStatus;
    hide Own.HostOf, Lower;
  }

  lemma DeleteRefines(db: Db, id: nat)
    ensures Own.Delete(HostView(db), id) == (HostView(DeleteStep(db, id).0), DeleteStep(db, id).1)
  {
    assert HostView(DeleteStep(db, id).0).projects == HostView(db).projects - {id};
    if id !in db.projects {
      assert db.projects - {id} == db.projects;
    }
  }

  lemma AliasRefines(db: Db, base: string, q: Own.Request)
    requires q.CreateAlias? || q.DeleteAlias?
    ensures Own.Step(HostView(db), base, q) == (HostView(HostStep(db, base, q).0), HostStep(db, base, q).1)
  {
    hide Own.Norm, Own.AliasAccepted, Own.BaseSubPrefix, Own.PrefixTaken, Own.HostAliased, Own.MayManage;
    var after := HostStep(db, base, q).0;
    assert after.projects == db.projects;
    assert HostView(after).projects == HostView(db).projects;
  }

  lemma OwnerRefines(db: Db, base: string, q: Own.Request)
    requires q.ChangeOwner?
    ensures Own.Step(HostView(db), base, q) == (HostView(HostStep(db, base, q).0), HostStep(db, base, q).1)
  {
    hide Own.NameTaken;
    if q.id in db.projects && q.newOwner.Some? {
      var e := db.projects[q.id].(owner := q.newOwner.value);
      PutView(db, q.id, e);
      assert HostView(db).projects[q.id := HostView(db).projects[q.id]] == HostView(db).projects;
    }
  }

  lemma NodesAreInvisible(db: Db, base: string, r: Request)
    requires r.AddNode? || r.DeleteNode?
    ensures HostView(Step(db, base, r).0) == HostView(db)
  {
    var after := Step(db, base, r).0;
    assert after.projects.Keys == db.projects.Keys;
    assert HostView(after).projects == HostView(db).projects;
  }

  /**
   * Refinement: seen from host ownership, every step is one of its own steps or changes nothing, so the
   * columns of pinned ports and TCP routes cannot disturb who owns which host.
   */
  lemma StepRefinesHosts(db: Db, base: string, r: Request)
    requires Own.Inv(HostView(db), base)
    ensures
      var (after, status) := Step(db, base, r);
      || HostView(after) == HostView(db)
      || (HostRequest(db, r).Some? && Own.Step(HostView(db), base, HostRequest(db, r).value) == (HostView(after), status))
  {
    assert forall a | a in db.aliases :: db.aliases[a].project in db.projects;
    hide Own.Inv, Own.Step, HostView, Validated, GatesOf, Conflicts, PinStatus, RouteStatus;
    if r.Create? {
      if CreateStep(db, base, r).1 == Own.Done {
        CreateRefines(db, base, r);
      }
    } else if r.Update? {
      if UpdateStep(db, base, r).1 == Own.Done {
        UpdateRefines(db, base, r);
      }
    } else if r.Delete? {
      DeleteRefines(db, r.id);
      DeleteIsStep(HostView(db), base, r.id);
    } else if r.Hosts? {
      if r.request.CreateAlias? || r.request.DeleteAlias? {
        AliasRefines(db, base, r.request);
      } else if r.request.ChangeOwner? {
        OwnerRefines(db, base, r.request);
      }
    } else {
      NodesAreInvisible(db, base, r);
    }
  }

  lemma DeleteIsStep(hosts: Own.Db, base: string, id: nat)
    ensures Own.Step(hosts, base, Own.DeleteProject(id)) == Own.Delete(hosts, id)
  {
  }

  /** Over every run, no two projects claim the same host. */
  lemma {:induction false} RunKeepsHosts(db: Db, base: string, rs: seq<Request>)
    requires Own.Inv(HostView(db), base) && Own.Canonical(base)
    ensures Own.Inv(HostView(Run(db, base, rs)), base)
    decreases |rs|
  {
    if rs != [] {
      StepRefinesHosts(db, base, rs[0]);
      if HostRequest(db, rs[0]).Some? {
        Claims.StepKeepsInv(HostView(db), base, HostRequest(db, rs[0]).value);
      }
      hide Own.Inv, Step, HostView, HostRequest, Own.Step;
      RunKeepsHosts(Step(db, base, rs[0]).0, base, rs[1..]);
    }
  }

  // ---------------------------------------------------------------- short runs

  const NONE := Db(map[], map[], {})

  function Plain(name: string, prefix: string): Row {
    Row(name, prefix, None, None, None, None, None)
  }

  function Creating(id: nat, admin: bool, r: Row): Request {
    Create(id, 0, Own.Deployment, admin, true, true, r)
  }

  lemma PatchedOne(r: Row, m: Member)
    ensures Patched(r, [m]) == PatchOne(r, m)
  {
    assert [m][..0] == [];
  }

  lemma RunOfTwo(db: Db, base: string, a: Request, b: Request)
    ensures Run(db, base, [a, b]) == Step(Step(db, base, a).0, base, b).0
  {
    hide Step;
    var mid := Step(db, base, a).0;
    assert [a, b][1..] == [b] && [b][1..] == [];
    assert Run(db, base, [a, b]) == Run(mid, base, [b]);
    assert Run(mid, base, [b]) == Run(Step(mid, base, b).0, base, []);
  }

  lemma RunSnoc(db: Db, base: string, rs: seq<Request>, r: Request)
    ensures Run(db, base, rs + [r]) == Step(Run(db, base, rs), base, r).0
    decreases |rs|
  {
    hide Step;
    if rs == [] {
      assert [] + [r] == [r] && [r][1..] == [];
      assert Run(Step(db, base, r).0, base, []) == Step(db, base, r).0;
    } else {
      assert (rs + [r])[1..] == rs[1..] + [r];
      RunSnoc(Step(db, base, rs[0]).0, base, rs[1..], r);
    }
  }
}
