/**
 * The columns only an administrator may set, and what deleting a node does to the owner of a project
 * pinned there.
 */
module ProjectPins {
  import opened Wrappers
  import opened TextTools
  import opened ProjectMerge
  import opened ProjectStore
  import Own = HostOwnership

  // ---------------------------------------------------------------- the administrator's columns

  predicate SameGuarded(a: Row, b: Row) {
    !FixedDiffers(a, b) && !TcpDiffers(a, b)
  }

  predicate NoneGuarded(r: Row) {
    r.fixedPort == None && r.fixedNode == None && r.tcpPrefix == None && r.tcpPort == None
  }

  predicate ByOwner(r: Request) {
    (r.Create? || r.Update?) && !r.admin
  }

  /** Without an administrator the guarded columns of no project change, and a new one has none. */
  lemma OwnersSetNothing(db: Db, base: string, r: Request, p: nat)
    requires ByOwner(r) && p in Step(db, base, r).0.projects
    ensures
      var row := Step(db, base, r).0.projects[p].row;
      if p in db.projects then SameGuarded(row, db.projects[p].row) else NoneGuarded(row)
  {
    if r.Create? {
      var v := Validated(r.kind, r.fieldsOk, r.row);
      if v.Some? {
        ValidatedIsOk(r.kind, r.fieldsOk, r.row);
      }
    }
    hide Validated, Conflicts, PinTaken, HostnameTaken, Patched, Own.ValidPrefix;
  }

  /** Nor over any run of owners' requests. */
  lemma {:induction false} OwnersNeverSet(db: Db, base: string, rs: seq<Request>, p: nat)
    requires forall r | r in rs :: ByOwner(r)
    requires forall q | q in db.projects :: NoneGuarded(db.projects[q].row)
    requires p in Run(db, base, rs).projects
    ensures NoneGuarded(Run(db, base, rs).projects[p].row)
    decreases |rs|
  {
    if rs != [] {
      var next := Step(db, base, rs[0]).0;
      assert rs[0] in rs;
      forall q | q in next.projects
        ensures NoneGuarded(next.projects[q].row)
      {
        OwnersSetNothing(db, base, rs[0], q);
      }
      hide Step;
      assert forall r | r in rs[1..] :: r in rs;
      OwnersNeverSet(next, base, rs[1..], p);
    }
  }

  // ---------------------------------------------------------------- pins over every run

  /** A stored port is in range, and a stored node stands beside one; the node may be missing. */
  predicate PinOk(e: Entry) {
    && (e.row.fixedPort.Some? ==> 1024 <= e.row.fixedPort.value <= 65535 && !e.kind.DomainOnly?)
    && (e.row.fixedNode.Some? ==> e.row.fixedPort.Some? && e.row.fixedNode.value != NIL)
  }

  predicate PinsOk(db: Db) {
    forall p | p in db.projects :: PinOk(db.projects[p])
  }

  lemma StepKeepsPins(db: Db, base: string, r: Request)
    requires PinsOk(db)
    ensures PinsOk(Step(db, base, r).0)
  {
    if r.Create? && Validated(r.kind, r.fieldsOk, r.row).Some? {
      ValidatedIsOk(r.kind, r.fieldsOk, r.row);
    }
    if r.Update? && r.id in db.projects {
      var was := db.projects[r.id];
      if Validated(was.kind, r.fieldsOk, Patched(was.row, r.body)).Some? {
        ValidatedIsOk(was.kind, r.fieldsOk, Patched(was.row, r.body));
      }
    }
    hide Validated, Patched, Conflicts, PinStatus, RouteStatus, RowOk, HostView, Own.Step, Own.Delete;
  }

  lemma {:induction false} RunKeepsPins(db: Db, base: string, rs: seq<Request>)
    requires PinsOk(db)
    ensures PinsOk(Run(db, base, rs))
    decreases |rs|
  {
    hide PinsOk, Step;
    if rs != [] {
      StepKeepsPins(db, base, rs[0]);
      RunKeepsPins(Step(db, base, rs[0]).0, base, rs[1..]);
    }
  }

  // ---------------------------------------------------------------- when an owner can save the rest

  /** The update names no guarded column. */
  predicate LeavesAlone(body: seq<Member>) {
    forall m | m in body :: m.Name? || m.PinnedNode? || m.DomainPrefix?
  }

  /** Every check but the one on the pinned port, for a body that leaves the guarded columns alone. */
  predicate OthersPass(db: Db, base: string, r: Request)
    requires r.Update? && r.id in db.projects
  {
    var was := db.projects[r.id];
    var row := Patched(was.row, r.body);
    var prefix := Own.ResolvePrefix(was.kind, row.name, row.domainPrefix);
    && r.fieldsOk && Trim(row.name) != "" && prefix.Some?
    && (row.domainPrefix == "" || row.tcpPrefix != Some(row.domainPrefix))
    && !Conflicts(db, base, was.owner, row.(domainPrefix := prefix.value), r.id, row.name != was.row.name)
  }

  /** The stored pin is whole or absent. */
  predicate WholePin(r: Row) {
    r.fixedPort.Some? == r.fixedNode.Some?
  }

  lemma RestIsValid(kind: Own.Kind, fieldsOk: bool, r: Row)
    requires TcpRouteOk(r.(domainPrefix := "")) && PinOk(Entry(r, kind, 0))
    requires fieldsOk && Trim(r.name) != "" && Own.ResolvePrefix(kind, r.name, r.domainPrefix).Some?
    requires r.domainPrefix == "" || r.tcpPrefix != Some(r.domainPrefix)
    ensures
      Validated(kind, fieldsOk, r) ==
      if WholePin(r) then Some(r.(domainPrefix := Own.ResolvePrefix(kind, r.name, r.domainPrefix).value)) else None
  {
    TcpRouteNormalises(r);
    hide Trim, TcpRoute, Own.ResolvePrefix, Own.ValidPrefix;
    assert TcpRouteOk(r);
  }

  /**
   * In every reachable state an owner's update that leaves the guarded columns alone and passes the other
   * checks is stored if and only if the stored pin is whole; it is a bad request otherwise.
   */
  lemma OwnerSavesIff(db: Db, base: string, r: Request)
    requires Sound(db) && PinsOk(db)
    requires r.Update? && r.allowed && !r.admin && r.id in db.projects
    requires LeavesAlone(r.body) && OthersPass(db, base, r)
    ensures
      var (after, status) := Step(db, base, r);
      && (status == Own.Done <==> WholePin(db.projects[r.id].row))
      && (status != Own.Done ==> status == Own.BadRequest)
      && (status == Own.Done ==> r.id in after.projects && SameGuarded(after.projects[r.id].row, db.projects[r.id].row))
  {
    var was := db.projects[r.id];
    var row := Patched(was.row, r.body);
    PatchedKeepsRoutes(was.row, r.body);
    assert TcpRouteOk(row.(domainPrefix := "")) by {
      assert RowOk(was.row);
      hide Own.ValidPrefix;
    }
    assert PinOk(Entry(row, was.kind, 0));
    RestIsValid(was.kind, r.fieldsOk, row);
    assert IllTyped !in r.body;
    hide Validated, Patched, Conflicts, Own.ResolvePrefix, Sound, PinsOk, Trim, TcpRouteOk, PinOk;
  }

  // ---------------------------------------------------------------- locked out

  lemma HalfPinRefuses(db: Db, base: string, r: Request)
    requires ByOwner(r) && r.Update? && r.id in db.projects && !WholePin(db.projects[r.id].row)
    ensures Step(db, base, r).1 != Own.Done && Step(db, base, r).0 == db
  {
    var was := db.projects[r.id];
    var merged := Patched(was.row, r.body);
    if Validated(was.kind, r.fieldsOk, merged).Some? {
      ValidatedIsOk(was.kind, r.fieldsOk, merged);
    }
    hide Validated, Patched, Conflicts, RouteStatus, RowOk;
  }

  lemma OtherProjectStays(db: Db, base: string, r: Request, p: nat)
    requires ByOwner(r) && p in db.projects && (r.Update? ==> r.id != p)
    ensures p in Step(db, base, r).0.projects && Step(db, base, r).0.projects[p] == db.projects[p]
  {
    hide Validated, Patched, Conflicts, RouteStatus, PinStatus;
  }

  /** A project with half a pin stays as it is over every run of owners' requests. */
  lemma {:induction false} HalfPinFreezes(db: Db, base: string, rs: seq<Request>, p: nat)
    requires forall r | r in rs :: ByOwner(r)
    requires p in db.projects && !WholePin(db.projects[p].row)
    ensures p in Run(db, base, rs).projects && Run(db, base, rs).projects[p] == db.projects[p]
    decreases |rs|
  {
    if rs != [] {
      assert rs[0] in rs;
      if rs[0].Update? && rs[0].id == p {
        HalfPinRefuses(db, base, rs[0]);
      } else {
        OtherProjectStays(db, base, rs[0], p);
      }
      hide Step, WholePin;
      assert forall r | r in rs[1..] :: r in rs;
      HalfPinFreezes(Step(db, base, rs[0]).0, base, rs[1..], p);
    }
  }

  /**
   * Deleting a node leaves half a pin with every project pinned there, so from then on their owners' requests
   * change nothing about them.
   */
  lemma NodeDeletionLocksOut(db: Db, base: string, node: nat, rs: seq<Request>, p: nat)
    requires forall r | r in rs :: ByOwner(r)
    requires p in db.projects && db.projects[p].row.fixedNode == Some(node) && db.projects[p].row.fixedPort.Some?
    ensures
      var cut := Step(db, base, DeleteNode(node)).0;
      && p in cut.projects && p in Run(cut, base, rs).projects
      && Run(cut, base, rs).projects[p] == cut.projects[p]
  {
    HalfPinFreezes(Step(db, base, DeleteNode(node)).0, base, rs, p);
  }

  // ---------------------------------------------------------------- such a run

  function Pinned(name: string, node: nat, port: int): Row {
    Plain(name, name).(fixedPort := Some(port), fixedNode := Some(node))
  }

  function PinRun(name: string, node: nat, port: int): seq<Request> {
    [AddNode(node), Creating(1, true, Pinned(name, node, port))]
  }

  /** The owner renames the project and touches nothing else. */
  function Rename(name: string): Request {
    Update(1, true, false, true, [Name(name)])
  }

  lemma PinnedRow(name: string, node: nat, port: int)
    requires Own.ValidPrefix(name) && 1024 <= port <= 65535 && node != NIL
    ensures Validated(Own.Deployment, true, Pinned(name, node, port)) == Some(Pinned(name, node, port))
  {
    LabelIsTrimmed(name);
    TcpRouteNormalises(Pinned(name, node, port));
    hide Trim, TcpRoute, Own.ValidPrefix;
    assert name != "" by {
      assert !Own.ValidPrefix("");
    }
  }

  lemma AfterPinRun(base: string, name: string, node: nat, port: int)
    requires Own.ValidPrefix(name) && 1024 <= port <= 65535 && node != NIL
    ensures Run(NONE, base, PinRun(name, node, port)) ==
            Db(map[1 := Entry(Pinned(name, node, port), Own.Deployment, 0)], map[], {node})
  {
    var first, second := AddNode(node), Creating(1, true, Pinned(name, node, port));
    PinnedRow(name, node, port);
    RunOfTwo(NONE, base, first, second);
    hide Validated, Own.ValidPrefix, Run;
    assert Step(NONE, base, first).0 == NONE.(nodes := {node});
  }

  lemma RenamePasses(base: string, db: Db, name: string, next: string)
    requires db.projects.Keys == {1} && db.projects[1].kind.Deployment? && db.projects[1].owner == 0 && db.aliases == map[]
    requires Own.ValidPrefix(name) && Trim(next) != ""
    requires db.projects[1].row.domainPrefix == name && db.projects[1].row.tcpPrefix == None
    ensures LeavesAlone(Rename(next).body) && OthersPass(db, base, Rename(next))
  {
    PatchedOne(db.projects[1].row, Name(next));
    assert name != "";
    hide Patched, Own.ValidPrefix, Trim, Own.HostOf;
  }

  /**
   * From the empty store: a node, a project an administrator pins there, and the node's deletion. Before the
   * deletion the owner's rename is stored, after it the same rename is a bad request.
   */
  lemma LockedOutReachable(base: string, name: string, node: nat, port: int, next: string)
    requires Own.ValidPrefix(name) && 1024 <= port <= 65535 && node != NIL && Trim(next) != ""
    ensures
      var before := Run(NONE, base, PinRun(name, node, port));
      var after := Run(NONE, base, PinRun(name, node, port) + [DeleteNode(node)]);
      && Step(before, base, Rename(next)).1 == Own.Done
      && Step(after, base, Rename(next)).1 == Own.BadRequest
  {
    var rs := PinRun(name, node, port);
    var before := Run(NONE, base, rs);
    var after := Run(NONE, base, rs + [DeleteNode(node)]);
    AfterPinRun(base, name, node, port);
    RunSnoc(NONE, base, rs, DeleteNode(node));
    RunKeepsSound(NONE, base, rs);
    RunKeepsSound(NONE, base, rs + [DeleteNode(node)]);
    RunKeepsPins(NONE, base, rs);
    RunKeepsPins(NONE, base, rs + [DeleteNode(node)]);
    RenamePasses(base, before, name, next);
    RenamePasses(base, after, name, next);
    assert WholePin(before.projects[1].row) && !WholePin(after.projects[1].row);
    hide Run, Step, Sound, PinsOk, OthersPass, Own.ValidPrefix, Trim, LeavesAlone, WholePin;
    OwnerSavesIff(before, base, Rename(next));
    OwnerSavesIff(after, base, Rename(next));
  }
}
