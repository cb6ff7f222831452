/**
 * Merging a partial update into a stored project. Optional columns are pointers, and decoding JSON
 * into a non-nil pointer writes through it, so the merge first gives the copy pointers of its own.
 */
module ProjectMerge {
  import opened Wrappers
  import opened TextTools
  import Own = HostOwnership

  class Box<T> {
    var value: T

    constructor (value: T)
      ensures this.value == value
    {
      this.value := value;
    }
  }

  class Project {
    var name: string
    var domainPrefix: string
    var pinnedNode: Box?<nat>
    var fixedPort: Box?<int>
    var fixedNode: Box?<nat>
    var tcpPrefix: Box?<string>
    var tcpPort: Box?<int>

    constructor Copy(p: Project)
      ensures name == p.name && domainPrefix == p.domainPrefix
      ensures pinnedNode == p.pinnedNode && fixedPort == p.fixedPort && fixedNode == p.fixedNode
      ensures tcpPrefix == p.tcpPrefix && tcpPort == p.tcpPort
    {
      name, domainPrefix := p.name, p.domainPrefix;
      pinnedNode, fixedPort, fixedNode := p.pinnedNode, p.fixedPort, p.fixedNode;
      tcpPrefix, tcpPort := p.tcpPrefix, p.tcpPort;
    }

    ghost function Pointers(): set<object>
      reads this
    {
      Only(pinnedNode) + Only(fixedPort) + Only(fixedNode) + Only(tcpPrefix) + Only(tcpPort)
    }

    /** No two optional columns share a pointer. */
    ghost predicate Separate()
      reads this
    {
      Distinct(fixedPort, tcpPort) && Distinct(pinnedNode, fixedNode)
    }

    ghost function Values(): Row
      reads this, Pointers()
    {
      Row(name, domainPrefix, Follow(pinnedNode), Follow(fixedPort), Follow(fixedNode), Follow(tcpPrefix), Follow(tcpPort))
    }

    method DecodePinnedNode(v: Option<nat>)
      requires Separate()
      modifies this`pinnedNode, pinnedNode
      ensures Separate() && Values() == old(Values()).(pinnedNode := v)
      ensures
        if v.Some? && old(pinnedNode) != null then pinnedNode == old(pinnedNode) else pinnedNode == null || fresh(pinnedNode)
    {
      var b := DecodeInto(pinnedNode, v);
      pinnedNode := b;
    }

    method DecodeFixedPort(v: Option<int>)
      requires Separate()
      modifies this`fixedPort, fixedPort
      ensures Separate() && Values() == old(Values()).(fixedPort := v)
      ensures
        if v.Some? && old(fixedPort) != null then fixedPort == old(fixedPort) else fixedPort == null || fresh(fixedPort)
    {
      var b := DecodeInto(fixedPort, v);
      fixedPort := b;
    }

    method DecodeFixedNode(v: Option<nat>)
      requires Separate()
      modifies this`fixedNode, fixedNode
      ensures Separate() && Values() == old(Values()).(fixedNode := v)
      ensures
        if v.Some? && old(fixedNode) != null then fixedNode == old(fixedNode) else fixedNode == null || fresh(fixedNode)
    {
      var b := DecodeInto(fixedNode, v);
      fixedNode := b;
    }

    method DecodeTcpPrefix(v: Option<string>)
      requires Separate()
      modifies this`tcpPrefix, tcpPrefix
      ensures Separate() && Values() == old(Values()).(tcpPrefix := v)
      ensures
        if v.Some? && old(tcpPrefix) != null then tcpPrefix == old(tcpPrefix) else tcpPrefix == null || fresh(tcpPrefix)
    {
      var b := DecodeInto(tcpPrefix, v);
      tcpPrefix := b;
    }

    method DecodeTcpPort(v: Option<int>)
      requires Separate()
      modifies this`tcpPort, tcpPort
      ensures Separate() && Values() == old(Values()).(tcpPort := v)
      ensures
        if v.Some? && old(tcpPort) != null then tcpPort == old(tcpPort) else tcpPort == null || fresh(tcpPort)
    {
      var b := DecodeInto(tcpPort, v);
      tcpPort := b;
    }

    method DetachPinnedNode()
      modifies this`pinnedNode
      ensures Values() == old(Values())
      ensures pinnedNode == null || fresh(pinnedNode)
    {
      var dup := Detach(pinnedNode);
      pinnedNode := dup;
    }

    method DetachFixedPort()
      modifies this`fixedPort
      ensures Values() == old(Values())
      ensures fixedPort == null || fresh(fixedPort)
    {
      var dup := Detach(fixedPort);
      fixedPort := dup;
    }

    method DetachFixedNode()
      modifies this`fixedNode
      ensures Values() == old(Values())
      ensures fixedNode == null || fresh(fixedNode)
    {
      var dup := Detach(fixedNode);
      fixedNode := dup;
    }

    method DetachTcpPrefix()
      modifies this`tcpPrefix
      ensures Values() == old(Values())
      ensures tcpPrefix == null || fresh(tcpPrefix)
    {
      var dup := Detach(tcpPrefix);
      tcpPrefix := dup;
    }

    method DetachTcpPort()
      modifies this`tcpPort
      ensures Values() == old(Values())
      ensures tcpPort == null || fresh(tcpPort)
    {
      var dup := Detach(tcpPort);
      tcpPort := dup;
    }
  }

  ghost function Only<T>(b: Box?<T>): set<object> {
    if b == null then {} else {b}
  }

  ghost predicate Distinct<T>(a: Box?<T>, b: Box?<T>) {
    a != null ==> a != b
  }

  ghost function Follow<T>(b: Box?<T>): Option<T>
    reads b
  {
    if b == null then None else Some(b.value)
  }

  /** The project as values. */
  datatype Row = Row(
    name: string, domainPrefix: string, pinnedNode: Option<nat>,
    fixedPort: Option<int>, fixedNode: Option<nat>, tcpPrefix: Option<string>, tcpPort: Option<int>)

  /** One member of the JSON body; repeated members apply in order, an ill-typed one is reported at the end. */
  datatype Member =
    | Name(string)
    | DomainPrefix(string)
    | PinnedNode(Option<nat>)
    | FixedPort(Option<int>)
    | FixedNode(Option<nat>)
    | TcpPrefix(Option<string>)
    | TcpPort(Option<int>)
    | IllTyped

  function PatchOne(r: Row, m: Member): Row {
    match m
    case Name(s) => r.(name := s)
    case DomainPrefix(s) => r.(domainPrefix := s)
    case PinnedNode(v) => r.(pinnedNode := v)
    case FixedPort(v) => r.(fixedPort := v)
    case FixedNode(v) => r.(fixedNode := v)
    case TcpPrefix(v) => r.(tcpPrefix := v)
    case TcpPort(v) => r.(tcpPort := v)
    case IllTyped => r
  }

  function Patched(r: Row, body: seq<Member>): Row {
    if body == [] then r else PatchOne(Patched(r, body[..|body| - 1]), body[|body| - 1])
  }

  // ---------------------------------------------------------------- what patching means, column by column

  datatype Column = NameCol | PrefixCol | PinCol | PortCol | NodeCol | TcpPrefixCol | TcpPortCol

  datatype Cell = Text(string) | OptText(Option<string>) | OptNumber(Option<int>)

  function CellOf(r: Row, c: Column): Cell {
    match c
    case NameCol => Text(r.name)
    case PrefixCol => Text(r.domainPrefix)
    case PinCol => OptNumber(r.pinnedNode)
    case PortCol => OptNumber(r.fixedPort)
    case NodeCol => OptNumber(r.fixedNode)
    case TcpPrefixCol => OptText(r.tcpPrefix)
    case TcpPortCol => OptNumber(r.tcpPort)
  }

  /** The column a member names and what it puts there. */
  function Says(m: Member): Option<(Column, Cell)> {
    match m
    case Name(s) => Some((NameCol, Text(s)))
    case DomainPrefix(s) => Some((PrefixCol, Text(s)))
    case PinnedNode(v) => Some((PinCol, OptNumber(v)))
    case FixedPort(v) => Some((PortCol, OptNumber(v)))
    case FixedNode(v) => Some((NodeCol, OptNumber(v)))
    case TcpPrefix(v) => Some((TcpPrefixCol, OptText(v)))
    case TcpPort(v) => Some((TcpPortCol, OptNumber(v)))
    case IllTyped => None
  }

  /** The last thing a body says about a column. */
  function LastSaid(body: seq<Member>, c: Column): Option<Cell> {
    if body == [] then None
    else
      var said := Says(body[|body| - 1]);
      if said.Some? && said.value.0 == c then Some(said.value.1) else LastSaid(body[..|body| - 1], c)
  }

  /** Fields the body names take its last value, fields it does not name keep the stored one. */
  lemma {:induction false} PatchedColumn(r: Row, body: seq<Member>, c: Column)
    ensures CellOf(Patched(r, body), c) == if LastSaid(body, c).Some? then LastSaid(body, c).value else CellOf(r, c)
    decreases |body|
  {
    if body != [] {
      PatchedColumn(r, body[..|body| - 1], c);
    }
  }

  // ---------------------------------------------------------------- decoding

  /** What decoding one pointer column does: null clears it, a value goes through an existing pointer. */
  method DecodeInto<T>(at: Box?<T>, v: Option<T>) returns (b: Box?<T>)
    modifies at
    ensures Follow(b) == v
    ensures if v.Some? && at != null then b == at else b == null || fresh(b)
    ensures v.None? && at != null ==> unchanged(at)
  {
    if v.None? {
      return null;
    }
    if at == null {
      b := new Box(v.value);
    } else {
      at.value := v.value;
      b := at;
    }
  }

  method DecodeMember(p: Project, m: Member)
    requires p.Separate()
    modifies p, p.Pointers()
    ensures p.Separate() && p.Values() == PatchOne(old(p.Values()), m)
    ensures forall o | o in p.Pointers() :: o in old(p.Pointers()) || fresh(o)
  {
    match m
    case Name(s) => p.name := s;
    case DomainPrefix(s) => p.domainPrefix := s;
    case PinnedNode(v) => p.DecodePinnedNode(v);
    case FixedPort(v) => p.DecodeFixedPort(v);
    case FixedNode(v) => p.DecodeFixedNode(v);
    case TcpPrefix(v) => p.DecodeTcpPrefix(v);
    case TcpPort(v) => p.DecodeTcpPort(v);
    case IllTyped =>
  }

  method Decode(p: Project, body: seq<Member>) returns (ok: bool)
    requires p.Separate()
    modifies p, p.Pointers()
    ensures ok <==> IllTyped !in body
    ensures p.Separate() && p.Values() == Patched(old(p.Values()), body)
    ensures forall o | o in p.Pointers() :: o in old(p.Pointers()) || fresh(o)
  {
    ok := true;
    for i := 0 to |body|
      invariant ok <==> IllTyped !in body[..i]
      invariant p.Separate() && p.Values() == Patched(old(p.Values()), body[..i])
      invariant forall o | o in p.Pointers() :: o in old(p.Pointers()) || fresh(o)
    {
      DecodeMember(p, body[i]);
      if body[i].IllTyped? {
        ok := false;
      }
      assert body[..i + 1][..i] == body[..i];
      assert body[..i + 1] == body[..i] + [body[i]];
    }
    assert body[..|body|] == body;
  }

  // ---------------------------------------------------------------- the merge

  method Detach<T>(b: Box?<T>) returns (dup: Box?<T>)
    ensures Follow(dup) == Follow(b)
    ensures dup != null ==> fresh(dup)
  {
    dup := null;
    if b != null {
      dup := new Box(b.value);
    }
  }

  method DetachPointerFields(p: Project)
    modifies p
    ensures p.Values() == old(p.Values()) && p.Separate()
    ensures fresh(p.Pointers())
  {
    hide Follow;
    p.DetachPinnedNode();
    p.DetachFixedPort();
    p.DetachFixedNode();
    p.DetachTcpPrefix();
    p.DetachTcpPort();
  }

  /** Modifies nothing that existed before: every value reachable from the stored project stays as it was. */
  method MergeProjectUpdate(existing: Project, body: seq<Member>) returns (merged: Option<Project>)
    ensures merged.Some? <==> IllTyped !in body
    ensures merged.Some? ==>
      && fresh(merged.value) && fresh(merged.value.Pointers()) && merged.value.Separate()
      && merged.value.Values() == Patched(existing.Values(), body)
    ensures existing.Values() == old(existing.Values())
  {
    var p := new Project.Copy(existing);
    assert p.Values() == existing.Values();
    DetachPointerFields(p);
    var ok := Decode(p, body);
    merged := if ok then Some(p) else None;
  }

  // ---------------------------------------------------------------- change detection

  function SamePointee<T(==)>(a: Box?<T>, b: Box?<T>): bool
    reads a, b
  {
    if a == null || b == null then a == null && b == null else a.value == b.value
  }

  predicate FixedPortChanged(existing: Project, updated: Project)
    reads existing, updated, existing.fixedPort, existing.fixedNode, updated.fixedPort, updated.fixedNode
  {
    !SamePointee(existing.fixedPort, updated.fixedPort) || !SamePointee(existing.fixedNode, updated.fixedNode)
  }

  predicate TcpRouteChanged(existing: Project, updated: Project)
    reads existing, updated, existing.tcpPrefix, existing.tcpPort, updated.tcpPrefix, updated.tcpPort
  {
    !SamePointee(existing.tcpPrefix, updated.tcpPrefix) || !SamePointee(existing.tcpPort, updated.tcpPort)
  }

  // ---------------------------------------------------------------- the TCP route

  /** `validateTCPRoute` on values: the normalised row, or None when it is refused. */
  function TcpRoute(r: Row): Option<Row> {
    var prefix := if r.tcpPrefix.Some? then Trim(r.tcpPrefix.value) else "";
    var port := if r.tcpPort.Some? then r.tcpPort.value else 0;
    if prefix == "" && port == 0 then Some(r.(tcpPrefix := None, tcpPort := None))
    else if prefix == "" || port == 0 then None
    else if port < 1 || port > 65535 then None
    else if !Own.ValidPrefix(prefix) then None
    else if r.domainPrefix != "" && prefix == r.domainPrefix then None
    else Some(r.(tcpPrefix := Some(prefix), tcpPort := Some(port)))
  }

  /** Either no route at all or a complete one on a valid hostname that is not the project's own. */
  predicate TcpRouteOk(r: Row) {
    || (r.tcpPrefix == None && r.tcpPort == None)
    || (&& r.tcpPrefix.Some? && r.tcpPort.Some?
        && Own.ValidPrefix(r.tcpPrefix.value) && 1 <= r.tcpPort.value <= 65535
        && r.tcpPrefix.value != r.domainPrefix)
  }

  lemma LabelIsTrimmed(s: string)
    requires Own.IsLabel(s)
    ensures Trim(s) == s
  {
    TrimmedStays(s);
  }

  /** What is accepted is well formed, and exactly the well-formed rows are accepted unchanged. */
  lemma TcpRouteNormalises(r: Row)
    ensures TcpRoute(r).Some? ==> TcpRouteOk(TcpRoute(r).value)
    ensures TcpRoute(r) == Some(r) <==> TcpRouteOk(r)
  {
    if r.tcpPrefix.Some? && Own.ValidPrefix(r.tcpPrefix.value) {
      LabelIsTrimmed(r.tcpPrefix.value);
    }
    hide Trim;
  }

  method ValidateTcpRoute(p: Project) returns (ok: bool)
    modifies p`tcpPrefix, p`tcpPort
    ensures ok <==> TcpRoute(old(p.Values())).Some?
    ensures p.Values() == if ok then TcpRoute(old(p.Values())).value else old(p.Values())
    ensures !ok ==> p.tcpPrefix == old(p.tcpPrefix) && p.tcpPort == old(p.tcpPort)
  {
    hide Trim, Own.ValidPrefix;
    var prefix, port := "", 0;
    if p.tcpPrefix != null {
      prefix := Trim(p.tcpPrefix.value);
    }
    if p.tcpPort != null {
      port := p.tcpPort.value;
    }
    if prefix == "" && port == 0 {
      p.tcpPrefix, p.tcpPort := null, null;
      return true;
    }
    if prefix == "" || port == 0 || port < 1 || port > 65535 || !Own.ValidPrefix(prefix) {
      return false;
    }
    if p.domainPrefix != "" && prefix == p.domainPrefix {
      return false;
    }
    var prefixBox := new Box(prefix);
    var portBox := new Box(port);
    p.tcpPrefix, p.tcpPort := prefixBox, portBox;
    return true;
  }

  // ---------------------------------------------------------------- validation

  /** The zero identifier, which is no node. */
  const NIL: nat := 0

  /** `validateFixedPort`: both columns or neither, in range, and only where a container runs. */
  predicate FixedOk(kind: Own.Kind, r: Row) {
    && r.fixedPort.Some? == r.fixedNode.Some?
    && (r.fixedPort.Some? ==>
          1024 <= r.fixedPort.value <= 65535 && r.fixedNode.value != NIL && !kind.DomainOnly?)
  }

  /**
   * `validateProject` on values: the row to store, or None. The hostname of the TCP route is compared
   * with the prefix as given, before an omitted prefix becomes the name. `fieldsOk` stands for the
   * checks on all other fields.
   */
  function Validated(kind: Own.Kind, fieldsOk: bool, r: Row): Option<Row> {
    if !fieldsOk || Trim(r.name) == "" || !FixedOk(kind, r) || TcpRoute(r).None? then None
    else
      match Own.ResolvePrefix(kind, r.name, r.domainPrefix)
      case Some(prefix) => Some(TcpRoute(r).value.(domainPrefix := prefix))
      case None => None
  }

  method ValidateFixedPort(kind: Own.Kind, p: Project) returns (ok: bool)
    ensures ok <==> FixedOk(kind, p.Values())
  {
    if (p.fixedPort != null) != (p.fixedNode != null) {
      return false;
    }
    if p.fixedPort == null {
      return true;
    }
    return 1024 <= p.fixedPort.value <= 65535 && p.fixedNode.value != NIL && !kind.DomainOnly?;
  }

  method ValidateProject(kind: Own.Kind, fieldsOk: bool, p: Project) returns (ok: bool)
    modifies p`tcpPrefix, p`tcpPort, p`domainPrefix
    ensures ok <==> Validated(kind, fieldsOk, old(p.Values())).Some?
    ensures ok ==> p.Values() == Validated(kind, fieldsOk, old(p.Values())).value
  {
    hide Trim, TcpRoute, Own.ResolvePrefix;
    if !fieldsOk || Trim(p.name) == "" {
      return false;
    }
    var fixedOk := ValidateFixedPort(kind, p);
    if !fixedOk {
      return false;
    }
    var given := p.domainPrefix;
    var routeOk := ValidateTcpRoute(p);
    if !routeOk {
      return false;
    }
    TcpRouteKeeps(old(p.Values()));
    var prefix := Own.ResolvePrefix(kind, p.name, given);
    if prefix.None? {
      return false;
    }
    p.domainPrefix := prefix.value;
    return true;
  }

  lemma TcpRouteKeeps(r: Row)
    ensures
      TcpRoute(r).Some? ==>
        var t := TcpRoute(r).value;
        && t.name == r.name && t.domainPrefix == r.domainPrefix && t.pinnedNode == r.pinnedNode
        && t.fixedPort == r.fixedPort && t.fixedNode == r.fixedNode
  {
    hide Trim, Own.ValidPrefix;
  }

  /**
   * A stored route is complete and valid; its hostname is the project's own exactly when the prefix was
   * omitted and the name, which replaced it, is that hostname.
   */
  lemma StoredRoute(kind: Own.Kind, fieldsOk: bool, r: Row)
    requires Validated(kind, fieldsOk, r).Some?
    ensures
      var v := Validated(kind, fieldsOk, r).value;
      && Own.ValidPrefix(v.domainPrefix) && FixedOk(kind, v)
      && TcpRouteOk(v.(domainPrefix := r.domainPrefix))
      && (v.tcpPrefix == Some(v.domainPrefix) <==> r.domainPrefix == "" && v.tcpPrefix == Some(r.name))
      && (r.domainPrefix != "" ==> v.domainPrefix == r.domainPrefix)
  {
    TcpRouteNormalises(r);
    TcpRouteKeeps(r);
    assert !Own.ValidPrefix("");
    assert Validated(kind, fieldsOk, r).value.(domainPrefix := r.domainPrefix) == TcpRoute(r).value;
    hide Trim, TcpRoute, Own.IsLabel;
  }

  // ---------------------------------------------------------------- the gates of an update

  datatype Gates = Refused | Checked(row: Row, fixedPort: bool, tcpRoute: bool)

  predicate FixedDiffers(a: Row, b: Row) {
    a.fixedPort != b.fixedPort || a.fixedNode != b.fixedNode
  }

  predicate TcpDiffers(a: Row, b: Row) {
    a.tcpPrefix != b.tcpPrefix || a.tcpPort != b.tcpPort
  }

  /** The row an update would store, and which administrator checks it triggers, from the stored row and the body. */
  function GatesOf(kind: Own.Kind, fieldsOk: bool, stored: Row, body: seq<Member>): Gates {
    var v := Validated(kind, fieldsOk, Patched(stored, body));
    if IllTyped in body || v.None? then Refused
    else Checked(v.value, FixedDiffers(stored, v.value), TcpDiffers(stored, v.value))
  }

  /** Merge, validate, compare: each check fires exactly when the merged value differs from the stored one. */
  method UpdateGates(kind: Own.Kind, fieldsOk: bool, existing: Project, body: seq<Member>)
      returns (gates: Gates, merged: Option<Project>)
    ensures gates == GatesOf(kind, fieldsOk, existing.Values(), body)
    ensures gates.Checked? ==> merged.Some? && fresh(merged.value) && merged.value.Values() == gates.row
    ensures existing.Values() == old(existing.Values())
  {
    merged := MergeProjectUpdate(existing, body);
    if merged.None? {
      return Refused, None;
    }
    hide Patched, Validated;
    var p := merged.value;
    var ok := ValidateProject(kind, fieldsOk, p);
    if !ok {
      return Refused, None;
    }
    var changedPort, changedRoute := FixedPortChanged(existing, p), TcpRouteChanged(existing, p);
    gates := Checked(Snapshot(p), changedPort, changedRoute);
  }

  /** Reads the columns off. */
  function Snapshot(p: Project): (r: Row)
    reads p, p.pinnedNode, p.fixedPort, p.fixedNode, p.tcpPrefix, p.tcpPort
    ensures r == p.Values()
  {
    Row(p.name, p.domainPrefix, Load(p.pinnedNode), Load(p.fixedPort), Load(p.fixedNode), Load(p.tcpPrefix), Load(p.tcpPort))
  }

  function Load<T>(b: Box?<T>): (v: Option<T>)
    reads b
    ensures v == Follow(b)
  {
    if b == null then None else Some(b.value)
  }

  /** A body that leaves the guarded columns alone triggers no check for them. */
  lemma {:induction false} UntouchedTriggersNothing(kind: Own.Kind, fieldsOk: bool, stored: Row, body: seq<Member>)
    requires TcpRouteOk(stored)
    requires forall m | m in body :: m.Name? || m.PinnedNode? || m.DomainPrefix?
    ensures
      var gates := GatesOf(kind, fieldsOk, stored, body);
      gates.Checked? ==> !gates.fixedPort && !gates.tcpRoute
  {
    var p := Patched(stored, body);
    PatchedKeepsRoutes(stored, body);
    TcpRouteKeeps(p);
    RouteAsStored(p);
    hide Patched, TcpRoute, Own.ValidPrefix, Trim, Own.ResolvePrefix;
  }

  /** A route that is stored already passes unchanged or not at all. */
  lemma RouteAsStored(r: Row)
    requires TcpRouteOk(r.(domainPrefix := ""))
    ensures TcpRoute(r).Some? ==> TcpRoute(r).value == r
  {
    if r.tcpPrefix.Some? {
      LabelIsTrimmed(r.tcpPrefix.value);
    }
  }

  lemma {:induction false} PatchedKeepsRoutes(r: Row, body: seq<Member>)
    requires forall m | m in body :: m.Name? || m.PinnedNode? || m.DomainPrefix?
    ensures
      var p := Patched(r, body);
      && p.fixedPort == r.fixedPort && p.fixedNode == r.fixedNode
      && p.tcpPrefix == r.tcpPrefix && p.tcpPort == r.tcpPort
    decreases |body|
  {
    if body != [] {
      assert forall m | m in body[..|body| - 1] :: m in body;
      assert body[|body| - 1] in body;
      PatchedKeepsRoutes(r, body[..|body| - 1]);
    }
  }

  // ---------------------------------------------------------------- why the pointers are detached

  /**
   * The merge without detaching, for a body that sets the TCP port: the stored project changes along
   * with the copy, and the check fires only when the column appears or disappears.
   */
  method ShallowMergePort(existing: Project, port: Option<int>) returns (changed: bool)
    requires existing.Separate()
    modifies existing.tcpPort
    ensures changed <==> old(existing.Values()).tcpPort.Some? != port.Some?
    ensures old(existing.tcpPort) != null && port.Some? ==> existing.Values() == old(existing.Values()).(tcpPort := port)
  {
    var p := new Project.Copy(existing);
    p.DecodeTcpPort(port);
    changed := TcpRouteChanged(existing, p);
  }
}
