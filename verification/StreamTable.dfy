/**
 * The stream table of one tunnel end, as a value: which streams it ever held, which are still
 * in the map, and their inboxes. The classes of both ends are proved against these functions,
 * and the steps of the whole tunnel are proved to move the table by the same functions.
 */
module StreamTable {
  import opened Wrappers
  import opened TunnelWire
  import opened TunnelPipe
  import opened TunnelSystem

  datatype Entry = Entry(live: bool, buf: Buf)

  type Table = map<StreamId, Entry>

  function Enter(t: Table, id: StreamId): Table {
    t[id := Entry(true, Buf([], false))]
  }

  /** Out of the map; the close flag follows. */
  function Unlink(t: Table, id: StreamId): Table {
    if id in t then t[id := t[id].(live := false)] else t
  }

  function Flag(t: Table, id: StreamId): Table {
    if id in t then t[id := t[id].(buf := t[id].buf.(closed := true))] else t
  }

  function PushEntry(t: Table, id: StreamId, bytes: Bytes): Table {
    if id in t then t[id := t[id].(buf := t[id].buf.(inbox := t[id].buf.inbox + [bytes]))] else t
  }

  /** `removeStream`: unlink and flag, when the stream is still in the map. */
  function Removed(t: Table, id: StreamId): Table {
    if id in t && t[id].live then Flag(Unlink(t, id), id) else t
  }

  /** `closeAllStreams`. */
  function Cleared(t: Table): Table {
    map id | id in t :: if t[id].live then Entry(false, t[id].buf.(closed := true)) else t[id]
  }

  /** A DATA frame for a live stream whose inbox is full: the server's read loop has to wait. */
  predicate Blocks(t: Table, raw: Message) {
    match Read(raw)
    case Some((id, Data(_))) => id in t && t[id].live && |t[id].buf.inbox| >= INBOX_CAP
    case _ => false
  }

  /** The server's read loop on one message. */
  function Dispatch(t: Table, raw: Message): Table {
    match Read(raw)
    case Some((id, Data(bytes))) => if id in t && t[id].live then PushEntry(t, id, bytes) else t
    case Some((id, Close)) => Removed(t, id)
    case _ => t
  }

  function DispatchAll(t: Table, wire: seq<Message>): Table {
    if wire == [] then t else Dispatch(DispatchAll(t, wire[..|wire| - 1]), wire[|wire| - 1])
  }

  /** The closed flag is never up while the stream is in the map. */
  predicate FlagsFollow(t: Table) {
    forall id | id in t :: t[id].buf.closed ==> !t[id].live
  }

  lemma DispatchKeepsFlags(t: Table, raw: Message)
    requires FlagsFollow(t)
    ensures FlagsFollow(Dispatch(t, raw))
  {
  }

  // ---------------------------------------------------------------- what the read loop does to one stream

  /** The payloads for a stream up to its first CLOSE. */
  function UpToClose(items: seq<Item>): seq<Bytes> {
    if items == [] || items[0] == Close then []
    else (if items[0].Data? then [items[0].bytes] else []) + UpToClose(items[1..])
  }

  lemma {:induction false} UpToCloseSnoc(items: seq<Item>, item: Item)
    ensures UpToClose(items + [item]) ==
            UpToClose(items) + if Close !in items && item.Data? then [item.bytes] else []
    decreases |items|
  {
    if items == [] {
      assert [item][1..] == [] && [] + [item] == [item];
    } else {
      assert (items + [item])[1..] == items[1..] + [item];
      UpToCloseSnoc(items[1..], item);
    }
  }

  /** What is left of a stream that was in the map after a list of its frames. */
  predicate Served(before: Entry, after: Entry, items: seq<Item>) {
    && after.buf.inbox == before.buf.inbox + UpToClose(items)
    && (after.live <==> Close !in items)
    && (after.buf.closed <==> Close in items)
  }

  lemma ProjectSnoc(wire: seq<Message>, raw: Message, id: StreamId)
    ensures Project(wire + [raw], id) ==
            Project(wire, id) + match Read(raw) case Some((sid, item)) => if sid == id then [item] else [] case None => []
  {
    ProjectAppend(wire, [raw], id);
    assert [raw][1..] == [];
    assert Project([raw][1..], id) == [];
    hide Read;
  }

  lemma DispatchOther(t: Table, raw: Message, id: StreamId)
    requires id in t && (Read(raw).Some? ==> Read(raw).value.0 != id || !t[id].live)
    ensures Dispatch(t, raw).Keys == t.Keys && Dispatch(t, raw)[id] == t[id]
  {
    hide Read;
  }

  lemma DispatchOwn(t: Table, raw: Message, id: StreamId, item: Item)
    requires id in t && t[id].live && !t[id].buf.closed && Read(raw) == Some((id, item))
    ensures
      var after := Dispatch(t, raw);
      && after.Keys == t.Keys
      && after[id].buf.inbox == t[id].buf.inbox + (if item.Data? then [item.bytes] else [])
      && (after[id].live <==> item != Close) && (after[id].buf.closed <==> item == Close)
  {
    hide Read;
    assert t[id].buf.inbox + [] == t[id].buf.inbox;
  }

  lemma ServedSnoc(before: Entry, mid: Entry, after: Entry, items: seq<Item>, item: Item)
    requires Served(before, mid, items)
    requires if Close in items then after == mid
             else && after.buf.inbox == mid.buf.inbox + (if item.Data? then [item.bytes] else [])
                  && (after.live <==> item != Close) && (after.buf.closed <==> item == Close)
    ensures Served(before, after, items + [item])
  {
    UpToCloseSnoc(items, item);
    hide UpToClose;
    assert UpToClose(items) + [] == UpToClose(items);
  }

  /**
   * The read loop over any messages: a stream in the map gets the payloads addressed to it, in order, up to
   * its first CLOSE, which takes it out and raises its flag; one that is not in the map stays as it is.
   */
  lemma {:induction false} DispatchAllServes(t: Table, wire: seq<Message>, id: StreamId)
    requires FlagsFollow(t) && id in t
    ensures
      var after := DispatchAll(t, wire);
      && id in after && after.Keys == t.Keys
      && if t[id].live then Served(t[id], after[id], Project(wire, id)) else after[id] == t[id]
    decreases |wire|
  {
    if wire == [] {
      assert t[id].buf.inbox + [] == t[id].buf.inbox;
    } else {
      var front, raw := wire[..|wire| - 1], wire[|wire| - 1];
      var mid, items := DispatchAll(t, front), Project(front, id);
      DispatchAllServes(t, front, id);
      ProjectSnoc(front, raw, id);
      assert front + [raw] == wire && items + [] == items;
      hide Read, Project, UpToClose, Dispatch, Served;
      if Read(raw).Some? && Read(raw).value.0 == id && mid[id].live {
        ServedLive(t[id], mid[id], items);
        DispatchOwn(mid, raw, id, Read(raw).value.1);
        ServedSnoc(t[id], mid[id], DispatchAll(t, wire)[id], items, Read(raw).value.1);
      } else {
        DispatchOther(mid, raw, id);
        if t[id].live && Read(raw).Some? && Read(raw).value.0 == id {
          ServedLive(t[id], mid[id], items);
          ServedSnoc(t[id], mid[id], DispatchAll(t, wire)[id], items, Read(raw).value.1);
        }
      }
    }
  }

  lemma ServedLive(before: Entry, after: Entry, items: seq<Item>)
    requires Served(before, after, items)
    ensures after.live <==> Close !in items
    ensures after.buf.closed <==> Close in items
  {
  }

  /** And when the loop has ended: every stream that was in the map is out of it with its flag up. */
  lemma ServedAndCleared(t: Table, wire: seq<Message>, id: StreamId)
    requires FlagsFollow(t) && id in t
    ensures
      var after := Cleared(DispatchAll(t, wire));
      && id in after && !after[id].live
      && if t[id].live
         then after[id].buf == Buf(t[id].buf.inbox + UpToClose(Project(wire, id)), true)
         else after[id] == t[id]
  {
    DispatchAllServes(t, wire, id);
    hide DispatchAll, Project, UpToClose;
  }

  // ---------------------------------------------------------------- the tunnel moves its table the same way

  function ServerTable(s: Sys): Table {
    map id | id in s.servers :: Entry(s.servers[id].live, s.servers[id].buf)
  }

  lemma AcceptMovesTable(s: Sys, req: Bytes)
    requires s.nextId + 1 < ID_LIMIT
    ensures ServerTable(AcceptStream(s, req)) == Enter(ServerTable(s), s.nextId + 1)
  {
  }

  /** One atomic event of the tunnel changes the server's table by the function its method is proved against. */
  lemma EventMovesTable(s: Sys, e: Event)
    requires WellFormed(s) && SysCan(s, e)
    ensures
      var t, t' := ServerTable(s), ServerTable(SysNext(s, e));
      match e
      case Accept(_) => t' == Enter(t, s.nextId + 1)
      case ServerStep(id, RemoveSelf) => t' == Unlink(t, id)
      case ServerStep(id, FlagClosed) => t' == Flag(t, id)
      case PushUp => t' == PushEntry(t, s.loop.id, s.loop.work.bytes)
      case TakeUp => t' == (match Read(s.up[0]) case Some((id, Close)) => Unlink(t, id) case _ => t)
      case StopUp => t'.Keys == t.Keys && forall id | id in t :: t'[id] == t[id].(live := false)
      case _ => true
  {
    hide Read, Frames;
  }

  /**
   * Dispatching a message without anybody in between is the composition of the tunnel's atomic
   * steps: take, then push; or take, then raise the flag.
   */
  lemma DispatchIsTakeThenDeliver(s: Sys, raw: Message)
    requires WellFormed(s) && s.loop == GIdle && s.up != [] && s.up[0] == raw
    requires !Blocks(ServerTable(s), raw) && FlagsFollow(ServerTable(s))
    ensures
      var s1 := SysNext(s, TakeUp);
      var t' := Dispatch(ServerTable(s), raw);
      match Read(raw)
      case Some((id, Close)) =>
        t' == if id in s.servers && s.servers[id].live then Flag(ServerTable(s1), id) else ServerTable(s1)
      case _ =>
        if s1.loop == GIdle then t' == ServerTable(s1)
        else SysCan(s1, PushUp) && t' == ServerTable(SysNext(s1, PushUp))
  {
    EventMovesTable(s, TakeUp);
    hide Read;
  }

  /** A message makes the read loop wait exactly when, once taken, it cannot be pushed yet. */
  lemma BlocksIffCannotPush(s: Sys, raw: Message)
    requires WellFormed(s) && s.loop == GIdle && s.up != [] && s.up[0] == raw
    ensures
      var s1 := SysNext(s, TakeUp);
      Blocks(ServerTable(s), raw) <==> s1.loop.At? && !SysCan(s1, PushUp)
  {
    hide Read;
  }
}
