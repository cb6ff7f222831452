/**
 * The whole tunnel: any number of browser connections multiplexed over one WebSocket.
 *
 * Messages on both wires are raw bytes; every goroutine of every stream and both read loops
 * take turns in any order. The main result is that a run of the whole tunnel, seen from one
 * stream, is a run of that stream's own machine: no other stream contributes a byte.
 */
module TunnelSystem {
  import opened Wrappers
  import opened TunnelWire
  import opened TunnelPipe
  import opened TunnelSafety

  // ---------------------------------------------------------------- state

  /** A read loop between messages, busy with one stream, or ended by a connection error. */
  datatype GLoop = GIdle | At(id: StreamId, work: Loop) | GStopped

  /** `servers` and `clients` keep every stream ever created; `live` marks those still in the tables. */
  datatype Sys = Sys(
    nextId: StreamId, servers: map<StreamId, ServerEnd>, loop: GLoop, upRead: seq<Message>, up: seq<Message>,
    clients: map<StreamId, ClientEnd>, cloop: GLoop, downRead: seq<Message>, down: seq<Message>)

  const INIT := Sys(0, map[], GIdle, [], [], map[], GIdle, [], [])

  function ServerOf(s: Sys, id: StreamId): ServerEnd {
    if id in s.servers then s.servers[id] else NO_SERVER
  }

  function ClientOf(s: Sys, id: StreamId): ClientEnd {
    if id in s.clients then s.clients[id] else NO_CLIENT
  }

  function FrameOf(id: StreamId, item: Item): Message {
    match item
    case Open => Encode(Frame(FRAME_OPEN, id, []))
    case Data(bytes) => Encode(Frame(FRAME_DATA, id, bytes))
    case Close => Encode(Frame(FRAME_CLOSE, id, []))
  }

  /** Frames written by one goroutine step; a step writes at most one. */
  function Frames(id: StreamId, out: seq<Item>): (wire: seq<Message>) {
    if out == [] then [] else [FrameOf(id, out[0])] + Frames(id, out[1..])
  }

  /** What a frame asks for; other kinds are ignored by both read loops. */
  function Meaning(f: Frame): Option<Item> {
    if f.kind == FRAME_OPEN then Some(Open)
    else if f.kind == FRAME_DATA then Some(Data(f.payload))
    else if f.kind == FRAME_CLOSE then Some(Close)
    else None
  }

  /** The stream and the request of a raw message; None when it is too short or of unknown kind. */
  function Read(raw: Message): Option<(StreamId, Item)> {
    match Decode(raw)
    case None => None
    case Some(f) => (match Meaning(f) case None => None case Some(item) => Some((f.id, item)))
  }

  function Busy(id: StreamId, work: Loop): GLoop {
    if work == Idle then GIdle else At(id, work)
  }

  // ---------------------------------------------------------------- steps

  datatype Event =
    | Accept(req: Bytes)
    | ServerStep(id: StreamId, sa: ServerAct)
    | ClientStep(id: StreamId, ca: ClientAct)
    | TakeUp
    | PushUp
    | DiscardUp
    | StopUp
    | TakeDown(dialOk: bool, writeOk: bool)
    | PushDown
    | DiscardDown
    | OverflowDown
    | OverflowFrameDown(ok: bool)
    | OverflowLeaveDown
    | StopDown

  /** Ids are handed out without a wrap check; a tunnel carries fewer than 2^32 - 1 streams. */
  predicate SysCan(s: Sys, e: Event) {
    match e
    case Accept(_) => s.nextId + 1 < ID_LIMIT
    case ServerStep(id, sa) => id in s.servers && ServerCan(s.servers[id], sa)
    case ClientStep(id, ca) => id in s.clients && ClientCan(s.clients[id], ca)
    case TakeUp => s.loop == GIdle && s.up != []
    case PushUp => s.loop.At? && s.loop.work.Deliver? && |ServerOf(s, s.loop.id).buf.inbox| < INBOX_CAP
    case DiscardUp => s.loop.At? && s.loop.work.Deliver? && ServerOf(s, s.loop.id).buf.closed
    case StopUp => s.loop == GIdle
    case TakeDown(_, _) => s.cloop == GIdle && s.down != []
    case PushDown => s.cloop.At? && s.cloop.work.Deliver? && |ClientOf(s, s.cloop.id).buf.inbox| < INBOX_CAP
    case DiscardDown => s.cloop.At? && s.cloop.work.Deliver? && ClientOf(s, s.cloop.id).buf.closed
    case OverflowDown =>
      && s.cloop.At? && s.cloop.work.Deliver?
      && |ClientOf(s, s.cloop.id).buf.inbox| >= INBOX_CAP && !ClientOf(s, s.cloop.id).buf.closed
    case OverflowFrameDown(_) => s.cloop.At? && s.cloop.work == Overflow
    case OverflowLeaveDown => s.cloop.At? && s.cloop.work == OverflowLeaving
    case StopDown => s.cloop == GIdle
  }

  /** `newStream`: the counter moves first, then the stream enters the table. */
  function AcceptStream(s: Sys, req: Bytes): Sys
    requires s.nextId + 1 < ID_LIMIT
  {
    s.(nextId := s.nextId + 1, servers := s.servers[s.nextId + 1 := NewServer(req)])
  }

  /** `removeStream` by the read loop and the dispatch of DATA, for one message. */
  function DispatchUp(s: Sys, raw: Message): Sys {
    match Read(raw)
    case None => s
    case Some((id, item)) =>
      if id !in s.servers then s
      else
        var (e, work) := ServerTake(s.servers[id], item);
        s.(servers := s.servers[id := e], loop := Busy(id, work))
  }

  function DispatchDown(s: Sys, raw: Message, dialOk: bool, writeOk: bool): Sys {
    match Read(raw)
    case None => s
    case Some((id, item)) =>
      var (e, work, out) := ClientTake(ClientOf(s, id), item, dialOk, writeOk);
      s.(clients := s.clients[id := e], cloop := Busy(id, work), up := s.up + Frames(id, out))
  }

  function SysNext(s: Sys, e: Event): Sys
    requires SysCan(s, e)
  {
    match e
    case Accept(req) => AcceptStream(s, req)
    case ServerStep(id, sa) =>
      var (end, out) := ServerDo(s.servers[id], sa);
      s.(servers := s.servers[id := end], down := s.down + Frames(id, out))
    case ClientStep(id, ca) =>
      var (end, out) := ClientDo(s.clients[id], ca);
      s.(clients := s.clients[id := end], up := s.up + Frames(id, out))
    case TakeUp => DispatchUp(s.(upRead := s.upRead + [s.up[0]], up := s.up[1..]), s.up[0])
    case PushUp =>
      s.(servers := s.servers[s.loop.id := PushServer(ServerOf(s, s.loop.id), s.loop.work.bytes)], loop := GIdle)
    case DiscardUp => s.(loop := GIdle)
    case StopUp =>
      s.(servers := map id | id in s.servers :: s.servers[id].(live := false), loop := GStopped)
    case TakeDown(dialOk, writeOk) =>
      DispatchDown(s.(downRead := s.downRead + [s.down[0]], down := s.down[1..]), s.down[0], dialOk, writeOk)
    case PushDown =>
      s.(clients := s.clients[s.cloop.id := PushClient(ClientOf(s, s.cloop.id), s.cloop.work.bytes)], cloop := GIdle)
    case DiscardDown => s.(cloop := GIdle)
    case OverflowDown => s.(cloop := At(s.cloop.id, Overflow))
    case OverflowFrameDown(ok) =>
      var c := ClientOf(s, s.cloop.id);
      s.(clients := s.clients[s.cloop.id := c.(sentClose := c.sentClose || ok)],
         cloop := At(s.cloop.id, OverflowLeaving),
         up := s.up + Frames(s.cloop.id, if ok then [Close] else []))
    case OverflowLeaveDown =>
      s.(clients := s.clients[s.cloop.id := ClientOf(s, s.cloop.id).(live := false)], cloop := GIdle)
    case StopDown =>
      s.(clients := map id | id in s.clients :: s.clients[id].(live := false), cloop := GStopped)
  }

  // ---------------------------------------------------------------- one stream's view

  /** The frames of stream `id` among raw messages. */
  function Project(wire: seq<Message>, id: StreamId): seq<Item> {
    if wire == [] then []
    else
      (match Read(wire[0])
       case Some((sid, item)) => if sid == id then [item] else []
       case None => []) + Project(wire[1..], id)
  }

  function LoopFor(loop: GLoop, id: StreamId): Loop {
    match loop
    case GIdle => Idle
    case At(sid, work) => if sid == id then work else Idle
    case GStopped => LoopStopped
  }

  function View(s: Sys, id: StreamId): Pipe {
    Pipe(ServerOf(s, id), LoopFor(s.loop, id), Project(s.upRead, id), Project(s.up, id),
         ClientOf(s, id), LoopFor(s.cloop, id), Project(s.downRead, id), Project(s.down, id))
  }

  /** Whether the next message of a wire is for `id`. */
  predicate HeadIsFor(wire: seq<Message>, id: StreamId) {
    wire != [] && Project([wire[0]], id) != []
  }

  /** What an event of the whole tunnel is to one stream. */
  function Local(s: Sys, e: Event, id: StreamId): Act {
    match e
    case Accept(req) => if id == s.nextId + 1 then Born(req) else Stutter
    case ServerStep(sid, sa) => if id == sid then Server(sa) else Stutter
    case ClientStep(sid, ca) => if id == sid then Client(ca) else Stutter
    case TakeUp => if HeadIsFor(s.up, id) then Take else Stutter
    case PushUp => if s.loop.At? && s.loop.id == id then Push else Stutter
    case DiscardUp => if s.loop.At? && s.loop.id == id then Discard else Stutter
    case StopUp => Stop
    case TakeDown(dialOk, writeOk) => if HeadIsFor(s.down, id) then CTake(dialOk, writeOk) else Stutter
    case PushDown => if s.cloop.At? && s.cloop.id == id then CPush else Stutter
    case DiscardDown => if s.cloop.At? && s.cloop.id == id then CDiscard else Stutter
    case OverflowDown => if s.cloop.At? && s.cloop.id == id then COverflow else Stutter
    case OverflowFrameDown(ok) => if s.cloop.At? && s.cloop.id == id then COverflowFrame(ok) else Stutter
    case OverflowLeaveDown => if s.cloop.At? && s.cloop.id == id then COverflowLeaves else Stutter
    case StopDown => CStop
  }

  /** Only ids that were handed out have a handler, and a busy read loop is busy with known streams. */
  predicate WellFormed(s: Sys) {
    && (forall id | id in s.servers :: 1 <= id <= s.nextId)
    && (s.loop.At? ==> s.loop.id in s.servers && s.loop.work.Deliver?)
    && (s.cloop.At? ==> s.cloop.id in s.clients && s.cloop.work != Idle && s.cloop.work != LoopStopped)
  }

  // ---------------------------------------------------------------- projection of wires

  lemma {:induction false} ProjectAppend(a: seq<Message>, b: seq<Message>, id: StreamId)
    ensures Project(a + b, id) == Project(a, id) + Project(b, id)
    decreases |a|
  {
    if a == [] {
      assert a + b == b;
    } else {
      ProjectAppend(a[1..], b, id);
      assert (a + b)[0] == a[0] && (a + b)[1..] == a[1..] + b;
    }
  }

  lemma ReadFrameOf(id: StreamId, item: Item)
    ensures Read(FrameOf(id, item)) == Some((id, item))
  {
    match item
    case Open => DecodeEncode(Frame(FRAME_OPEN, id, []));
    case Data(bytes) => DecodeEncode(Frame(FRAME_DATA, id, bytes));
    case Close => DecodeEncode(Frame(FRAME_CLOSE, id, []));
  }

  /** A written frame is seen by its own stream and by no other. */
  lemma {:induction false} ProjectFrames(sid: StreamId, out: seq<Item>, id: StreamId)
    ensures Project(Frames(sid, out), id) == if id == sid then out else []
    decreases |out|
  {
    if out != [] {
      ProjectFrames(sid, out[1..], id);
      ReadFrameOf(sid, out[0]);
      var wire := Frames(sid, out);
      assert wire[0] == FrameOf(sid, out[0]) && wire[1..] == Frames(sid, out[1..]);
      assert out == [out[0]] + out[1..];
    }
  }

  lemma ProjectWrite(wire: seq<Message>, sid: StreamId, out: seq<Item>, id: StreamId)
    ensures Project(wire + Frames(sid, out), id) == Project(wire, id) + if id == sid then out else []
  {
    ProjectAppend(wire, Frames(sid, out), id);
    ProjectFrames(sid, out, id);
    if id != sid {
      assert Project(wire, id) + [] == Project(wire, id);
    }
  }

  lemma ProjectHead(wire: seq<Message>, id: StreamId)
    requires wire != []
    ensures HeadIsFor(wire, id) ==>
              && Read(wire[0]).Some? && Read(wire[0]).value.0 == id
              && Project(wire, id) == [Read(wire[0]).value.1] + Project(wire[1..], id)
              && Project([wire[0]], id) == [Read(wire[0]).value.1]
    ensures !HeadIsFor(wire, id) ==>
              && Project(wire, id) == Project(wire[1..], id)
              && Project([wire[0]], id) == []
              && (Read(wire[0]).Some? ==> Read(wire[0]).value.0 != id)
  {
    var one := [wire[0]];
    assert one[1..] == [] && wire == one + wire[1..];
    ProjectAppend(one, wire[1..], id);
  }

  lemma ProjectTake(read: seq<Message>, wire: seq<Message>, id: StreamId)
    requires wire != []
    ensures HeadIsFor(wire, id) ==>
              && Project(wire, id) != [] && Read(wire[0]) == Some((id, Project(wire, id)[0]))
              && Project(read + [wire[0]], id) == Project(read, id) + [Project(wire, id)[0]]
              && Project(wire[1..], id) == Project(wire, id)[1..]
    ensures !HeadIsFor(wire, id) ==>
              && Project(read + [wire[0]], id) == Project(read, id)
              && Project(wire[1..], id) == Project(wire, id)
              && (Read(wire[0]).Some? ==> Read(wire[0]).value.0 != id)
  {
    ProjectHead(wire, id);
    ProjectAppend(read, [wire[0]], id);
    assert Project(read, id) + [] == Project(read, id);
  }

  // ---------------------------------------------------------------- every step projects

  lemma ServerStepProjects(s: Sys, e: Event, id: StreamId)
    requires WellFormed(s) && SysCan(s, e) && (e.ServerStep? || e.Accept?)
    ensures Can(View(s, id), Local(s, e, id))
    ensures View(SysNext(s, e), id) == Next(View(s, id), Local(s, e, id))
  {
    if e.ServerStep? {
      var (end, out) := ServerDo(s.servers[e.id], e.sa);
      hide ServerDo;
      ProjectWrite(s.down, e.id, out, id);
      hide Project;
      if id != e.id {
        assert View(SysNext(s, e), id) == View(s, id);
      }
    }
  }

  lemma ClientStepProjects(s: Sys, e: Event, id: StreamId)
    requires WellFormed(s) && SysCan(s, e) && e.ClientStep?
    ensures Can(View(s, id), Local(s, e, id))
    ensures View(SysNext(s, e), id) == Next(View(s, id), Local(s, e, id))
  {
    var (end, out) := ClientDo(s.clients[e.id], e.ca);
    hide ClientDo;
    ProjectWrite(s.up, e.id, out, id);
    hide Project;
    if id != e.id {
      assert View(SysNext(s, e), id) == View(s, id);
    }
  }

  lemma OwnUp(s: Sys, id: StreamId, e: ServerEnd, work: Loop)
    requires s.loop == GIdle && s.up != [] && HeadIsFor(s.up, id) && id in s.servers
    ensures
      var v := View(s, id);
      var s' := s.(upRead := s.upRead + [s.up[0]], up := s.up[1..], servers := s.servers[id := e], loop := Busy(id, work));
      v.up != [] &&
      View(s', id) == v.(s := e, loop := work, upRead := v.upRead + [v.up[0]], up := v.up[1..])
  {
    ProjectTake(s.upRead, s.up, id);
    hide Project, Read, HeadIsFor;
  }

  lemma OtherUp(s: Sys, sid: StreamId, e: ServerEnd, work: Loop, id: StreamId)
    requires s.loop == GIdle && s.up != [] && !HeadIsFor(s.up, id) && sid != id
    ensures
      var s0 := s.(upRead := s.upRead + [s.up[0]], up := s.up[1..]);
      View(s0, id) == View(s, id) && View(s0.(servers := s.servers[sid := e], loop := Busy(sid, work)), id) == View(s, id)
  {
    ProjectTake(s.upRead, s.up, id);
    hide Project, Read, HeadIsFor;
  }

  lemma TakeUpProjects(s: Sys, id: StreamId)
    requires WellFormed(s) && SysCan(s, TakeUp)
    ensures Can(View(s, id), Local(s, TakeUp, id))
    ensures View(SysNext(s, TakeUp), id) == Next(View(s, id), Local(s, TakeUp, id))
  {
    ProjectTake(s.upRead, s.up, id);
    hide Project, HeadIsFor, Decode, Meaning, ServerTake;
    if HeadIsFor(s.up, id) {
      var item := Project(s.up, id)[0];
      var (e, work) := ServerTake(ServerOf(s, id), item);
      if id in s.servers {
        OwnUp(s, id, e, work);
      } else {
        DeadFrameUp(s, id, item);
      }
    } else if Read(s.up[0]).Some? {
      var (sid, item) := Read(s.up[0]).value;
      var (e, work) := ServerTake(ServerOf(s, sid), item);
      OtherUp(s, sid, e, work, id);
    } else {
      OtherUp(s, if id == 0 then 1 else 0, NO_SERVER, Idle, id);
    }
  }

  /** A frame for an id that was never handed out changes nothing but the history. */
  lemma DeadFrameUp(s: Sys, id: StreamId, item: Item)
    requires SysCan(s, TakeUp) && HeadIsFor(s.up, id) && id !in s.servers
    ensures ServerTake(NO_SERVER, item) == (NO_SERVER, Idle)
    ensures
      var v := View(s, id);
      var s' := s.(upRead := s.upRead + [s.up[0]], up := s.up[1..]);
      v.up != [] && View(s', id) == v.(upRead := v.upRead + [v.up[0]], up := v.up[1..])
  {
    ProjectTake(s.upRead, s.up, id);
    hide Project, Read, HeadIsFor;
  }

  /** What the client's read loop leaves behind after one message for stream `sid`. */
  function AfterDown(s: Sys, sid: StreamId, c: ClientEnd, work: Loop, out: seq<Item>): Sys
    requires s.down != []
  {
    s.(downRead := s.downRead + [s.down[0]], down := s.down[1..],
       clients := s.clients[sid := c], cloop := Busy(sid, work), up := s.up + Frames(sid, out))
  }

  lemma OwnDown(s: Sys, id: StreamId, c: ClientEnd, work: Loop, out: seq<Item>)
    requires s.cloop == GIdle && s.down != [] && HeadIsFor(s.down, id)
    ensures
      var v := View(s, id);
      v.down != [] &&
      View(AfterDown(s, id, c, work, out), id) ==
      v.(c := c, cloop := work, downRead := v.downRead + [v.down[0]], down := v.down[1..], up := v.up + out)
  {
    ProjectTake(s.downRead, s.down, id);
    ProjectWrite(s.up, id, out, id);
    hide Project, Read, HeadIsFor, Frames;
  }

  lemma OtherDown(s: Sys, sid: StreamId, c: ClientEnd, work: Loop, out: seq<Item>, id: StreamId)
    requires s.cloop == GIdle && s.down != [] && !HeadIsFor(s.down, id) && sid != id
    ensures View(AfterDown(s, sid, c, work, out), id) == View(s, id)
  {
    ProjectTake(s.downRead, s.down, id);
    ProjectWrite(s.up, sid, out, id);
    assert Project(s.up, id) + [] == Project(s.up, id);
    hide Project, Read, HeadIsFor, Frames;
  }

  lemma OwnTakeDownProjects(s: Sys, dialOk: bool, writeOk: bool, id: StreamId)
    requires SysCan(s, TakeDown(dialOk, writeOk)) && HeadIsFor(s.down, id)
    ensures Can(View(s, id), CTake(dialOk, writeOk))
    ensures View(SysNext(s, TakeDown(dialOk, writeOk)), id) == Next(View(s, id), CTake(dialOk, writeOk))
  {
    ProjectTake(s.downRead, s.down, id);
    var item := Project(s.down, id)[0];
    var (c, work, out) := ClientTake(ClientOf(s, id), item, dialOk, writeOk);
    hide Project, Read, HeadIsFor, Frames, ClientTake;
    assert SysNext(s, TakeDown(dialOk, writeOk)) == AfterDown(s, id, c, work, out);
    OwnDown(s, id, c, work, out);
  }

  lemma OtherTakeDownProjects(s: Sys, dialOk: bool, writeOk: bool, id: StreamId)
    requires SysCan(s, TakeDown(dialOk, writeOk)) && !HeadIsFor(s.down, id)
    ensures View(SysNext(s, TakeDown(dialOk, writeOk)), id) == View(s, id)
  {
    ProjectTake(s.downRead, s.down, id);
    hide Project, HeadIsFor, Frames, ClientTake, Decode, Meaning;
    if Read(s.down[0]).Some? {
      var (sid, item) := Read(s.down[0]).value;
      var (c, work, out) := ClientTake(ClientOf(s, sid), item, dialOk, writeOk);
      assert SysNext(s, TakeDown(dialOk, writeOk)) == AfterDown(s, sid, c, work, out);
      OtherDown(s, sid, c, work, out, id);
    }
  }

  lemma TakeDownProjects(s: Sys, dialOk: bool, writeOk: bool, id: StreamId)
    requires WellFormed(s) && SysCan(s, TakeDown(dialOk, writeOk))
    ensures Can(View(s, id), Local(s, TakeDown(dialOk, writeOk), id))
    ensures View(SysNext(s, TakeDown(dialOk, writeOk)), id) == Next(View(s, id), Local(s, TakeDown(dialOk, writeOk), id))
  {
    hide View, SysNext, HeadIsFor;
    if HeadIsFor(s.down, id) {
      OwnTakeDownProjects(s, dialOk, writeOk, id);
    } else {
      OtherTakeDownProjects(s, dialOk, writeOk, id);
    }
  }

  lemma LoopStepProjects(s: Sys, e: Event, id: StreamId)
    requires WellFormed(s) && SysCan(s, e)
    requires !e.ServerStep? && !e.Accept? && !e.ClientStep? && !e.TakeUp? && !e.TakeDown? && !e.OverflowFrameDown?
    ensures Can(View(s, id), Local(s, e, id))
    ensures View(SysNext(s, e), id) == Next(View(s, id), Local(s, e, id))
  {
    hide Project;
  }

  lemma OverflowFrameProjects(s: Sys, ok: bool, id: StreamId)
    requires WellFormed(s) && SysCan(s, OverflowFrameDown(ok))
    ensures Can(View(s, id), Local(s, OverflowFrameDown(ok), id))
    ensures View(SysNext(s, OverflowFrameDown(ok)), id) == Next(View(s, id), Local(s, OverflowFrameDown(ok), id))
  {
    ProjectWrite(s.up, s.cloop.id, if ok then [Close] else [], id);
    hide Project;
  }

  /** An event of the whole tunnel is, to each stream, a step of that stream or nothing at all. */
  lemma StepProjects(s: Sys, e: Event, id: StreamId)
    requires WellFormed(s) && SysCan(s, e)
    ensures Can(View(s, id), Local(s, e, id))
    ensures View(SysNext(s, e), id) == Next(View(s, id), Local(s, e, id))
  {
    hide View, SysNext, Next, Can;
    match e
    case ServerStep(_, _) => ServerStepProjects(s, e, id);
    case Accept(_) => ServerStepProjects(s, e, id);
    case ClientStep(_, _) => ClientStepProjects(s, e, id);
    case TakeUp => TakeUpProjects(s, id);
    case TakeDown(dialOk, writeOk) => TakeDownProjects(s, dialOk, writeOk, id);
    case OverflowFrameDown(ok) => OverflowFrameProjects(s, ok, id);
    case _ => LoopStepProjects(s, e, id);
  }

  lemma StepKeepsWellFormed(s: Sys, e: Event)
    requires WellFormed(s) && SysCan(s, e)
    ensures WellFormed(SysNext(s, e))
  {
    hide ServerDo, ClientDo, Project, Read;
  }

  // ---------------------------------------------------------------- every run

  predicate SysRuns(s: Sys, es: seq<Event>)
    decreases |es|
  {
    es == [] || (SysCan(s, es[0]) && SysRuns(SysNext(s, es[0]), es[1..]))
  }

  function SysRun(s: Sys, es: seq<Event>): Sys
    requires SysRuns(s, es)
    decreases |es|
  {
    if es == [] then s else SysRun(SysNext(s, es[0]), es[1..])
  }

  /** The steps of stream `id` in a run of the whole tunnel, in order. */
  function Own(s: Sys, es: seq<Event>, id: StreamId): seq<Act>
    requires SysRuns(s, es)
    decreases |es|
  {
    if es == [] then []
    else
      var rest := Own(SysNext(s, es[0]), es[1..], id);
      if Local(s, es[0], id) == Stutter then rest else [Local(s, es[0], id)] + rest
  }

  lemma {:induction false} RunProjects(s: Sys, es: seq<Event>, id: StreamId)
    requires WellFormed(s) && SysRuns(s, es)
    ensures Runs(View(s, id), Own(s, es, id))
    ensures View(SysRun(s, es), id) == Run(View(s, id), Own(s, es, id))
    decreases |es|
  {
    if es != [] {
      hide View, SysNext, Next, Can, Local;
      var s' := SysNext(s, es[0]);
      StepProjects(s, es[0], id);
      StepKeepsWellFormed(s, es[0]);
      RunProjects(s', es[1..], id);
      var a, rest := Local(s, es[0], id), Own(s', es[1..], id);
      if a != Stutter {
        var acts := [a] + rest;
        assert acts[0] == a && acts[1..] == rest;
      } else {
        StutterStays(View(s, id));
      }
    }
  }

  lemma StutterStays(p: Pipe)
    ensures Can(p, Stutter) && Next(p, Stutter) == p
  {
  }

  /**
   * Isolation: in every run of the tunnel, what a stream's two ends have received is determined
   * by the stream's own steps alone. Two runs that agree on those steps agree on the stream,
   * however many other streams they carry and however the goroutines interleave.
   */
  lemma {:induction false} Isolation(es: seq<Event>, others: seq<Event>, id: StreamId)
    requires SysRuns(INIT, es) && SysRuns(INIT, others)
    requires Own(INIT, es, id) == Own(INIT, others, id)
    ensures View(SysRun(INIT, es), id) == View(SysRun(INIT, others), id)
  {
    RunProjects(INIT, es, id);
    RunProjects(INIT, others, id);
  }

  /** Every stream of every reachable state satisfies the one-stream invariant. */
  lemma EveryStreamInv(es: seq<Event>, id: StreamId)
    requires SysRuns(INIT, es)
    ensures Inv(View(SysRun(INIT, es), id))
  {
    RunProjects(INIT, es, id);
    assert View(INIT, id) == START;
    StartInv();
    RunKeepsInv(START, Own(INIT, es, id));
  }

  /**
   * In every reachable state, for every stream: what the browser received is a prefix of what
   * the stream's own local connection produced, and what the local connection received is a
   * prefix of the replayed request followed by that browser's later bytes.
   */
  lemma TunnelPrefix(es: seq<Event>, id: StreamId)
    requires SysRuns(INIT, es)
    ensures
      var p := View(SysRun(INIT, es), id);
      p.s.toBrowser <= p.c.fromLocal && p.c.toLocal <= p.s.req + p.s.fromBrowser
  {
    EveryStreamInv(es, id);
    PrefixBothWays(View(SysRun(INIT, es), id));
  }

  /**
   * In every interleaving, a handler that left through the closed branch without a browser write
   * error has written, in order, all DATA payloads the read loop accepted for its stream; when
   * the close came from the local service reaching its end, that is the complete response.
   */
  lemma TunnelDrain(es: seq<Event>, id: StreamId)
    requires SysRuns(INIT, es) && ServerOf(SysRun(INIT, es), id).clean
    ensures
      var p := View(SysRun(INIT, es), id);
      && p.s.toBrowser == p.s.accepted == BeforeClose(p.upRead)
      && (Close in p.upRead && p.c.eofClose ==> p.s.toBrowser == p.c.fromLocal)
  {
    EveryStreamInv(es, id);
    var p := View(SysRun(INIT, es), id);
    DrainIsComplete(p);
    if Close in p.upRead && p.c.eofClose {
      ResponseIsComplete(p);
    }
  }
}
