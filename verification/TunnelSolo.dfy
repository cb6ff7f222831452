/**
 * The converse of projection: whatever one stream's machine can do, the whole tunnel can do with that one
 * stream. So the machine allows nothing the tunnel does not, and every run of it is a run of the tunnel.
 */
module TunnelSolo {
  import opened Wrappers
  import opened TunnelWire
  import opened TunnelPipe
  import opened TunnelSafety
  import opened TunnelSystem
  import opened TunnelExchange

  const ONLY: StreamId := 1

  /** Every message of the wire is a frame of the one stream. */
  predicate Solely(wire: seq<Message>) {
    forall i | 0 <= i < |wire| :: Read(wire[i]).Some? && Read(wire[i]).value.0 == ONLY
  }

  /** The tunnel carries at most that stream. */
  predicate Solo(s: Sys) {
    && (if s.nextId == 0 then s.servers == map[] else s.nextId == 1 && s.servers.Keys == {ONLY})
    && (ONLY in s.servers ==> s.servers[ONLY].phase != Unborn)
    && s.clients.Keys <= {ONLY}
    && (s.loop.At? ==> s.loop.id == ONLY) && (s.cloop.At? ==> s.cloop.id == ONLY)
    && Solely(s.up) && Solely(s.down)
  }

  /** The event of the tunnel that is this act of the stream. */
  function EventOf(a: Act): Event
    requires a != Stutter
  {
    match a
    case Born(req) => Accept(req)
    case Server(sa) => ServerStep(ONLY, sa)
    case Client(ca) => ClientStep(ONLY, ca)
    case Take => TakeUp
    case Push => PushUp
    case Discard => DiscardUp
    case Stop => StopUp
    case CTake(dialOk, writeOk) => TakeDown(dialOk, writeOk)
    case CPush => PushDown
    case CDiscard => DiscardDown
    case COverflow => OverflowDown
    case COverflowFrame(ok) => OverflowFrameDown(ok)
    case COverflowLeaves => OverflowLeaveDown
    case CStop => StopDown
  }

  lemma SolelyHead(wire: seq<Message>)
    requires Solely(wire) && Project(wire, ONLY) != []
    ensures wire != [] && HeadIsFor(wire, ONLY)
  {
    assert wire != [];
    ProjectHead(wire, ONLY);
    hide Read, Project;
  }

  lemma SolelyFrames(out: seq<Item>)
    ensures Solely(Frames(ONLY, out))
    decreases |out|
  {
    if out != [] {
      SolelyFrames(out[1..]);
      ReadFrameOf(ONLY, out[0]);
      hide Read, FrameOf;
      var wire := Frames(ONLY, out);
      assert wire == [FrameOf(ONLY, out[0])] + Frames(ONLY, out[1..]);
    }
  }

  /** A client that was never dialled does nothing. */
  lemma StrangerIsStill(ca: ClientAct)
    ensures !ClientCan(NO_CLIENT, ca)
  {
  }

  lemma UnbornIsStill(sa: ServerAct)
    ensures !ServerCan(NO_SERVER, sa)
  {
  }

  /** What the stream can do next, the tunnel can do, and it is that act. */
  lemma EventIsPossible(s: Sys, a: Act)
    requires WellFormed(s) && Solo(s) && a != Stutter && Can(View(s, ONLY), a)
    ensures SysCan(s, EventOf(a)) && Local(s, EventOf(a), ONLY) == a
  {
    hide Read, Project, ServerCan, ClientCan;
    match a
    case Server(sa) => UnbornIsStill(sa);
    case Client(ca) => StrangerIsStill(ca);
    case Take => SolelyHead(s.up);
    case CTake(_, _) => SolelyHead(s.down);
    case _ =>
  }

  lemma SolelyAppend(a: seq<Message>, b: seq<Message>)
    requires Solely(a) && Solely(b)
    ensures Solely(a + b)
  {
    hide Read;
  }

  lemma OwnStepIsSolo(s: Sys, e: Event)
    requires WellFormed(s) && Solo(s) && SysCan(s, e)
    requires (e.ServerStep? && e.id == ONLY) || (e.ClientStep? && e.id == ONLY)
    ensures Solo(SysNext(s, e))
  {
    if e.ServerStep? {
      var (end, out) := ServerDo(s.servers[ONLY], e.sa);
      assert end.phase != Unborn;
      SolelyFrames(out);
      SolelyAppend(s.down, Frames(ONLY, out));
    } else {
      var (end, out) := ClientDo(s.clients[ONLY], e.ca);
      SolelyFrames(out);
      SolelyAppend(s.up, Frames(ONLY, out));
    }
    hide ServerDo, ClientDo, ServerCan, ClientCan, Frames, Solely;
  }

  lemma TakeIsSolo(s: Sys, e: Event)
    requires WellFormed(s) && Solo(s) && SysCan(s, e) && (e.TakeUp? || e.TakeDown?)
    ensures Solo(SysNext(s, e))
  {
    if e.TakeUp? {
      assert Solely(s.up[1..]);
    } else {
      assert Solely(s.down[1..]);
      var item := Read(s.down[0]).value.1;
      var out := ClientTake(ClientOf(s, ONLY), item, e.dialOk, e.writeOk).2;
      SolelyFrames(out);
      SolelyAppend(s.up, Frames(ONLY, out));
    }
    hide Frames, ClientTake;
  }

  lemma LoopIsSolo(s: Sys, e: Event)
    requires WellFormed(s) && Solo(s) && SysCan(s, e)
    requires !e.ServerStep? && !e.ClientStep? && !e.TakeUp? && !e.TakeDown? && (e.Accept? ==> s.nextId == 0)
    ensures Solo(SysNext(s, e))
  {
    if e.OverflowFrameDown? {
      var out := if e.ok then [Close] else [];
      SolelyFrames(out);
      SolelyAppend(s.up, Frames(ONLY, out));
    }
    hide Frames, Solely;
  }

  lemma StepIsSolo(s: Sys, a: Act)
    requires WellFormed(s) && Solo(s) && a != Stutter && Can(View(s, ONLY), a)
    ensures SysCan(s, EventOf(a)) && Solo(SysNext(s, EventOf(a)))
    ensures WellFormed(SysNext(s, EventOf(a))) && View(SysNext(s, EventOf(a)), ONLY) == Next(View(s, ONLY), a)
  {
    EventIsPossible(s, a);
    StepProjects(s, EventOf(a), ONLY);
    StepKeepsWellFormed(s, EventOf(a));
    if a.Born? {
      assert s.nextId == 0;
    }
    hide SysCan, SysNext, View, Next, Can, WellFormed, Solo, Local;
    if a.Server? || a.Client? {
      OwnStepIsSolo(s, EventOf(a));
    } else if a.Take? || a.CTake? {
      TakeIsSolo(s, EventOf(a));
    } else {
      LoopIsSolo(s, EventOf(a));
    }
  }

  function EventsOf(acts: seq<Act>): seq<Event> {
    if acts == [] then []
    else (if acts[0] == Stutter then [] else [EventOf(acts[0])]) + EventsOf(acts[1..])
  }

  lemma {:induction false} RunIsReal(s: Sys, acts: seq<Act>)
    requires WellFormed(s) && Solo(s) && Runs(View(s, ONLY), acts)
    ensures SysRuns(s, EventsOf(acts)) && View(SysRun(s, EventsOf(acts)), ONLY) == Run(View(s, ONLY), acts)
    decreases |acts|
  {
    if acts != [] {
      var a, rest := acts[0], EventsOf(acts[1..]);
      if a == Stutter {
        assert [] + rest == rest;
        RunIsReal(s, acts[1..]);
      } else {
        StepIsSolo(s, a);
        RunIsReal(SysNext(s, EventOf(a)), acts[1..]);
        assert ([EventOf(a)] + rest)[1..] == rest;
      }
      hide SysCan, SysNext, View, Next, Can, WellFormed, Solo;
    }
  }

  /** Every run of one stream's machine from its start is a run of the whole tunnel from its start. */
  lemma EveryRunIsReal(acts: seq<Act>)
    requires Runs(START, acts)
    ensures SysRuns(INIT, EventsOf(acts)) && View(SysRun(INIT, EventsOf(acts)), ONLY) == Run(START, acts)
  {
    assert View(INIT, ONLY) == START;
    RunIsReal(INIT, acts);
    hide Runs, Run, SysRuns, SysRun;
  }

  /** So the tunnel can carry a whole exchange, byte for byte in both directions, to a clean end. */
  lemma TunnelExchanges() returns (es: seq<Event>)
    ensures SysRuns(INIT, es)
    ensures
      var p := View(SysRun(INIT, es), ONLY);
      && p.s.phase == Done && p.s.clean && p.s.toBrowser == RESPONSE == p.c.fromLocal
      && p.c.toLocal == REQUEST + MORE && p.s.req == REQUEST && p.s.fromBrowser == MORE
  {
    hide Runs, Run, SysRuns, SysRun;
    var acts := Exchange();
    EveryRunIsReal(acts);
    es := EventsOf(acts);
  }
}
