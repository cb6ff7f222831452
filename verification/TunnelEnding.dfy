/**
 * How one end of the tunnel ends: its read loop stops, every stream still in the map leaves it, and the
 * flag of each is raised. The methods that close all streams are these steps of the whole tunnel.
 */
module TunnelEnding {
  import opened TunnelWire
  import opened TunnelPipe
  import opened TunnelSystem
  import opened StreamTable
  import opened TunnelClient

  // ---------------------------------------------------------------- what every run keeps

  /** A stream in a map has been set up, and its flag is still down. */
  ghost predicate Orderly(s: Sys) {
    && (forall id | id in s.servers :: s.servers[id].phase != Unborn && (s.servers[id].live ==> !s.servers[id].buf.closed))
    && (forall id | id in s.clients ::
          && (s.clients[id].live ==> s.clients[id].known && !s.clients[id].buf.closed)
          && (s.clients[id].connClosed ==> s.clients[id].buf.closed))
  }

  lemma ServerKeepsOrder(e: ServerEnd, a: ServerAct)
    requires ServerCan(e, a) && e.phase != Unborn && (e.live ==> !e.buf.closed)
    ensures ServerDo(e, a).0.phase != Unborn && (ServerDo(e, a).0.live ==> !ServerDo(e, a).0.buf.closed)
  {
  }

  predicate ClientOrderly(e: ClientEnd) {
    (e.live ==> e.known && !e.buf.closed) && (e.connClosed ==> e.buf.closed)
  }

  lemma ClientKeepsOrder(e: ClientEnd, a: ClientAct)
    requires ClientCan(e, a) && ClientOrderly(e)
    ensures ClientOrderly(ClientDo(e, a).0)
  {
  }

  lemma TakeKeepsOrder(e: ClientEnd, item: Item, dialOk: bool, writeOk: bool)
    requires ClientOrderly(e)
    ensures ClientOrderly(ClientTake(e, item, dialOk, writeOk).0)
  {
  }

  lemma OwnStepKeepsOrder(s: Sys, e: Event)
    requires SysCan(s, e) && Orderly(s) && (e.ServerStep? || e.ClientStep?)
    ensures Orderly(SysNext(s, e))
  {
    if e.ServerStep? {
      ServerKeepsOrder(s.servers[e.id], e.sa);
    } else {
      ClientKeepsOrder(s.clients[e.id], e.ca);
    }
    hide ServerDo, ClientDo, Frames, ServerCan, ClientCan;
  }

  lemma TakeDownKeepsOrder(s: Sys, e: Event)
    requires SysCan(s, e) && Orderly(s) && e.TakeDown?
    ensures Orderly(SysNext(s, e))
  {
    if Read(s.down[0]).Some? {
      var (id, item) := Read(s.down[0]).value;
      TakeKeepsOrder(ClientOf(s, id), item, e.dialOk, e.writeOk);
    }
    hide ClientTake, Frames, Read;
  }

  lemma LoopStepKeepsOrder(s: Sys, e: Event)
    requires WellFormed(s) && SysCan(s, e) && Orderly(s) && !e.ServerStep? && !e.ClientStep? && !e.TakeDown?
    ensures Orderly(SysNext(s, e))
  {
    hide Frames, Read, ServerDo, ClientDo, ServerCan, ClientCan, ClientTake, WellFormed;
    if e.OverflowFrameDown? || e.OverflowLeaveDown? || e.PushDown? {
      assert WellFormed(s) ==> s.cloop.id in s.clients by {
        BusyIsKnown(s);
      }
    } else if e.PushUp? {
      BusyIsKnown(s);
    }
  }

  lemma BusyIsKnown(s: Sys)
    requires WellFormed(s)
    ensures s.loop.At? ==> s.loop.id in s.servers
    ensures s.cloop.At? ==> s.cloop.id in s.clients
  {
  }

  lemma StepKeepsOrder(s: Sys, e: Event)
    requires WellFormed(s) && SysCan(s, e) && Orderly(s)
    ensures Orderly(SysNext(s, e))
  {
    hide Orderly, SysNext, SysCan, WellFormed;
    if e.ServerStep? || e.ClientStep? {
      OwnStepKeepsOrder(s, e);
    } else if e.TakeDown? {
      TakeDownKeepsOrder(s, e);
    } else {
      LoopStepKeepsOrder(s, e);
    }
  }

  lemma {:induction false} RunKeepsOrder(s: Sys, es: seq<Event>)
    requires WellFormed(s) && SysRuns(s, es) && Orderly(s)
    ensures WellFormed(SysRun(s, es)) && Orderly(SysRun(s, es))
    decreases |es|
  {
    if es != [] {
      StepKeepsOrder(s, es[0]);
      StepKeepsWellFormed(s, es[0]);
      hide SysNext, SysCan, Orderly, WellFormed;
      RunKeepsOrder(SysNext(s, es[0]), es[1..]);
    }
  }

  // ---------------------------------------------------------------- the server's end

  /** The ids, each once. */
  ghost predicate Lists(ids: seq<StreamId>, of: set<StreamId>) {
    (forall id :: id in ids <==> id in of) && forall i, j | 0 <= i < j < |ids| :: ids[i] != ids[j]
  }

  function FlagEach(ids: seq<StreamId>): seq<Event> {
    seq(|ids|, i requires 0 <= i < |ids| => ServerStep(ids[i], FlagClosed))
  }

  predicate Flaggable(e: ServerEnd) {
    e.phase != Unborn && !e.live && !e.buf.closed
  }

  function Flagged(servers: map<StreamId, ServerEnd>, ids: seq<StreamId>): map<StreamId, ServerEnd> {
    map id | id in servers ::
      if id in ids then servers[id].(buf := Buf(servers[id].buf.inbox, true)) else servers[id]
  }

  lemma FlagStep(s: Sys, id: StreamId)
    requires id in s.servers && Flaggable(s.servers[id])
    ensures SysCan(s, ServerStep(id, FlagClosed))
    ensures SysNext(s, ServerStep(id, FlagClosed)) == s.(servers := Flagged(s.servers, [id]))
  {
    assert s.down + [] == s.down;
    assert Frames(id, []) == [];
    var e := s.servers[id];
    assert s.servers[id := e.(buf := Buf(e.buf.inbox, true))] == Flagged(s.servers, [id]);
  }

  lemma {:induction false} FlagsRun(s: Sys, ids: seq<StreamId>)
    requires forall id | id in ids :: id in s.servers && Flaggable(s.servers[id])
    requires forall i, j | 0 <= i < j < |ids| :: ids[i] != ids[j]
    ensures SysRuns(s, FlagEach(ids)) && SysRun(s, FlagEach(ids)) == s.(servers := Flagged(s.servers, ids))
    decreases |ids|
  {
    if ids == [] {
      assert Flagged(s.servers, []) == s.servers;
    } else {
      var s1 := s.(servers := Flagged(s.servers, [ids[0]]));
      FlagStep(s, ids[0]);
      assert FlagEach(ids)[0] == ServerStep(ids[0], FlagClosed) && FlagEach(ids)[1..] == FlagEach(ids[1..]);
      assert ids[0] !in ids[1..];
      FlagsRun(s1, ids[1..]);
      assert ids == [ids[0]] + ids[1..];
      assert Flagged(s1.servers, ids[1..]) == Flagged(s.servers, ids);
      hide SysNext, SysCan;
    }
  }

  function LiveServers(s: Sys): set<StreamId> {
    set id | id in s.servers && s.servers[id].live
  }

  /** Every stream of the map is out of it with its flag up and its inbox as it was, the others are as they were. */
  predicate Ended(t: Table, t': Table) {
    && t'.Keys == t.Keys
    && forall id | id in t ::
         if t[id].live then t'[id] == Entry(false, Buf(t[id].buf.inbox, true)) else t'[id] == t[id]
  }

  lemma EndedIsCleared(t: Table, t': Table)
    requires Ended(t, t')
    ensures t' == Cleared(t)
  {
  }

  lemma StoppedServers(s: Sys, ids: seq<StreamId>)
    requires SysCan(s, StopUp) && Orderly(s) && Lists(ids, LiveServers(s))
    ensures
      var stopped := SysNext(s, StopUp).servers;
      && (forall id | id in ids :: id in stopped && Flaggable(stopped[id]))
      && forall s': Sys | s'.servers == Flagged(stopped, ids) :: Ended(ServerTable(s), ServerTable(s'))
  {
    var stopped := SysNext(s, StopUp).servers;
    assert forall id | id in s.servers :: id in stopped && stopped[id] == s.servers[id].(live := false);
    assert stopped.Keys == s.servers.Keys;
    hide SysNext, SysCan;
  }

  /**
   * In every reachable state: when the server's read loop stops and the flag of each stream it took out is
   * raised, the table has ended. That is the table `closeAllStreams` leaves.
   */
  lemma ServerEnds(es: seq<Event>, ids: seq<StreamId>)
    requires SysRuns(INIT, es) && SysRun(INIT, es).loop == GIdle && Lists(ids, LiveServers(SysRun(INIT, es)))
    ensures
      var s := SysRun(INIT, es);
      var all := [StopUp] + FlagEach(ids);
      && SysRuns(s, all)
      && Ended(ServerTable(s), ServerTable(SysRun(s, all)))
      && ServerTable(SysRun(s, all)) == Cleared(ServerTable(s))
  {
    RunKeepsOrder(INIT, es);
    var s := SysRun(INIT, es);
    assert SysCan(s, StopUp);
    hide SysNext, SysCan, SysRuns, SysRun, FlagEach, Orderly, WellFormed, Flagged;
    hide Flaggable, Ended, LiveServers, ServerTable, Cleared;
    StoppedServers(s, ids);
    FlagsRun(SysNext(s, StopUp), ids);
    StopAnd(s, ids);
    EndedIsCleared(ServerTable(s), ServerTable(SysRun(s, [StopUp] + FlagEach(ids))));
  }

  lemma StopAnd(s: Sys, ids: seq<StreamId>)
    requires SysCan(s, StopUp) && SysRuns(SysNext(s, StopUp), FlagEach(ids))
    ensures SysRuns(s, [StopUp] + FlagEach(ids))
    ensures SysRun(s, [StopUp] + FlagEach(ids)) == SysRun(SysNext(s, StopUp), FlagEach(ids))
  {
    hide SysNext;
    var all := [StopUp] + FlagEach(ids);
    assert all[0] == StopUp && all[1..] == FlagEach(ids);
  }

  // ---------------------------------------------------------------- the client's end

  /** For each stream: done, then its local connection. */
  function CloseEach(ids: seq<StreamId>): seq<Event> {
    if ids == [] then [] else [ClientStep(ids[0], FlagDone), ClientStep(ids[0], CloseConn)] + CloseEach(ids[1..])
  }

  predicate Closable(e: ClientEnd) {
    e.known && !e.live && !e.buf.closed && !e.connClosed
  }

  function Shut(clients: map<StreamId, ClientEnd>, ids: seq<StreamId>): map<StreamId, ClientEnd> {
    map id | id in clients ::
      if id in ids then clients[id].(buf := Buf(clients[id].buf.inbox, true), connClosed := true) else clients[id]
  }

  lemma CloseSteps(s: Sys, id: StreamId)
    requires id in s.clients && Closable(s.clients[id])
    ensures
      var flag, close := ClientStep(id, FlagDone), ClientStep(id, CloseConn);
      && SysCan(s, flag) && SysCan(SysNext(s, flag), close)
      && SysNext(SysNext(s, flag), close) == s.(clients := Shut(s.clients, [id]))
  {
    assert s.up + [] == s.up;
    assert Frames(id, []) == [];
    var e := s.clients[id];
    var flagged := e.(buf := Buf(e.buf.inbox, true));
    var s1 := SysNext(s, ClientStep(id, FlagDone));
    assert s1 == s.(clients := s.clients[id := flagged]);
    assert s1.clients[id := flagged.(connClosed := true)] == Shut(s.clients, [id]);
  }

  lemma TwoSteps(s: Sys, a: Event, b: Event, rest: seq<Event>)
    requires SysCan(s, a) && SysCan(SysNext(s, a), b) && SysRuns(SysNext(SysNext(s, a), b), rest)
    ensures SysRuns(s, [a, b] + rest) && SysRun(s, [a, b] + rest) == SysRun(SysNext(SysNext(s, a), b), rest)
  {
    hide SysNext, SysCan;
    var all := [a, b] + rest;
    assert all[1..] == [b] + rest && ([b] + rest)[1..] == rest;
    assert SysRuns(SysNext(s, a), [b] + rest);
  }

  lemma {:induction false} ClosesRun(s: Sys, ids: seq<StreamId>)
    requires forall id | id in ids :: id in s.clients && Closable(s.clients[id])
    requires forall i, j | 0 <= i < j < |ids| :: ids[i] != ids[j]
    ensures SysRuns(s, CloseEach(ids)) && SysRun(s, CloseEach(ids)) == s.(clients := Shut(s.clients, ids))
    decreases |ids|
  {
    if ids == [] {
      assert Shut(s.clients, []) == s.clients;
    } else {
      var s1 := s.(clients := Shut(s.clients, [ids[0]]));
      CloseSteps(s, ids[0]);
      assert ids[0] !in ids[1..];
      ClosesRun(s1, ids[1..]);
      TwoSteps(s, ClientStep(ids[0], FlagDone), ClientStep(ids[0], CloseConn), CloseEach(ids[1..]));
      assert ids == [ids[0]] + ids[1..];
      assert Shut(s1.clients, ids[1..]) == Shut(s.clients, ids);
      hide SysNext, SysCan;
    }
  }

  function LiveClients(s: Sys): set<StreamId> {
    set id | id in s.clients && s.clients[id].live
  }

  lemma StoppedClients(s: Sys, ids: seq<StreamId>)
    requires SysCan(s, StopDown) && Orderly(s) && Lists(ids, LiveClients(s))
    ensures
      var stopped := SysNext(s, StopDown).clients;
      && (forall id | id in ids :: id in stopped && Closable(stopped[id]))
      && (forall id | id in ids :: id in Shut(stopped, ids) && Shut(stopped, ids)[id].connClosed)
      && forall s': Sys | s'.clients == Shut(stopped, ids) :: Ended(ClientTable(s), ClientTable(s'))
  {
    var stopped := SysNext(s, StopDown).clients;
    assert forall id | id in s.clients :: id in stopped && stopped[id] == s.clients[id].(live := false);
    assert stopped.Keys == s.clients.Keys;
    hide SysNext, SysCan;
    assert forall id | id in ids :: id in s.clients && s.clients[id].live;
    ShutEnds(s.clients, stopped, ids);
  }

  lemma ShutEnds(clients: map<StreamId, ClientEnd>, stopped: map<StreamId, ClientEnd>, ids: seq<StreamId>)
    requires stopped.Keys == clients.Keys && forall id | id in clients :: stopped[id] == clients[id].(live := false)
    requires forall id | id in clients :: clients[id].live <==> id in ids
    requires forall id | id in ids :: id in clients && clients[id].known
    ensures Ended(TableOf(clients), TableOf(Shut(stopped, ids)))
  {
    var t, t' := TableOf(clients), TableOf(Shut(stopped, ids));
    forall id
      ensures id in t' <==> id in t
      ensures id in t ==> t'[id] == if t[id].live then Entry(false, Buf(t[id].buf.inbox, true)) else t[id]
    {
    }
  }

  /** The same at the client's end, where the local connection of every stream taken out is closed besides. */
  lemma ClientEnds(es: seq<Event>, ids: seq<StreamId>)
    requires SysRuns(INIT, es) && SysRun(INIT, es).cloop == GIdle && Lists(ids, LiveClients(SysRun(INIT, es)))
    ensures
      var s := SysRun(INIT, es);
      var all := [StopDown] + CloseEach(ids);
      && SysRuns(s, all)
      && Ended(ClientTable(s), ClientTable(SysRun(s, all)))
      && ClientTable(SysRun(s, all)) == Cleared(ClientTable(s))
      && forall id | id in ids :: id in SysRun(s, all).clients && SysRun(s, all).clients[id].connClosed
  {
    RunKeepsOrder(INIT, es);
    var s := SysRun(INIT, es);
    assert SysCan(s, StopDown);
    hide SysNext, SysCan, SysRuns, SysRun, CloseEach, Orderly, WellFormed, Shut;
    hide Closable, Ended, LiveClients, ClientTable, Cleared;
    StoppedClients(s, ids);
    ClosesRun(SysNext(s, StopDown), ids);
    StopDownAnd(s, ids);
    EndedIsCleared(ClientTable(s), ClientTable(SysRun(s, [StopDown] + CloseEach(ids))));
  }

  lemma StopDownAnd(s: Sys, ids: seq<StreamId>)
    requires SysCan(s, StopDown) && SysRuns(SysNext(s, StopDown), CloseEach(ids))
    ensures SysRuns(s, [StopDown] + CloseEach(ids))
    ensures SysRun(s, [StopDown] + CloseEach(ids)) == SysRun(SysNext(s, StopDown), CloseEach(ids))
  {
    hide SysNext, CloseEach;
    var all := [StopDown] + CloseEach(ids);
    assert all[0] == StopDown && all[1..] == CloseEach(ids);
  }
}
