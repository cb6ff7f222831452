/** The command-line client's end of one tunnel session: stream map, frame dispatch, close. */
module TunnelClient {
  import opened Wrappers
  import opened TunnelWire
  import opened TunnelPipe
  import opened TunnelSystem
  import opened StreamTable

  class CliStream {
    var inbox: seq<Bytes>
    var done: bool
    var connClosed: bool

    const id: StreamId

    constructor (id: StreamId)
      ensures this.id == id && inbox == [] && !done && !connClosed
    {
      this.id := id;
      inbox, done, connClosed := [], false, false;
    }

    /** `closeS`: done is raised and the local connection closed, at most once. */
    method Close()
      requires done == connClosed
      modifies this`done, this`connClosed
      ensures done && connClosed
    {
      if !done {
        done := true;
        connClosed := true;
      }
    }
  }

  /** The closing loop of a session that ends. */
  method ShutAll(ss: set<CliStream>)
    requires forall s | s in ss :: s.done == s.connClosed
    modifies ss`done, ss`connClosed
    ensures forall s | s in ss :: s.done && s.connClosed
  {
    var todo := ss;
    while todo != {}
      invariant todo <= ss
      invariant forall s | s in ss :: s.done == s.connClosed && (s !in todo ==> s.done)
      decreases |todo|
    {
      var s :| s in todo;
      s.Close();
      todo := todo - {s};
    }
  }

  /** How the rest of the world answers while one message is handled. */
  datatype Env = Env(dialOk: bool, writeOk: bool)

  /** Client table and answered CLOSE frames after one message, with nobody in between. */
  function CliDispatch(t: Table, raw: Message, env: Env): (Table, seq<Message>) {
    match Read(raw)
    case Some((id, Open)) =>
      if env.dialOk then (Enter(t, id), []) else (t, if env.writeOk then [FrameOf(id, Close)] else [])
    case Some((id, Data(bytes))) =>
      if id !in t || !t[id].live then (t, [])
      else if |t[id].buf.inbox| < INBOX_CAP then (PushEntry(t, id, bytes), [])
      else (Removed(t, id), if env.writeOk then [FrameOf(id, Close)] else [])
    case Some((id, Close)) => (Removed(t, id), [])
    case None => (t, [])
  }

  class CliSession {
    var streams: map<StreamId, CliStream>
    var sent: seq<Message>
    /** The latest stream opened under each id. */
    ghost var opened': map<StreamId, CliStream>

    ghost predicate Valid()
      reads this, opened'.Values
    {
      && (forall id | id in opened' :: opened'[id].id == id)
      && (forall id | id in streams :: id in opened' && streams[id] == opened'[id])
      && (forall id | id in opened' :: opened'[id].done == opened'[id].connClosed)
      && (forall id | id in streams :: !streams[id].done)
    }

    ghost function Contents(): Table
      reads this, opened'.Values
    {
      map id | id in opened' :: Entry(id in streams, Buf(opened'[id].inbox, opened'[id].done))
    }

    constructor ()
      ensures Valid() && Contents() == map[] && sent == []
    {
      streams, sent, opened' := map[], [], map[];
    }

    method WriteFrame(kind: Byte, id: StreamId, payload: Bytes, ok: bool)
      modifies this`sent
      ensures sent == old(sent) + if ok then [Encode(Frame(kind, id, payload))] else []
    {
      var buf := BuildFrame(Frame(kind, id, payload));
      if ok {
        sent := sent + [buf[..]];
      }
    }

    /** `closeStream`: out of the map under the lock, then closed. */
    method CloseStream(id: StreamId)
      requires Valid()
      modifies this`streams, opened'.Values
      ensures Valid()
      ensures Contents() == Removed(old(Contents()), id)
      ensures id in old(streams) ==> old(streams[id]).done && old(streams[id]).connClosed
    {
      if id in streams {
        var s := streams[id];
        streams := streams - {id};
        s.Close();
      }
    }

    method CloseAll()
      requires Valid()
      modifies this`streams, opened'.Values
      ensures Valid() && streams == map[] && opened' == old(opened')
      ensures Contents() == Cleared(old(Contents()))
      ensures forall id | id in old(streams) ::
                && old(streams)[id].done && old(streams)[id].connClosed
                && old(streams)[id].inbox == old(streams[id].inbox)
      ensures forall id | id in opened' && id !in old(streams) ::
                && opened'[id].done == old(opened'[id].done) && opened'[id].connClosed == old(opened'[id].connClosed)
                && opened'[id].inbox == old(opened'[id].inbox)
    {
      ShutAll(streams.Values);
      assert forall id | id in opened' && id !in streams :: opened'[id] !in streams.Values;
      streams := map[];
    }

    /** A dialled local connection enters the map, in place of any older stream under the id. */
    method OpenStream(id: StreamId)
      requires Valid()
      modifies this`streams, this`opened'
      ensures Valid() && fresh(opened'.Values - old(opened'.Values))
      ensures Contents() == Enter(old(Contents()), id)
    {
      ghost var t, all := Contents(), opened';
      var s := new CliStream(id);
      streams := streams[id := s];
      opened' := opened'[id := s];
      assert forall k | k in all && k != id :: opened'[k] == all[k] && opened'[k] != s;
      assert Contents() == Enter(t, id);
    }

    /** Never waits: with a full inbox the stream is aborted instead. */
    method Deliver(id: StreamId, payload: Bytes, writeOk: bool)
      requires Valid()
      modifies this`streams, this`sent, opened'.Values
      ensures Valid()
      ensures
        var t := old(Contents());
        if id !in t || !t[id].live then Contents() == t && sent == old(sent)
        else if |t[id].buf.inbox| < INBOX_CAP then Contents() == PushEntry(t, id, payload) && sent == old(sent)
        else Contents() == Removed(t, id) && sent == old(sent) + if writeOk then [FrameOf(id, Close)] else []
    {
      if id in streams {
        var s := streams[id];
        if |s.inbox| < INBOX_CAP {
          s.inbox := s.inbox + [payload];
        } else {
          WriteFrame(FRAME_CLOSE, id, [], writeOk);
          CloseStream(id);
        }
      }
    }

    /**
     * One round of the session's read loop. It never waits: a DATA frame for a full inbox aborts
     * that stream alone with a CLOSE frame.
     */
    method HandleMessage(raw: Message, env: Env)
      requires Valid()
      modifies this, opened'.Values
      ensures Valid()
      ensures fresh(opened'.Values - old(opened'.Values))
      ensures Contents() == CliDispatch(old(Contents()), raw, env).0
      ensures sent == old(sent) + CliDispatch(old(Contents()), raw, env).1
    {
      if |raw| < 5 {
        return;
      }
      var kind, id, payload := raw[0], Uint32(raw[1..5]), raw[5..];
      if kind == FRAME_OPEN {
        if env.dialOk {
          OpenStream(id);
        } else {
          WriteFrame(FRAME_CLOSE, id, [], env.writeOk);
        }
      } else if kind == FRAME_DATA {
        Deliver(id, payload, env.writeOk);
      } else if kind == FRAME_CLOSE {
        CloseStream(id);
      }
    }
  }

  // ---------------------------------------------------------------- agreement with the tunnel's steps

  function TableOf(clients: map<StreamId, ClientEnd>): Table {
    map id | id in clients && clients[id].known :: Entry(clients[id].live, clients[id].buf)
  }

  function ClientTable(s: Sys): Table {
    TableOf(s.clients)
  }

  /** A record exists for every stream whose dial was attempted; one that failed was never live. */
  ghost predicate Dialled(s: Sys) {
    forall id | id in s.clients :: s.clients[id].live ==> s.clients[id].known
  }

  /** The tunnel's atomic steps that one handled message goes through. */
  function Handled(s: Sys, env: Env): Sys
    requires s.cloop == GIdle && s.down != [] && FlagsFollow(ClientTable(s)) && Dialled(s)
  {
    var s1 := SysNext(s, TakeDown(env.dialOk, env.writeOk));
    if s1.cloop == GIdle then s1
    else if SysCan(s1, PushDown) then SysNext(s1, PushDown)
    else if SysCan(s1, OverflowDown) then Aborted(s1, env.writeOk)
    else s1
  }

  /** Giving up on a full inbox: a CLOSE frame, then out of the map. */
  function Aborted(s: Sys, writeOk: bool): Sys
    requires SysCan(s, OverflowDown)
  {
    SysNext(SysNext(SysNext(s, OverflowDown), OverflowFrameDown(writeOk)), OverflowLeaveDown)
  }

  /** The two tables hold the same inboxes and the same streams in the map. */
  predicate SameStreams(t: Table, t': Table) {
    && (forall id | id in t :: id in t' && t'[id].live == t[id].live && t'[id].buf.inbox == t[id].buf.inbox)
    && (forall id | id in t' && id !in t :: !t'[id].live)
  }

  lemma OneFrame(id: StreamId, item: Item)
    ensures Frames(id, [item]) == [FrameOf(id, item)]
  {
    assert |[item][1..]| == 0;
  }

  /** The two steps of a DATA frame that finds room. */
  lemma PushIsTunnelSteps(s: Sys, env: Env, id: StreamId, bytes: Bytes)
    requires s.cloop == GIdle && s.down != []
    requires Read(s.down[0]) == Some((id, Data(bytes))) && id in s.clients && s.clients[id].live && s.clients[id].known
    requires |s.clients[id].buf.inbox| < INBOX_CAP
    ensures
      var s1 := SysNext(s, TakeDown(env.dialOk, env.writeOk));
      && s1.cloop == At(id, Deliver(bytes)) && SysCan(s1, PushDown)
      && SysNext(s1, PushDown).cloop == GIdle && SysNext(s1, PushDown).up == s.up
      && ClientTable(SysNext(s1, PushDown)) == PushEntry(ClientTable(s), id, bytes)
  {
    hide Read;
    assert s.up + [] == s.up;
    assert s.clients[id := s.clients[id]] == s.clients;
  }

  lemma AbortEffect(s: Sys, id: StreamId, ok: bool)
    requires SysCan(s, OverflowDown) && s.cloop.id == id && id in s.clients
    ensures
      var c := s.clients[id].(sentClose := s.clients[id].sentClose || ok, live := false);
      Aborted(s, ok) ==
      s.(clients := s.clients[id := c], cloop := GIdle, up := s.up + Frames(id, if ok then [Close] else []))
  {
    hide Frames;
    var s2 := SysNext(s, OverflowDown);
    assert s2 == s.(cloop := At(id, Overflow));
    var s3 := SysNext(s2, OverflowFrameDown(ok));
    var c := s.clients[id].(sentClose := s.clients[id].sentClose || ok);
    assert s3 == s.(clients := s.clients[id := c], cloop := At(id, OverflowLeaving),
                    up := s.up + Frames(id, if ok then [Close] else []));
    assert s3.clients[id := c.(live := false)] == s.clients[id := c.(live := false)];
  }

  /** The four steps of a DATA frame that finds the inbox full. */
  lemma AbortIsTunnelSteps(s: Sys, env: Env, id: StreamId, bytes: Bytes)
    requires s.cloop == GIdle && s.down != []
    requires Read(s.down[0]) == Some((id, Data(bytes))) && id in s.clients && s.clients[id].live && s.clients[id].known
    requires |s.clients[id].buf.inbox| >= INBOX_CAP && !s.clients[id].buf.closed
    ensures
      var s1 := SysNext(s, TakeDown(env.dialOk, env.writeOk));
      && s1.cloop == At(id, Deliver(bytes)) && !SysCan(s1, PushDown) && SysCan(s1, OverflowDown)
      && Aborted(s1, env.writeOk).cloop == GIdle
      && Aborted(s1, env.writeOk).up == s.up + (if env.writeOk then [FrameOf(id, Close)] else [])
      && ClientTable(Aborted(s1, env.writeOk)) == Unlink(ClientTable(s), id)
  {
    var s1 := SysNext(s, TakeDown(env.dialOk, env.writeOk));
    OneFrame(id, Close);
    assert s.up + [] == s.up;
    assert s.clients[id := s.clients[id]] == s.clients;
    assert s1.clients == s.clients && s1.cloop == At(id, Deliver(bytes)) && s1.up == s.up;
    hide Read, SysNext, Aborted;
    AbortEffect(s1, id, env.writeOk);
  }

  /** The case of a DATA frame for a live stream. */
  lemma DataIsTunnelSteps(s: Sys, env: Env, id: StreamId, bytes: Bytes)
    requires s.cloop == GIdle && s.down != [] && FlagsFollow(ClientTable(s)) && Dialled(s)
    requires Read(s.down[0]) == Some((id, Data(bytes))) && ClientOf(s, id).live
    ensures Handled(s, env).cloop == GIdle
    ensures Handled(s, env).up == s.up + CliDispatch(ClientTable(s), s.down[0], env).1
    ensures SameStreams(CliDispatch(ClientTable(s), s.down[0], env).0, ClientTable(Handled(s, env)))
  {
    var t, c := ClientTable(s), s.clients[id];
    assert t[id] == Entry(true, c.buf);
    assert s.up + [] == s.up;
    if |c.buf.inbox| < INBOX_CAP {
      PushIsTunnelSteps(s, env, id, bytes);
      hide SysNext, ClientTable, Read;
      assert CliDispatch(t, s.down[0], env) == (PushEntry(t, id, bytes), []);
    } else {
      AbortIsTunnelSteps(s, env, id, bytes);
      hide SysNext, ClientTable, Read;
      assert CliDispatch(t, s.down[0], env).0 == Removed(t, id);
    }
  }

  /** The cases where one step of the tunnel is the whole story. */
  lemma OpenIsTunnelStep(s: Sys, env: Env, id: StreamId)
    requires s.cloop == GIdle && s.down != [] && Dialled(s) && Read(s.down[0]) == Some((id, Open))
    ensures
      var s1 := SysNext(s, TakeDown(env.dialOk, env.writeOk));
      && s1.cloop == GIdle
      && s1.up == s.up + CliDispatch(ClientTable(s), s.down[0], env).1
      && SameStreams(CliDispatch(ClientTable(s), s.down[0], env).0, ClientTable(s1))
  {
    OneFrame(id, Close);
    assert s.up + [] == s.up;
    var s1 := SysNext(s, TakeDown(env.dialOk, env.writeOk));
    var (c, work, out) := ClientTake(ClientOf(s, id), Open, env.dialOk, env.writeOk);
    assert s1.clients == s.clients[id := c] && s1.cloop == GIdle && s1.up == s.up + Frames(id, out);
    if env.dialOk {
      assert TableOf(s1.clients) == Enter(TableOf(s.clients), id);
    } else {
      RefusedKeepsStreams(s.clients, id, c);
    }
    hide Read, SysNext, ClientTake, TableOf;
  }

  /** A failed dial leaves at most a record that is not in the map. */
  lemma RefusedKeepsStreams(clients: map<StreamId, ClientEnd>, id: StreamId, c: ClientEnd)
    requires forall k | k in clients :: clients[k].live ==> clients[k].known
    requires id in clients && clients[id].known ==> c.live == clients[id].live && c.buf == clients[id].buf
    requires !(id in clients && clients[id].known) ==> !c.live
    requires c.known
    ensures SameStreams(TableOf(clients), TableOf(clients[id := c]))
  {
    var t, t' := TableOf(clients), TableOf(clients[id := c]);
    assert forall k | k != id :: k in t' <==> k in t;
    assert forall k | k in t && k != id :: t'[k] == t[k];
  }

  lemma UnlinkKeepsStreams(clients: map<StreamId, ClientEnd>, id: StreamId, c: ClientEnd)
    requires c == if id in clients then clients[id] else NO_CLIENT
    ensures SameStreams(Removed(TableOf(clients), id), TableOf(clients[id := c.(live := false)]))
  {
    var t, t' := TableOf(clients), TableOf(clients[id := c.(live := false)]);
    assert forall k | k != id :: k in t' <==> k in t;
    assert forall k | k in t && k != id :: t'[k] == t[k];
    assert id in t' <==> id in t;
  }

  lemma TouchKeepsStreams(clients: map<StreamId, ClientEnd>, id: StreamId, c: ClientEnd)
    requires c == if id in clients then clients[id] else NO_CLIENT
    ensures SameStreams(TableOf(clients), TableOf(clients[id := c]))
  {
    assert TableOf(clients[id := c]) == TableOf(clients);
  }

  lemma OtherIsTunnelStep(s: Sys, env: Env, id: StreamId, item: Item)
    requires s.cloop == GIdle && s.down != [] && Dialled(s)
    requires Read(s.down[0]) == Some((id, item)) && item != Open && (item.Data? ==> !ClientOf(s, id).live)
    ensures
      var s1 := SysNext(s, TakeDown(env.dialOk, env.writeOk));
      && s1.cloop == GIdle
      && s1.up == s.up + CliDispatch(ClientTable(s), s.down[0], env).1
      && SameStreams(CliDispatch(ClientTable(s), s.down[0], env).0, ClientTable(s1))
  {
    assert s.up + [] == s.up;
    var c := ClientOf(s, id);
    var s1 := SysNext(s, TakeDown(env.dialOk, env.writeOk));
    UnlinkKeepsStreams(s.clients, id, c);
    TouchKeepsStreams(s.clients, id, c);
    if item.Data? {
      assert s1.clients == s.clients[id := c] && s1.cloop == GIdle && s1.up == s.up;
      assert CliDispatch(ClientTable(s), s.down[0], env) == (ClientTable(s), []);
    } else {
      assert s1.clients == s.clients[id := c.(live := false)] && s1.cloop == GIdle && s1.up == s.up;
      assert CliDispatch(ClientTable(s), s.down[0], env) == (Removed(ClientTable(s), id), []);
    }
    hide SysNext, SameStreams, CliDispatch, TableOf, Read;
  }

  /**
   * Handling a message undisturbed writes what the tunnel's steps write, and leaves the same
   * inboxes and the same streams in the map; only the close flags come in a later step.
   */
  lemma HandlingIsTunnelSteps(s: Sys, env: Env)
    requires s.cloop == GIdle && s.down != [] && FlagsFollow(ClientTable(s)) && Dialled(s)
    ensures Handled(s, env).cloop == GIdle
    ensures Handled(s, env).up == s.up + CliDispatch(ClientTable(s), s.down[0], env).1
    ensures SameStreams(CliDispatch(ClientTable(s), s.down[0], env).0, ClientTable(Handled(s, env)))
  {
    match Read(s.down[0])
    case None =>
      assert s.up + [] == s.up;
    case Some((id, item)) =>
      if item.Data? && ClientOf(s, id).live {
        DataIsTunnelSteps(s, env, id, item.bytes);
      } else {
        if item == Open {
          OpenIsTunnelStep(s, env, id);
        } else {
          OtherIsTunnelStep(s, env, id, item);
        }
        hide SysNext, Read, CliDispatch, ClientTable;
      }
  }
}
