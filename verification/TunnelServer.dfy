/** The server's end of one tunnel: stream table, frame writer, read loop and the handler's drain. */
module TunnelServer {
  import opened Wrappers
  import opened TunnelWire
  import opened TunnelPipe
  import opened TunnelSystem
  import opened StreamTable

  /** A byte sink such as a hijacked connection; it takes `room` more bytes and then fails. */
  class Conn {
    var written: Bytes
    var room: nat

    constructor (room: nat)
      ensures written == [] && this.room == room
    {
      written := [];
      this.room := room;
    }

    /** A failing write may still have moved a prefix of its buffer. */
    method Write(data: Bytes) returns (ok: bool)
      modifies this
      ensures ok <==> |data| <= old(room)
      ensures ok ==> written == old(written) + data && room == old(room) - |data|
      ensures !ok ==> written == old(written) + data[..old(room)] && room == 0
    {
      ok := |data| <= room;
      if ok {
        written := written + data;
        room := room - |data|;
      } else {
        written := written + data[..room];
        room := 0;
      }
    }
  }

  class TunnelStream {
    const id: StreamId
    var inbox: seq<Bytes>
    var closed: bool

    constructor (id: StreamId)
      ensures this.id == id && inbox == [] && !closed
    {
      this.id := id;
      inbox, closed := [], false;
    }

    /** Guarded by a once: closing again changes nothing. */
    method Close()
      modifies this`closed
      ensures closed
    {
      if !closed {
        closed := true;
      }
    }

    /**
     * The handler's closed branch: everything left in the inbox goes to the browser, in order,
     * until the inbox is empty or a write fails.
     */
    method Drain(browser: Conn) returns (ok: bool)
      requires closed
      modifies this`inbox, browser
      ensures ok ==> inbox == [] && browser.written == old(browser.written) + Concat(old(inbox))
      ensures !ok ==> old(browser.written) <= browser.written <= old(browser.written) + Concat(old(inbox))
      ensures ok <==> |Concat(old(inbox))| <= old(browser.room)
    {
      ok := true;
      ghost var all := browser.written + Concat(inbox);
      while inbox != []
        invariant browser.written + Concat(inbox) == all && old(browser.written) <= browser.written
        invariant browser.room + |browser.written| == old(browser.room + |browser.written|)
        decreases |inbox|
      {
        ghost var before := browser.written;
        var data := inbox[0];
        inbox := inbox[1..];
        Regroup(before, data, Concat(inbox));
        var room := browser.room;
        ok := browser.Write(data);
        if !ok {
          Regroup(before, data[..room], data[room..] + Concat(inbox));
          Regroup(data[..room], data[room..], Concat(inbox));
          assert data[..room] + data[room..] == data;
          return;
        }
      }
      assert browser.written + [] == browser.written;
    }
  }

  lemma Regroup(a: Bytes, b: Bytes, c: Bytes)
    ensures a + (b + c) == (a + b) + c
    ensures |a + b| == |a| + |b|
  {
  }

  /** The closing loop. */
  method ShutStreams(ss: set<TunnelStream>)
    modifies ss`closed
    ensures forall s | s in ss :: s.closed
  {
    var todo := ss;
    while todo != {}
      invariant todo <= ss
      invariant forall s | s in ss && s !in todo :: s.closed
      decreases |todo|
    {
      var s :| s in todo;
      s.Close();
      todo := todo - {s};
    }
  }

  class TunnelConn {
    var streams: map<StreamId, TunnelStream>
    var nextStreamId: StreamId
    /** Messages handed to the WebSocket. */
    var sent: seq<Message>
    /** Every stream this tunnel ever handed out. */
    ghost var handedOut: map<StreamId, TunnelStream>

    ghost predicate Valid()
      reads this, handedOut.Values
    {
      && (forall id | id in handedOut :: handedOut[id].id == id && 1 <= id <= nextStreamId)
      && (forall id | id in streams :: id in handedOut && streams[id] == handedOut[id])
      && (forall id | id in streams :: !streams[id].closed)
    }

    ghost function Contents(): Table
      reads this, handedOut.Values
    {
      map id | id in handedOut :: Entry(id in streams, Buf(handedOut[id].inbox, handedOut[id].closed))
    }

    constructor ()
      ensures Valid() && Contents() == map[] && nextStreamId == 0 && sent == []
    {
      streams, nextStreamId, sent, handedOut := map[], 0, [], map[];
    }

    /** One whole message per frame; the mutex keeps frames from interleaving. */
    method WriteFrame(kind: Byte, id: StreamId, payload: Bytes) returns (ok: bool)
      modifies this`sent
      ensures ok ==> sent == old(sent) + [Encode(Frame(kind, id, payload))]
      ensures !ok ==> sent == old(sent)
    {
      var buf := BuildFrame(Frame(kind, id, payload));
      ok := *;
      if ok {
        sent := sent + [buf[..]];
      }
    }

    method NewStream() returns (s: TunnelStream)
      requires Valid() && nextStreamId + 1 < ID_LIMIT
      modifies this
      ensures Valid() && fresh(s) && sent == old(sent)
      ensures nextStreamId == old(nextStreamId) + 1 && s.id == nextStreamId
      ensures handedOut == old(handedOut)[s.id := s] && s.id !in old(handedOut)
      ensures Contents() == Enter(old(Contents()), s.id)
    {
      ghost var t, all := Contents(), handedOut;
      nextStreamId := nextStreamId + 1;
      s := new TunnelStream(nextStreamId);
      streams := streams[s.id := s];
      handedOut := handedOut[s.id := s];
      assert forall k | k in all :: handedOut[k] == all[k] && handedOut[k] != s;
      assert Contents() == Enter(t, s.id);
    }

    method GetStream(id: StreamId) returns (s: TunnelStream?)
      requires Valid()
      ensures s == null <==> id !in Contents() || !Contents()[id].live
      ensures s != null ==> s == handedOut[id]
    {
      s := if id in streams then streams[id] else null;
    }

    method RemoveStream(id: StreamId)
      requires Valid()
      modifies this`streams, handedOut.Values
      ensures Valid()
      ensures Contents() == Removed(old(Contents()), id)
    {
      if id in streams {
        var s := streams[id];
        streams := streams - {id};
        s.Close();
      }
    }

    method CloseAllStreams()
      requires Valid()
      modifies this`streams, handedOut.Values
      ensures Valid() && streams == map[] && handedOut == old(handedOut)
      ensures Contents() == Cleared(old(Contents()))
      ensures forall id | id in old(streams) :: old(streams)[id].closed && old(streams)[id].inbox == old(streams[id].inbox)
      ensures forall id | id in handedOut && id !in old(streams) ::
                handedOut[id].closed == old(handedOut[id].closed) && handedOut[id].inbox == old(handedOut[id].inbox)
    {
      ShutStreams(streams.Values);
      assert forall id | id in handedOut && id !in streams :: handedOut[id] !in streams.Values;
      streams := map[];
    }

    /** One round of the read loop. A full inbox makes it wait; nothing changes until there is room. */
    method HandleMessage(raw: Message) returns (blocked: bool)
      requires Valid()
      modifies this`streams, handedOut.Values
      ensures Valid()
      ensures blocked <==> Blocks(old(Contents()), raw)
      ensures Contents() == if blocked then old(Contents()) else Dispatch(old(Contents()), raw)
    {
      blocked := false;
      if |raw| < 5 {
        return;
      }
      var kind, id, payload := raw[0], Uint32(raw[1..5]), raw[5..];
      var stream := GetStream(id);
      if stream == null {
        return;
      }
      if kind == FRAME_DATA {
        if |stream.inbox| < INBOX_CAP {
          stream.inbox := stream.inbox + [payload];
        } else {
          blocked := true;
        }
      } else if kind == FRAME_CLOSE {
        RemoveStream(id);
      }
    }

    /**
     * The read loop over everything the WebSocket delivers before it fails. When no inbox ever
     * fills up, the table ends as the fold of all messages with every stream closed.
     */
    method ServeConn(incoming: seq<Message>) returns (served: nat)
      requires Valid()
      modifies this`streams, handedOut.Values
      ensures Valid() && served <= |incoming| && handedOut == old(handedOut)
      ensures served == |incoming| ==>
                && streams == map[]
                && (forall id | id in old(streams) ::
                      && old(streams)[id].closed
                      && old(streams)[id].inbox == old(streams[id].inbox) + UpToClose(Project(incoming, id)))
                && (forall id | id in handedOut && id !in old(streams) ::
                      handedOut[id].closed == old(handedOut[id].closed) && handedOut[id].inbox == old(handedOut[id].inbox))
      ensures served == |incoming| ==> Contents() == Cleared(DispatchAll(old(Contents()), incoming))
      ensures served < |incoming| ==>
                && Contents() == DispatchAll(old(Contents()), incoming[..served])
                && Blocks(Contents(), incoming[served])
    {
      served := 0;
      while served < |incoming|
        invariant 0 <= served <= |incoming|
        invariant Valid() && handedOut == old(handedOut)
        invariant Contents() == DispatchAll(old(Contents()), incoming[..served])
      {
        var blocked := HandleMessage(incoming[served]);
        if blocked {
          return;
        }
        assert incoming[..served + 1][..served] == incoming[..served];
        served := served + 1;
      }
      assert incoming[..served] == incoming;
      ghost var before := old(Contents());
      CloseAllStreams();
      forall id | id in before
        ensures
          var after := Contents();
          && id in after && !after[id].live
          && if before[id].live
             then after[id].buf == Buf(before[id].buf.inbox + UpToClose(Project(incoming, id)), true)
             else after[id] == before[id]
      {
        ServedAndCleared(before, incoming, id);
      }
      hide DispatchAll, Project, UpToClose, Cleared;
      ghost var after := Contents();
      assert forall id | id in handedOut :: after[id].buf == Buf(handedOut[id].inbox, handedOut[id].closed);
    }
  }
}
