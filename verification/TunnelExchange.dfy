/**
 * One connection through the tunnel from start to finish: request there, response back, and both ends
 * leave on their own. And the sizes of the frames that travel, over every run.
 */
module TunnelExchange {
  import opened TunnelWire
  import opened TunnelPipe
  import opened TunnelSafety

  // ---------------------------------------------------------------- frame sizes

  /** No empty DATA frame and none longer than a chunk. */
  predicate Sized(items: seq<Item>) {
    forall i | 0 <= i < |items| && items[i].Data? :: 1 <= |items[i].bytes| <= 16384
  }

  predicate HoldsChunk(r: Reader) {
    r.Holding? ==> 1 <= |r.bytes| <= 16384
  }

  predicate Chunked(p: Pipe) {
    Sized(p.downRead) && Sized(p.down) && Sized(p.upRead) && Sized(p.up) && HoldsChunk(p.s.reader) && HoldsChunk(p.c.reader)
  }

  lemma ServerSends(e: ServerEnd, a: ServerAct)
    requires ServerCan(e, a) && HoldsChunk(e.reader)
    ensures Sized(ServerDo(e, a).1) && HoldsChunk(ServerDo(e, a).0.reader)
  {
  }

  lemma ClientSends(e: ClientEnd, a: ClientAct)
    requires ClientCan(e, a) && HoldsChunk(e.reader)
    ensures Sized(ClientDo(e, a).1) && HoldsChunk(ClientDo(e, a).0.reader)
  {
  }

  lemma StepSized(p: Pipe, a: Act)
    requires Can(p, a) && Chunked(p)
    ensures Chunked(Next(p, a))
  {
    if a.Server? {
      ServerSends(p.s, a.sa);
    } else if a.Client? {
      ClientSends(p.c, a.ca);
    }
    hide ServerDo, ClientDo, ServerCan, ClientCan;
  }

  /** In every run every DATA frame carries between 1 and 16384 bytes. */
  lemma {:induction false} RunSized(p: Pipe, acts: seq<Act>)
    requires Runs(p, acts) && Chunked(p)
    ensures Chunked(Run(p, acts))
    decreases |acts|
  {
    if acts != [] {
      StepSized(p, acts[0]);
      hide Chunked, Next, Can;
      RunSized(Next(p, acts[0]), acts[1..]);
    }
  }

  // ---------------------------------------------------------------- a connection from start to finish

  const REQUEST: Bytes := [71]
  const MORE: Bytes := [72]
  const RESPONSE: Bytes := [79]

  /** The request is replayed and dialled, and reaches the local service. */
  lemma RequestArrives() returns (acts: seq<Act>)
    ensures Runs(START, acts)
    ensures
      Run(START, acts) ==
      Pipe(NewServer(REQUEST).(phase := Piping, reader := Reading), Idle, [], [],
           ClientEnd(true, true, Buf([], false), Reading, Looping, false, [], REQUEST, REQUEST, false, false),
           Idle, [Open, Data(REQUEST)], [])
  {
    hide Run, Runs;
    acts := RequestSent();
    var p := Run(START, acts);
    acts, p := Play(START, acts, CTake(true, true));
    acts, p := Play(START, acts, CTake(true, true));
    acts, p := Play(START, acts, CPush);
    acts, p := Play(START, acts, Client(WriteLocal(true, 0)));
    assert p.c.toLocal == REQUEST;
  }

  /** The browser sends one more byte, and it arrives as well. */
  lemma MoreArrives() returns (acts: seq<Act>)
    ensures Runs(START, acts)
    ensures
      Run(START, acts) ==
      Pipe(NewServer(REQUEST).(phase := Piping, reader := Reading, fromBrowser := MORE), Idle, [], [],
           ClientEnd(true, true, Buf([], false), Reading, Looping, false, [], REQUEST + MORE, REQUEST + MORE, false, false),
           Idle, [Open, Data(REQUEST), Data(MORE)], [])
  {
    hide Run, Runs;
    acts := RequestArrives();
    var p := Run(START, acts);
    acts, p := Play(START, acts, Server(BrowserRead(MORE, false)));
    acts, p := Play(START, acts, Server(BrowserForward(true)));
    acts, p := Play(START, acts, CTake(true, true));
    acts, p := Play(START, acts, CPush);
    acts, p := Play(START, acts, Client(WriteLocal(true, 0)));
    assert [] + MORE == MORE;
  }

  /** The local service answers and closes; the client says so and takes the stream out of its map. */
  lemma ResponseSent() returns (acts: seq<Act>)
    ensures Runs(START, acts)
    ensures
      var p := Run(START, acts);
      && p.s == NewServer(REQUEST).(phase := Piping, reader := Reading, fromBrowser := MORE) && p.loop == Idle
      && p.upRead == [] && p.up == [Data(RESPONSE), Close]
      && p.c.fromLocal == RESPONSE && p.c.toLocal == REQUEST + MORE && p.c.reader == Stopped && !p.c.live && p.c.eofClose
  {
    hide Run, Runs;
    acts := MoreArrives();
    var p := Run(START, acts);
    acts, p := Play(START, acts, Client(LocalRead(RESPONSE, false)));
    acts, p := Play(START, acts, Client(LocalForward(true)));
    acts, p := Play(START, acts, Client(LocalEof));
    acts, p := Play(START, acts, Client(EofCloseFrame(true)));
    acts, p := Play(START, acts, Client(ReaderLeaves));
  }

  /** The server takes the response and the CLOSE, and raises the stream's flag. */
  lemma ResponseAccepted() returns (acts: seq<Act>)
    ensures Runs(START, acts)
    ensures
      var p := Run(START, acts);
      && p.s == NewServer(REQUEST).(phase := Piping, reader := Reading, fromBrowser := MORE, live := false,
                                    buf := Buf([RESPONSE], true), accepted := RESPONSE)
      && p.upRead == [Data(RESPONSE), Close] && p.up == []
      && p.c.fromLocal == RESPONSE && p.c.toLocal == REQUEST + MORE && p.c.reader == Stopped && !p.c.live && p.c.eofClose
  {
    hide Run, Runs;
    acts := ResponseSent();
    var p := Run(START, acts);
    acts, p := Play(START, acts, Take);
    acts, p := Play(START, acts, Push);
    acts, p := Play(START, acts, Take);
    acts, p := Play(START, acts, Server(FlagClosed));
    assert [] + RESPONSE == RESPONSE;
  }

  /**
   * The whole exchange: the local service has received the request and what the browser sent later, the
   * browser has received the whole response, and the handler has left through the closed branch.
   */
  lemma Exchange() returns (acts: seq<Act>)
    ensures Runs(START, acts)
    ensures
      var p := Run(START, acts);
      && p.s.phase == Done && p.s.clean && p.s.toBrowser == RESPONSE == p.c.fromLocal
      && p.c.toLocal == REQUEST + MORE && p.s.req == REQUEST && p.s.fromBrowser == MORE
      && !p.s.live && !p.c.live
  {
    hide Run, Runs;
    acts := ResponseAccepted();
    var p := Run(START, acts);
    acts, p := Play(START, acts, Server(SeeClosed));
    acts, p := Play(START, acts, Server(Drain(true, 0)));
    acts, p := Play(START, acts, Server(DrainEmpty));
    acts, p := Play(START, acts, Server(RemoveSelf));
    assert [] + RESPONSE == RESPONSE;
  }
}
