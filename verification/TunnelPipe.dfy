/**
 * One stream of the tunnel: the server-side handler of one browser connection, the client-side
 * goroutines of the local connection it is joined to, the two read loops as far as they touch
 * this stream, and the stream's own frames in flight in each direction.
 *
 * Every step below is one atomic action of one goroutine: a frame written under the WebSocket
 * mutex, one channel operation together with the connection write it feeds, one map operation.
 * A failing write may have moved any part of its buffer.
 */
module TunnelPipe {
  import opened TunnelWire

  // ---------------------------------------------------------------- state

  /** A frame as it concerns its own stream. */
  datatype Item = Open | Data(bytes: Bytes) | Close

  /** A bounded inbox channel and the flag that is raised once the stream is closed. */
  datatype Buf = Buf(inbox: seq<Bytes>, closed: bool)

  const INBOX_CAP: nat := 1024

  /** Where the handler of a browser connection stands. */
  datatype Phase =
    | Unborn
    | SendOpen
    | SendReq(off: nat)
    | Piping
    | Draining
    | SendClose
    | Remove
    | Done

  /** A goroutine copying a connection into the tunnel. `last` marks data that came with an error. */
  datatype Reader = Off | Reading | Holding(bytes: Bytes, last: bool) | Eof | Leaving | Stopped

  /** The client's goroutine copying the inbox into the local connection. */
  datatype Writer = Looping | DrainingLocal | Failed | WriterLeaving | Exited

  /**
   * The server's half. `live` says the stream is in the connection's stream table, `accepted`
   * is the history of bytes its read loop pushed into the inbox, and `clean` records that the
   * handler left through the closed branch with an empty inbox and no write error.
   */
  datatype ServerEnd = ServerEnd(
    live: bool, buf: Buf, phase: Phase, req: Bytes,
    reader: Reader, fromBrowser: Bytes, toBrowser: Bytes,
    accepted: Bytes, clean: bool)

  /**
   * The client's half. `sentClose` records that a CLOSE frame went out and `eofClose` that the
   * first one was sent by the local reader at the end of the local connection.
   */
  datatype ClientEnd = ClientEnd(
    known: bool, live: bool, buf: Buf,
    reader: Reader, writer: Writer, connClosed: bool,
    fromLocal: Bytes, toLocal: Bytes,
    accepted: Bytes, sentClose: bool, eofClose: bool)

  const NO_SERVER := ServerEnd(false, Buf([], false), Unborn, [], Off, [], [], [], false)
  const NO_CLIENT := ClientEnd(false, false, Buf([], false), Off, Exited, false, [], [], [], false, false)

  /** A read loop: between frames, holding a payload for a stream, or giving up on a full inbox. */
  datatype Loop = Idle | Deliver(bytes: Bytes) | Overflow | OverflowLeaving | LoopStopped

  /** `upRead` and `downRead` are the histories of frames taken off each wire. */
  datatype Pipe = Pipe(
    s: ServerEnd, loop: Loop, upRead: seq<Item>, up: seq<Item>,
    c: ClientEnd, cloop: Loop, downRead: seq<Item>, down: seq<Item>)

  const START := Pipe(NO_SERVER, Idle, [], [], NO_CLIENT, Idle, [], [])

  // ---------------------------------------------------------------- server goroutines

  datatype ServerAct =
    | OpenFrame(ok: bool)
    | ChunkFrame(ok: bool)
    | StartPiping
    | BrowserRead(bytes: Bytes, last: bool)
    | BrowserEof
    | BrowserForward(ok: bool)
    | Receive(ok: bool, k: nat)
    | SeeClosed
    | SeeBrowserGone
    | Drain(ok: bool, k: nat)
    | DrainEmpty
    | CloseFrame(ok: bool)
    | RemoveSelf
    | FlagClosed

  predicate ServerCan(e: ServerEnd, a: ServerAct) {
    match a
    case OpenFrame(_) => e.phase == SendOpen
    case ChunkFrame(_) => e.phase.SendReq? && e.phase.off < |e.req|
    case StartPiping => e.phase.SendReq? && e.phase.off == |e.req|
    case BrowserRead(bytes, _) => e.reader == Reading && 1 <= |bytes| <= CHUNK
    case BrowserEof => e.reader == Reading
    case BrowserForward(_) => e.reader.Holding?
    case Receive(_, k) => e.phase == Piping && e.buf.inbox != [] && k <= |e.buf.inbox[0]|
    case SeeClosed => e.phase == Piping && e.buf.closed
    case SeeBrowserGone => e.phase == Piping && e.reader == Stopped
    case Drain(_, k) => e.phase == Draining && e.buf.inbox != [] && k <= |e.buf.inbox[0]|
    case DrainEmpty => e.phase == Draining && e.buf.inbox == []
    case CloseFrame(_) => e.phase == SendClose
    case RemoveSelf => e.phase == Remove
    case FlagClosed => e.phase != Unborn && !e.live && !e.buf.closed
  }

  /** The new server half and the frames written by the step. */
  function ServerDo(e: ServerEnd, a: ServerAct): (ServerEnd, seq<Item>)
    requires ServerCan(e, a)
  {
    match a
    case OpenFrame(ok) =>
      if ok then (e.(phase := SendReq(0)), [Open]) else (e.(phase := Remove), [])
    case ChunkFrame(ok) =>
      var off := e.phase.off;
      var end := if off + CHUNK > |e.req| then |e.req| else off + CHUNK;
      if ok then (e.(phase := SendReq(end)), [Data(e.req[off..end])]) else (e.(phase := Remove), [])
    case StartPiping => (e.(phase := Piping, reader := Reading), [])
    case BrowserRead(bytes, last) => (e.(reader := Holding(bytes, last), fromBrowser := e.fromBrowser + bytes), [])
    case BrowserEof => (e.(reader := Stopped), [])
    case BrowserForward(ok) =>
      if ok then (e.(reader := if e.reader.last then Stopped else Reading), [Data(e.reader.bytes)])
      else (e.(reader := Stopped), [])
    case Receive(ok, k) =>
      var e' := e.(buf := e.buf.(inbox := e.buf.inbox[1..]));
      if ok then (e'.(toBrowser := e.toBrowser + e.buf.inbox[0]), [])
      else (e'.(toBrowser := e.toBrowser + e.buf.inbox[0][..k], phase := SendClose), [])
    case SeeClosed => (e.(phase := Draining), [])
    case SeeBrowserGone => (e.(phase := SendClose), [])
    case Drain(ok, k) =>
      var e' := e.(buf := e.buf.(inbox := e.buf.inbox[1..]));
      if ok then (e'.(toBrowser := e.toBrowser + e.buf.inbox[0]), [])
      else (e'.(toBrowser := e.toBrowser + e.buf.inbox[0][..k], phase := Remove), [])
    case DrainEmpty => (e.(phase := Remove, clean := true), [])
    case CloseFrame(ok) => (e.(phase := Remove), if ok then [Close] else [])
    case RemoveSelf => (e.(phase := Done, live := false), [])
    case FlagClosed => (e.(buf := e.buf.(closed := true)), [])
  }

  // ---------------------------------------------------------------- client goroutines

  datatype ClientAct =
    | LocalRead(bytes: Bytes, last: bool)
    | LocalEof
    | LocalForward(ok: bool)
    | EofCloseFrame(ok: bool)
    | ReaderLeaves
    | WriteLocal(ok: bool, k: nat)
    | SeeDone
    | DrainLocal(ok: bool, k: nat)
    | DrainLocalEmpty
    | FailCloseFrame(ok: bool)
    | WriterLeaves
    | FlagDone
    | CloseConn

  /** A write to a connection this side already closed fails without moving a byte. */
  predicate WriteAllowed(e: ClientEnd, ok: bool, k: nat) {
    && e.buf.inbox != []
    && k <= |e.buf.inbox[0]|
    && (e.connClosed ==> !ok && k == 0)
  }

  predicate ClientCan(e: ClientEnd, a: ClientAct) {
    match a
    case LocalRead(bytes, _) => e.reader == Reading && !e.connClosed && 1 <= |bytes| <= CHUNK
    case LocalEof => e.reader == Reading
    case LocalForward(_) => e.reader.Holding?
    case EofCloseFrame(_) => e.reader == Eof
    case ReaderLeaves => e.reader == Leaving
    case WriteLocal(ok, k) => e.writer == Looping && WriteAllowed(e, ok, k)
    case SeeDone => e.writer == Looping && e.buf.closed
    case DrainLocal(ok, k) => e.writer == DrainingLocal && WriteAllowed(e, ok, k)
    case DrainLocalEmpty => e.writer == DrainingLocal && e.buf.inbox == []
    case FailCloseFrame(_) => e.writer == Failed
    case WriterLeaves => e.writer == WriterLeaving
    case FlagDone => e.known && !e.live && !e.buf.closed
    case CloseConn => e.buf.closed && !e.connClosed
  }

  function ClientDo(e: ClientEnd, a: ClientAct): (ClientEnd, seq<Item>)
    requires ClientCan(e, a)
  {
    match a
    case LocalRead(bytes, last) => (e.(reader := Holding(bytes, last), fromLocal := e.fromLocal + bytes), [])
    case LocalEof => (e.(reader := Eof), [])
    case LocalForward(ok) =>
      if ok then (e.(reader := if e.reader.last then Eof else Reading), [Data(e.reader.bytes)])
      else (e.(reader := Leaving), [])
    case EofCloseFrame(ok) =>
      var e' := e.(reader := Leaving);
      if ok then (e'.(sentClose := true, eofClose := e.eofClose || !e.sentClose), [Close]) else (e', [])
    case ReaderLeaves => (e.(reader := Stopped, live := false), [])
    case WriteLocal(ok, k) =>
      var e' := e.(buf := e.buf.(inbox := e.buf.inbox[1..]));
      if ok then (e'.(toLocal := e.toLocal + e.buf.inbox[0]), [])
      else (e'.(toLocal := e.toLocal + e.buf.inbox[0][..k], writer := Failed), [])
    case SeeDone => (e.(writer := DrainingLocal), [])
    case DrainLocal(ok, k) =>
      var e' := e.(buf := e.buf.(inbox := e.buf.inbox[1..]));
      if ok then (e'.(toLocal := e.toLocal + e.buf.inbox[0]), [])
      else (e'.(toLocal := e.toLocal + e.buf.inbox[0][..k], writer := Exited), [])
    case DrainLocalEmpty => (e.(writer := Exited), [])
    case FailCloseFrame(ok) =>
      var e' := e.(writer := WriterLeaving);
      if ok then (e'.(sentClose := true), [Close]) else (e', [])
    case WriterLeaves => (e.(writer := Exited, live := false), [])
    case FlagDone => (e.(buf := e.buf.(closed := true)), [])
    case CloseConn => (e.(connClosed := true), [])
  }

  // ---------------------------------------------------------------- read loops

  /** The server's read loop meets one frame of this stream. */
  function ServerTake(e: ServerEnd, item: Item): (ServerEnd, Loop) {
    match item
    case Data(bytes) => (e, if e.live then Deliver(bytes) else Idle)
    case Close => (e.(live := false), Idle)
    case Open => (e, Idle)
  }

  /** The client's read loop meets one frame of this stream. */
  function ClientTake(e: ClientEnd, item: Item, dialOk: bool, writeOk: bool): (ClientEnd, Loop, seq<Item>) {
    match item
    case Open =>
      if dialOk then
        (ClientEnd(true, true, Buf([], false), Reading, Looping, false, [], [], [], false, false), Idle, [])
      else
        (e.(known := true, sentClose := e.sentClose || writeOk), Idle, if writeOk then [Close] else [])
    case Data(bytes) => (e, if e.live then Deliver(bytes) else Idle, [])
    case Close => (e.(live := false), Idle, [])
  }

  // ---------------------------------------------------------------- the one-stream machine

  datatype Act =
    | Stutter
    | Born(req: Bytes)
    | Server(sa: ServerAct)
    | Client(ca: ClientAct)
    | Take
    | Push
    | Discard
    | Stop
    | CTake(dialOk: bool, writeOk: bool)
    | CPush
    | CDiscard
    | COverflow
    | COverflowFrame(ok: bool)
    | COverflowLeaves
    | CStop

  predicate Can(p: Pipe, a: Act) {
    match a
    case Stutter => true
    case Born(_) => p.s.phase == Unborn
    case Server(sa) => ServerCan(p.s, sa)
    case Client(ca) => ClientCan(p.c, ca)
    case Take => p.loop == Idle && p.up != []
    case Push => p.loop.Deliver? && |p.s.buf.inbox| < INBOX_CAP
    case Discard => p.loop.Deliver? && p.s.buf.closed
    case Stop => p.loop == Idle
    case CTake(_, _) => p.cloop == Idle && p.down != []
    case CPush => p.cloop.Deliver? && |p.c.buf.inbox| < INBOX_CAP
    case CDiscard => p.cloop.Deliver? && p.c.buf.closed
    case COverflow => p.cloop.Deliver? && |p.c.buf.inbox| >= INBOX_CAP && !p.c.buf.closed
    case COverflowFrame(_) => p.cloop == Overflow
    case COverflowLeaves => p.cloop == OverflowLeaving
    case CStop => p.cloop == Idle
  }

  function PushServer(e: ServerEnd, bytes: Bytes): ServerEnd {
    e.(buf := e.buf.(inbox := e.buf.inbox + [bytes]), accepted := e.accepted + bytes)
  }

  function PushClient(e: ClientEnd, bytes: Bytes): ClientEnd {
    e.(buf := e.buf.(inbox := e.buf.inbox + [bytes]), accepted := e.accepted + bytes)
  }

  function NewServer(req: Bytes): ServerEnd {
    NO_SERVER.(live := true, phase := SendOpen, req := req)
  }

  function Next(p: Pipe, a: Act): Pipe
    requires Can(p, a)
  {
    match a
    case Stutter => p
    case Born(req) => p.(s := NewServer(req))
    case Server(sa) =>
      var (s, out) := ServerDo(p.s, sa);
      p.(s := s, down := p.down + out)
    case Client(ca) =>
      var (c, out) := ClientDo(p.c, ca);
      p.(c := c, up := p.up + out)
    case Take =>
      var (s, loop) := ServerTake(p.s, p.up[0]);
      p.(s := s, loop := loop, upRead := p.upRead + [p.up[0]], up := p.up[1..])
    case Push => p.(s := PushServer(p.s, p.loop.bytes), loop := Idle)
    case Discard => p.(loop := Idle)
    case Stop => p.(s := p.s.(live := false), loop := LoopStopped)
    case CTake(dialOk, writeOk) =>
      var (c, cloop, out) := ClientTake(p.c, p.down[0], dialOk, writeOk);
      p.(c := c, cloop := cloop, downRead := p.downRead + [p.down[0]], down := p.down[1..], up := p.up + out)
    case CPush => p.(c := PushClient(p.c, p.cloop.bytes), cloop := Idle)
    case CDiscard => p.(cloop := Idle)
    case COverflow => p.(cloop := Overflow)
    case COverflowFrame(ok) =>
      p.(cloop := OverflowLeaving,
         c := p.c.(sentClose := p.c.sentClose || ok),
         up := p.up + if ok then [Close] else [])
    case COverflowLeaves => p.(cloop := Idle, c := p.c.(live := false))
    case CStop => p.(c := p.c.(live := false), cloop := LoopStopped)
  }
}
