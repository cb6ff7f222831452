/**
 * How the goroutines of one stream leave, over every run: which of them tell the other end with a CLOSE
 * frame, and that the stream is out of the map by then.
 */
module TunnelLeaving {
  import opened TunnelWire
  import opened TunnelPipe
  import opened TunnelSafety
  import opened TunnelSystem

  // ---------------------------------------------------------------- the handler of a browser connection

  /** Why a handler stops serving: the tunnel failed early, the browser failed or went, or the stream was closed. */
  datatype Reason = NotYet | TunnelFailed | BrowserFailed | StreamClosed

  /** The first such event of a run; `already` is the reason so far. */
  function ReasonAfter(already: Reason, acts: seq<Act>): Reason
    decreases |acts|
  {
    if acts == [] then already else ReasonAfter(if already.NotYet? then ReasonOf(acts[0]) else already, acts[1..])
  }

  function ReasonOf(a: Act): Reason {
    match a
    case Server(OpenFrame(ok)) => if ok then NotYet else TunnelFailed
    case Server(ChunkFrame(ok)) => if ok then NotYet else TunnelFailed
    case Server(Receive(ok, _)) => if ok then NotYet else BrowserFailed
    case Server(SeeBrowserGone) => BrowserFailed
    case Server(SeeClosed) => StreamClosed
    case _ => NotYet
  }

  /** The handler has tried to send a CLOSE frame. */
  predicate Told(acts: seq<Act>) {
    exists i | 0 <= i < |acts| :: acts[i].Server? && acts[i].sa.CloseFrame?
  }

  lemma ToldCons(acts: seq<Act>)
    requires acts != []
    ensures Told(acts) <==> (acts[0].Server? && acts[0].sa.CloseFrame?) || Told(acts[1..])
  {
    if i :| 0 <= i < |acts[1..]| && acts[1..][i].Server? && acts[1..][i].sa.CloseFrame? {
      assert acts[i + 1] == acts[1..][i];
    }
    if i :| 0 < i < |acts| && acts[i].Server? && acts[i].sa.CloseFrame? {
      assert acts[1..][i - 1] == acts[i];
    }
  }

  predicate Serving(phase: Phase) {
    phase.Unborn? || phase.SendOpen? || phase.SendReq? || phase.Piping?
  }

  predicate Left(phase: Phase) {
    phase.Remove? || phase.Done?
  }

  /** Where the handler stands, by its reason to stop and whether it has told the client. */
  predicate Stands(e: ServerEnd, reason: Reason, told: bool) {
    && (Serving(e.phase) <==> reason.NotYet?)
    && (e.phase.Draining? ==> reason.StreamClosed?)
    && (e.phase.SendClose? ==> reason.BrowserFailed? && !told)
    && (told ==> Left(e.phase) && reason.BrowserFailed?)
    && (Left(e.phase) && reason.BrowserFailed? ==> told)
    && (e.clean ==> reason.StreamClosed?)
  }

  lemma ServerStands(e: ServerEnd, a: ServerAct, reason: Reason, told: bool)
    requires ServerCan(e, a) && Stands(e, reason, told)
    ensures Stands(ServerDo(e, a).0, if reason.NotYet? then ReasonOf(Server(a)) else reason, told || a.CloseFrame?)
  {
  }

  lemma StepStands(p: Pipe, a: Act, reason: Reason, told: bool)
    requires Can(p, a) && Stands(p.s, reason, told)
    ensures Stands(Next(p, a).s, if reason.NotYet? then ReasonOf(a) else reason, told || (a.Server? && a.sa.CloseFrame?))
  {
    if a.Server? {
      ServerStands(p.s, a.sa, reason, told);
    }
    hide ServerDo, ServerCan, ClientDo, ClientCan, ClientTake;
  }

  lemma {:induction false} RunStands(p: Pipe, acts: seq<Act>, reason: Reason, told: bool)
    requires Runs(p, acts) && Stands(p.s, reason, told)
    ensures Stands(Run(p, acts).s, ReasonAfter(reason, acts), told || Told(acts))
    decreases |acts|
  {
    if acts != [] {
      StepStands(p, acts[0], reason, told);
      ToldCons(acts);
      hide Next, Can, Stands, ReasonOf, Told;
      RunStands(Next(p, acts[0]), acts[1..], if reason.NotYet? then ReasonOf(acts[0]) else reason,
                told || (acts[0].Server? && acts[0].sa.CloseFrame?));
    }
  }

  /**
   * In every run, a handler that has left tried to tell the client with a CLOSE frame if and only if it
   * stopped for a failed browser write or a gone browser; it leaves cleanly only because the stream was closed.
   */
  lemma HandlerTellsIff(acts: seq<Act>)
    requires Runs(START, acts)
    ensures
      var e := Run(START, acts).s;
      && (Left(e.phase) ==> (Told(acts) <==> ReasonAfter(NotYet, acts).BrowserFailed?))
      && (Left(e.phase) ==> !ReasonAfter(NotYet, acts).NotYet?)
      && (e.clean ==> ReasonAfter(NotYet, acts).StreamClosed?)
  {
    RunStands(START, acts, NotYet, false);
    hide Run, Runs, ReasonAfter, Told;
  }

  // ---------------------------------------------------------------- the browser's side

  /** What the browser has left to say: more, the read in hand, or nothing that could be forwarded. */
  datatype Feed = More | LastInHand | Over

  function FeedStep(f: Feed, a: Act): Feed {
    match a
    case Server(BrowserRead(_, last)) => if last then LastInHand else f
    case Server(BrowserForward(ok)) => if ok && f.More? then More else Over
    case Server(BrowserEof) => Over
    case _ => f
  }

  function FeedAfter(f: Feed, acts: seq<Act>): Feed
    decreases |acts|
  {
    if acts == [] then f else FeedAfter(FeedStep(f, acts[0]), acts[1..])
  }

  predicate Feeds(e: ServerEnd, f: Feed) {
    && (e.reader.Stopped? <==> f.Over?)
    && (e.reader.Holding? ==> (e.reader.last <==> f.LastInHand?))
    && (f.LastInHand? ==> e.reader.Holding?)
  }

  /** The handler has not got to piping yet, or gave up before. */
  predicate Before(phase: Phase) {
    phase.Unborn? || phase.SendOpen? || phase.SendReq?
  }

  lemma StepFeeds(p: Pipe, a: Act, f: Feed)
    requires Can(p, a) && Feeds(p.s, f) && (Before(p.s.phase) ==> f.More? && p.s.reader.Off?)
    ensures Feeds(Next(p, a).s, FeedStep(f, a))
  {
    hide ClientDo, ClientCan, ClientTake;
  }

  lemma {:induction false} RunFeeds(p: Pipe, acts: seq<Act>, f: Feed)
    requires Runs(p, acts) && Feeds(p.s, f) && (Before(p.s.phase) ==> f.More? && p.s.reader.Off?)
    ensures Feeds(Run(p, acts).s, FeedAfter(f, acts))
    decreases |acts|
  {
    if acts != [] {
      StepFeeds(p, acts[0], f);
      BeforeStays(p, acts[0], f);
      hide Next, Can, Feeds, FeedStep;
      RunFeeds(Next(p, acts[0]), acts[1..], FeedStep(f, acts[0]));
    }
  }

  /**
   * In every run the reader of the browser connection has stopped exactly when the browser's end was read, a
   * frame could not be sent, or the last read was forwarded; and only then may the handler find it gone.
   */
  lemma ReaderStopsIff(acts: seq<Act>)
    requires Runs(START, acts)
    ensures
      var p := Run(START, acts);
      && (p.s.reader.Stopped? <==> FeedAfter(More, acts).Over?)
      && (Can(p, Server(SeeBrowserGone)) ==> FeedAfter(More, acts).Over?)
  {
    RunFeeds(START, acts, More);
    hide Run, Runs, FeedAfter;
  }

  lemma BeforeStays(p: Pipe, a: Act, f: Feed)
    requires Can(p, a) && Feeds(p.s, f) && (Before(p.s.phase) ==> f.More? && p.s.reader.Off?)
    ensures Before(Next(p, a).s.phase) ==> FeedStep(f, a).More? && Next(p, a).s.reader.Off?
  {
    hide ClientDo, ClientCan, ClientTake;
  }

  // ---------------------------------------------------------------- the client's goroutines

  /** What the goroutines of the stream that is open now have done. */
  datatype Log = Log(sendFailed: bool, eofTold: bool, writeFailed: bool, failTold: bool, left: bool)

  const FRESH := Log(false, false, false, false, false)

  function LogAct(log: Log, ca: ClientAct): Log {
    match ca
    case LocalForward(ok) => log.(sendFailed := log.sendFailed || !ok)
    case EofCloseFrame(_) => log.(eofTold := true)
    case WriteLocal(ok, _) => log.(writeFailed := log.writeFailed || !ok)
    case FailCloseFrame(_) => log.(failTold := true)
    case WriterLeaves => log.(left := true)
    case _ => log
  }

  /** An accepted OPEN starts over. */
  function LogStep(p: Pipe, a: Act, log: Log): Log {
    if a.Client? then LogAct(log, a.ca)
    else if a.CTake? && a.dialOk && p.down != [] && p.down[0] == Open then FRESH
    else log
  }

  function LogAfter(p: Pipe, acts: seq<Act>, log: Log): Log
    requires Runs(p, acts)
    decreases |acts|
  {
    if acts == [] then log else LogAfter(Next(p, acts[0]), acts[1..], LogStep(p, acts[0], log))
  }

  /** Where the reader stands, by what it has done. */
  predicate ReaderLogged(e: ClientEnd, log: Log) {
    && (e.reader.Leaving? || e.reader.Stopped? <==> log.sendFailed || log.eofTold)
    && (e.reader.Stopped? ==> !e.live)
  }

  predicate WriterLogged(e: ClientEnd, log: Log) {
    && (e.writer.DrainingLocal? ==> e.buf.closed)
    && (e.writer.Failed? ==> log.writeFailed && !log.failTold)
    && (e.writer.WriterLeaving? ==> log.failTold)
    && (log.failTold ==> log.writeFailed && (e.writer.WriterLeaving? || e.writer.Exited?))
    && (log.writeFailed && e.writer.Exited? ==> log.failTold && log.left && !e.live)
    && (log.left ==> log.failTold && e.writer.Exited?)
    && (log.writeFailed ==> e.writer.Failed? || e.writer.WriterLeaving? || e.writer.Exited?)
  }

  predicate Logged(e: ClientEnd, log: Log) {
    ReaderLogged(e, log) && WriterLogged(e, log)
  }

  lemma ReaderKeepsLog(e: ClientEnd, ca: ClientAct, log: Log)
    requires ClientCan(e, ca) && ReaderLogged(e, log)
    ensures ReaderLogged(ClientDo(e, ca).0, LogAct(log, ca))
  {
  }

  lemma WriterKeepsLog(e: ClientEnd, ca: ClientAct, log: Log)
    requires ClientCan(e, ca) && WriterLogged(e, log)
    ensures WriterLogged(ClientDo(e, ca).0, LogAct(log, ca))
  {
  }

  lemma ClientLogged(e: ClientEnd, ca: ClientAct, log: Log)
    requires ClientCan(e, ca) && Logged(e, log)
    ensures Logged(ClientDo(e, ca).0, LogAct(log, ca))
  {
    ReaderKeepsLog(e, ca, log);
    WriterKeepsLog(e, ca, log);
    hide ReaderLogged, WriterLogged, ClientDo, LogAct;
  }

  lemma StepLogged(p: Pipe, a: Act, log: Log)
    requires Can(p, a) && Logged(p.c, log)
    ensures Logged(Next(p, a).c, LogStep(p, a, log))
  {
    if a.Client? {
      ClientLogged(p.c, a.ca, log);
    }
    hide ServerDo, ServerCan, ClientDo, ClientCan, LogAct;
  }

  lemma {:induction false} RunLogged(p: Pipe, acts: seq<Act>, log: Log)
    requires Runs(p, acts) && Logged(p.c, log)
    ensures Logged(Run(p, acts).c, LogAfter(p, acts, log))
    decreases |acts|
  {
    if acts != [] {
      StepLogged(p, acts[0], log);
      hide Next, Can, Logged, LogStep;
      RunLogged(Next(p, acts[0]), acts[1..], LogStep(p, acts[0], log));
    }
  }

  /**
   * In every run: a reader that has stopped tried a CLOSE frame unless forwarding had failed, a writer that
   * has exited after a failed write tried one, and either way the stream is out of the map. A writer drains
   * only once done is raised.
   */
  lemma ClientTells(acts: seq<Act>)
    requires Runs(START, acts)
    ensures
      var e, log := Run(START, acts).c, LogAfter(START, acts, FRESH);
      && (e.reader.Stopped? ==> (log.eofTold || log.sendFailed) && !e.live)
      && (e.writer.Exited? && log.writeFailed ==> log.failTold && log.left && !e.live)
      && (log.left ==> e.writer.Exited?)
      && (log.failTold ==> log.writeFailed)
      && (e.writer.DrainingLocal? ==> e.buf.closed)
  {
    RunLogged(START, acts, FRESH);
    hide Run, Runs, LogAfter;
  }

  /** A drain of the client ends well only with every accepted byte written. */
  lemma EmptyDrainWroteAll(p: Pipe)
    requires Inv(p) && Can(p, Client(DrainLocalEmpty))
    ensures p.c.toLocal == p.c.accepted
  {
    assert p.c.toLocal + [] == p.c.toLocal;
  }

  /** The drain with every write succeeding. */
  function DrainAll(n: nat): seq<Act> {
    if n == 0 then [Client(DrainLocalEmpty)] else [Client(DrainLocal(true, 0))] + DrainAll(n - 1)
  }

  /** While the local connection is open, a drain whose writes succeed delivers all there is. */
  lemma {:induction false} DrainsWhole(p: Pipe)
    requires p.c.writer == DrainingLocal && !p.c.connClosed
    ensures
      var acts := DrainAll(|p.c.buf.inbox|);
      && Runs(p, acts)
      && Run(p, acts).c.writer == Exited && Run(p, acts).c.toLocal == p.c.toLocal + Concat(p.c.buf.inbox)
    decreases |p.c.buf.inbox|
  {
    var acts := DrainAll(|p.c.buf.inbox|);
    var next := Next(p, acts[0]);
    assert p.up + [] == p.up;
    if p.c.buf.inbox == [] {
      assert acts[1..] == [] && Runs(next, []) && Run(next, []) == next;
      assert p.c.toLocal + [] == p.c.toLocal;
    } else {
      assert acts[1..] == DrainAll(|next.c.buf.inbox|);
      DrainsWhole(next);
      assert p.c.toLocal + p.c.buf.inbox[0] + Concat(p.c.buf.inbox[1..]) == p.c.toLocal + Concat(p.c.buf.inbox);
    }
  }

  // ---------------------------------------------------------------- CLOSE frames on the wires

  function Closes(items: seq<Item>): nat {
    if items == [] then 0 else (if items[0] == Close then 1 else 0) + Closes(items[1..])
  }

  lemma {:induction false} ClosesAppend(a: seq<Item>, b: seq<Item>)
    ensures Closes(a + b) == Closes(a) + Closes(b)
    decreases |a|
  {
    if a == [] {
      assert a + b == b;
    } else {
      assert (a + b)[1..] == a[1..] + b;
      ClosesAppend(a[1..], b);
    }
  }

  lemma ClosesOne(item: Item)
    ensures Closes([item]) == (if item == Close then 1 else 0) && Closes([]) == 0
  {
    assert [item][1..] == [];
  }

  /** A step that gets a CLOSE frame out to the client, or to the server: an attempt whose write succeeds. */
  function ClosesDown(a: Act): nat {
    if a.Server? && a.sa.CloseFrame? && a.sa.ok then 1 else 0
  }

  function ClosesUp(p: Pipe, a: Act): nat {
    match a
    case Client(EofCloseFrame(ok)) => if ok then 1 else 0
    case Client(FailCloseFrame(ok)) => if ok then 1 else 0
    case COverflowFrame(ok) => if ok then 1 else 0
    case CTake(dialOk, writeOk) => if p.down != [] && p.down[0] == Open && !dialOk && writeOk then 1 else 0
    case _ => 0
  }

  lemma ServerOut(e: ServerEnd, a: ServerAct)
    requires ServerCan(e, a)
    ensures |ServerDo(e, a).1| <= 1
    ensures ServerDo(e, a).1 == [Close] <==> ClosesDown(Server(a)) == 1
  {
  }

  lemma ClientOut(p: Pipe, a: ClientAct)
    requires ClientCan(p.c, a)
    ensures |ClientDo(p.c, a).1| <= 1
    ensures ClientDo(p.c, a).1 == [Close] <==> ClosesUp(p, Client(a)) == 1
  {
  }

  lemma ShortCloses(out: seq<Item>)
    requires |out| <= 1
    ensures Closes(out) == if out == [Close] then 1 else 0
  {
    if out != [] {
      ClosesOne(out[0]);
      assert out == [out[0]];
    }
  }

  /** Every CLOSE frame on a wire was got out by one such step, and each such step got one out. */
  lemma StepCloses(p: Pipe, a: Act)
    requires Can(p, a)
    ensures Closes(Next(p, a).downRead + Next(p, a).down) == Closes(p.downRead + p.down) + ClosesDown(a)
    ensures Closes(Next(p, a).upRead + Next(p, a).up) == Closes(p.upRead + p.up) + ClosesUp(p, a)
  {
    var q := Next(p, a);
    ClosesOne(Close);
    if a.Server? {
      var out := ServerDo(p.s, a.sa).1;
      ServerOut(p.s, a.sa);
      ShortCloses(out);
      Grown(p.downRead, p.down, q.downRead, q.down, out);
      Grown(p.upRead, p.up, q.upRead, q.up, []);
    } else if a.Client? {
      var out := ClientDo(p.c, a.ca).1;
      ClientOut(p, a.ca);
      ShortCloses(out);
      Grown(p.downRead, p.down, q.downRead, q.down, []);
      Grown(p.upRead, p.up, q.upRead, q.up, out);
    } else {
      var out := if ClosesUp(p, a) == 1 then [Close] else [];
      ShortCloses(out);
      LoopGrows(p, a, out);
      Grown(p.downRead, p.down, q.downRead, q.down, []);
      Grown(p.upRead, p.up, q.upRead, q.up, out);
    }
    hide ServerDo, ClientDo, ServerCan, ClientCan, Closes, Next, Can;
  }

  lemma LoopGrows(p: Pipe, a: Act, out: seq<Item>)
    requires Can(p, a) && !a.Server? && !a.Client? && out == if ClosesUp(p, a) == 1 then [Close] else []
    ensures Next(p, a).downRead + Next(p, a).down == p.downRead + p.down + []
    ensures Next(p, a).upRead + Next(p, a).up == p.upRead + p.up + out
  {
    assert p.up + [] == p.up;
    if a.Take? {
      assert p.up == [p.up[0]] + p.up[1..];
    } else if a.CTake? {
      assert p.down == [p.down[0]] + p.down[1..];
    }
    hide ServerDo, ClientDo, ServerCan, ClientCan;
  }

  /** The whole history of a wire grew by these frames. */
  lemma Grown(read: seq<Item>, wire: seq<Item>, read': seq<Item>, wire': seq<Item>, out: seq<Item>)
    requires
      || read' + wire' == read + wire + out
      || (read' == read && wire' == wire + out)
      || (read' == read && wire' == wire && out == [])
    ensures Closes(read' + wire') == Closes(read + wire) + Closes(out)
  {
    if read' == read && wire' == wire + out {
      assert read' + wire' == read + wire + out;
    }
    if read' == read && wire' == wire && out == [] {
      assert read' + wire' == read + wire + out;
    }
    ClosesAppend(read + wire, out);
  }

  function DownAttempts(acts: seq<Act>): nat {
    if acts == [] then 0 else ClosesDown(acts[0]) + DownAttempts(acts[1..])
  }

  function UpAttempts(p: Pipe, acts: seq<Act>): nat
    requires Runs(p, acts)
    decreases |acts|
  {
    if acts == [] then 0 else ClosesUp(p, acts[0]) + UpAttempts(Next(p, acts[0]), acts[1..])
  }

  /** In every run the CLOSE frames ever on a wire are exactly the successful attempts to send one. */
  lemma {:induction false} ClosesAreAttempts(p: Pipe, acts: seq<Act>)
    requires Runs(p, acts)
    ensures
      var q := Run(p, acts);
      && Closes(q.downRead + q.down) == Closes(p.downRead + p.down) + DownAttempts(acts)
      && Closes(q.upRead + q.up) == Closes(p.upRead + p.up) + UpAttempts(p, acts)
    decreases |acts|
  {
    if acts != [] {
      StepCloses(p, acts[0]);
      hide Next, Can, Closes, ClosesUp, ClosesDown;
      ClosesAreAttempts(Next(p, acts[0]), acts[1..]);
    }
  }

  // ---------------------------------------------------------------- nobody gets stuck

  /** Steps of the handler itself, not of its reader or of whoever raises the flag. */
  predicate OfHandler(a: ServerAct) {
    !a.BrowserRead? && !a.BrowserEof? && !a.BrowserForward? && !a.FlagClosed?
  }

  /** A handler waits only while its inbox is empty, its stream open and its browser there; otherwise it can go on. */
  lemma HandlerWaitsIff(e: ServerEnd)
    requires e.phase.SendReq? ==> e.phase.off <= |e.req|
    ensures (forall a | OfHandler(a) :: !ServerCan(e, a)) <==>
            || e.phase.Unborn? || e.phase.Done?
            || (e.phase.Piping? && e.buf.inbox == [] && !e.buf.closed && !e.reader.Stopped?)
  {
    var next :=
      match e.phase
      case SendOpen => OpenFrame(true)
      case SendReq(off) => if off < |e.req| then ChunkFrame(true) else StartPiping
      case Piping => if e.buf.inbox != [] then Receive(true, 0) else if e.buf.closed then SeeClosed else SeeBrowserGone
      case Draining => if e.buf.inbox != [] then Drain(true, 0) else DrainEmpty
      case SendClose => CloseFrame(true)
      case _ => RemoveSelf;
    assert OfHandler(next);
  }

  /** The reader of the browser connection goes on until it has stopped. */
  lemma BrowserReaderWaitsIff(e: ServerEnd)
    requires !e.reader.Eof? && !e.reader.Leaving?
    ensures (forall a: ServerAct | a.BrowserRead? || a.BrowserEof? || a.BrowserForward? :: !ServerCan(e, a)) <==>
            e.reader.Off? || e.reader.Stopped?
  {
    var next := if e.reader.Holding? then BrowserForward(true) else BrowserEof;
    assert next.BrowserEof? || next.BrowserForward?;
  }

  predicate OfWriter(a: ClientAct) {
    a.WriteLocal? || a.SeeDone? || a.DrainLocal? || a.DrainLocalEmpty? || a.FailCloseFrame? || a.WriterLeaves?
  }

  predicate OfReader(a: ClientAct) {
    a.LocalRead? || a.LocalEof? || a.LocalForward? || a.EofCloseFrame? || a.ReaderLeaves?
  }

  /** The client's writer waits only while its inbox is empty and done is down, its reader never. */
  lemma ClientWaitsIff(e: ClientEnd)
    ensures (forall a | OfWriter(a) :: !ClientCan(e, a)) <==>
            e.writer.Exited? || (e.writer.Looping? && e.buf.inbox == [] && !e.buf.closed)
    ensures (forall a | OfReader(a) :: !ClientCan(e, a)) <==> e.reader.Off? || e.reader.Stopped?
  {
    var write :=
      match e.writer
      case Looping => if e.buf.inbox != [] then WriteLocal(false, 0) else SeeDone
      case DrainingLocal => if e.buf.inbox != [] then DrainLocal(false, 0) else DrainLocalEmpty
      case Failed => FailCloseFrame(true)
      case _ => WriterLeaves;
    var read :=
      match e.reader
      case Holding(_, _) => LocalForward(true)
      case Eof => EofCloseFrame(true)
      case Leaving => ReaderLeaves
      case _ => LocalEof;
    assert OfWriter(write) && OfReader(read);
  }

  /** And so for every stream in every run of the whole tunnel. */
  lemma EveryHandlerTells(es: seq<Event>, id: StreamId)
    requires SysRuns(INIT, es)
    ensures
      var e, acts := ServerOf(SysRun(INIT, es), id), Own(INIT, es, id);
      && (Left(e.phase) ==> (Told(acts) <==> ReasonAfter(NotYet, acts).BrowserFailed?))
      && (e.clean ==> ReasonAfter(NotYet, acts).StreamClosed?)
  {
    RunProjects(INIT, es, id);
    assert View(INIT, id) == START;
    HandlerTellsIff(Own(INIT, es, id));
    hide SysRuns, SysRun, Own, Told, ReasonAfter, Run, Runs;
  }
}
