/**
 * What every reachable state of one stream satisfies: bytes come out in the order they went in,
 * none is invented or repeated, and a handler that leaves because the stream was closed has
 * written everything the other side sent before closing.
 */
module TunnelSafety {
  import opened TunnelWire
  import opened TunnelPipe

  // ---------------------------------------------------------------- histories of frames

  function BytesOf(item: Item): Bytes {
    match item
    case Data(bytes) => bytes
    case _ => []
  }

  /** All data bytes of a history, in order. */
  function Payload(items: seq<Item>): Bytes {
    if items == [] then [] else Payload(items[..|items| - 1]) + BytesOf(items[|items| - 1])
  }

  /** The data bytes up to the first CLOSE. */
  function BeforeClose(items: seq<Item>): Bytes {
    if items == [] then []
    else if Close in items[..|items| - 1] then BeforeClose(items[..|items| - 1])
    else BeforeClose(items[..|items| - 1]) + BytesOf(items[|items| - 1])
  }

  lemma PayloadSnoc(items: seq<Item>, item: Item)
    ensures Payload(items + [item]) == Payload(items) + BytesOf(item)
  {
    assert (items + [item])[..|items|] == items;
  }

  lemma BeforeCloseSnoc(items: seq<Item>, item: Item)
    ensures BeforeClose(items + [item]) ==
            if Close in items then BeforeClose(items) else BeforeClose(items) + BytesOf(item)
  {
    assert (items + [item])[..|items|] == items;
  }

  lemma {:induction false} BeforeCloseIsPayload(items: seq<Item>)
    ensures BeforeClose(items) <= Payload(items)
    ensures Close !in items ==> BeforeClose(items) == Payload(items)
  {
    if items != [] {
      BeforeCloseIsPayload(items[..|items| - 1]);
    }
  }

  /** Reading further never takes back bytes, and stops adding any once a CLOSE was seen. */
  lemma {:induction false} BeforeCloseGrows(a: seq<Item>, b: seq<Item>)
    ensures BeforeClose(a) <= BeforeClose(a + b)
    ensures Close in a ==> BeforeClose(a + b) == BeforeClose(a)
    decreases |b|
  {
    if b == [] {
      assert a + b == a;
    } else {
      var front, last := b[..|b| - 1], b[|b| - 1];
      BeforeCloseGrows(a, front);
      assert a + b == (a + front) + [last];
      BeforeCloseSnoc(a + front, last);
    }
  }

  /** What the invariants need to know of a history of frames. */
  datatype Summary = Summary(empty: bool, sent: Bytes, before: Bytes, closed: bool)

  function Sum(items: seq<Item>): Summary {
    Summary(items == [], Payload(items), BeforeClose(items), Close in items)
  }

  function Extend(h: Summary, item: Item): Summary {
    Summary(false, h.sent + BytesOf(item),
            if h.closed then h.before else h.before + BytesOf(item),
            h.closed || item == Close)
  }

  lemma SumSnoc(items: seq<Item>, item: Item)
    ensures Sum(items + [item]) == Extend(Sum(items), item)
  {
    PayloadSnoc(items, item);
    BeforeCloseSnoc(items, item);
  }

  function ExtendAll(h: Summary, out: seq<Item>): Summary
    requires |out| <= 1
  {
    if out == [] then h else Extend(h, out[0])
  }

  lemma SumAppend(items: seq<Item>, out: seq<Item>)
    requires |out| <= 1
    ensures Sum(items + out) == ExtendAll(Sum(items), out)
  {
    if out == [] {
      assert items + out == items;
    } else {
      assert out == [out[0]];
      SumSnoc(items, out[0]);
    }
  }

  // ---------------------------------------------------------------- invariants

  /** What a copying goroutine has sent of what it read. */
  ghost predicate Copied(reader: Reader, source: Bytes, sent: Bytes) {
    match reader
    case Off => true
    case Reading => sent == source
    case Holding(bytes, _) => sent + bytes == source
    case Eof => sent == source
    case Leaving => sent <= source
    case Stopped => sent <= source
  }

  /** local connection -> up wire; `h` sums up every frame ever written to the wire. */
  ghost predicate UpSource(c: ClientEnd, h: Summary) {
    && Copied(c.reader, c.fromLocal, h.sent)
    && (c.reader == Off ==> h.sent == [] && c.fromLocal == [])
    && (!c.sentClose ==> !h.closed)
    && (!h.closed ==> h.before == h.sent)
    && (c.eofClose ==> h.closed && h.before == c.fromLocal && (c.reader == Leaving || c.reader == Stopped))
    && (!c.known ==> c == NO_CLIENT && h.empty)
  }

  ghost predicate HandlerOwns(phase: Phase) {
    phase.SendOpen? || phase.SendReq? || phase.Piping? || phase.Draining?
  }

  /** up wire -> browser connection; `h` sums up the frames the read loop took. */
  ghost predicate UpSink(s: ServerEnd, loop: Loop, h: Summary, queued: Bytes) {
    && s.accepted <= h.before
    && (loop.Deliver? ==> s.accepted + loop.bytes == h.before)
    && (s.live ==> !h.closed)
    && (s.live && !loop.Deliver? ==> s.accepted == h.before)
    && (s.buf.closed ==> !s.live)
    && (s.phase != Unborn && s.phase != Done && !s.live ==>
          !loop.Deliver? && s.accepted == h.before && (h.closed || loop == LoopStopped))
    && (if HandlerOwns(s.phase) then s.toBrowser + queued == s.accepted else s.toBrowser <= s.accepted)
    && (s.phase == Draining ==> s.buf.closed)
    && (s.clean ==>
          && !HandlerOwns(s.phase) && !s.live && !loop.Deliver?
          && s.toBrowser == s.accepted == h.before && (h.closed || loop == LoopStopped))
    && (s.phase == Unborn ==> s == NO_SERVER && h.empty && h.before == [] && !h.closed && !loop.Deliver?)
    && !loop.Overflow? && !loop.OverflowLeaving?
  }

  /** browser connection (request, then later bytes) -> down wire */
  ghost predicate DownSource(s: ServerEnd, h: Summary) {
    && Copied(s.reader, s.req + s.fromBrowser, h.sent)
    && s.reader != Eof && s.reader != Leaving
    && (s.reader == Off ==> h.sent <= s.req && s.fromBrowser == [])
    && (s.phase == Unborn || s.phase == SendOpen ==> h.empty && h.sent == [] && s.reader == Off)
    && (s.phase.SendReq? ==> s.reader == Off && s.phase.off <= |s.req| && h.sent == s.req[..s.phase.off])
    && (s.phase.SendReq? || s.reader != Off ==> !h.empty)
    && (s.phase == Piping || s.phase == Draining || s.phase == SendClose ==> s.reader != Off)
  }

  /** The first frame of the down wire opens the stream, and no other one does. */
  ghost predicate OpensOnce(hist: seq<Item>) {
    && (hist != [] ==> hist[0] == Open)
    && (forall i :: 0 < i < |hist| ==> hist[i] != Open)
  }

  /** down wire -> local connection; `h` sums up the frames the read loop took. */
  ghost predicate DownSink(c: ClientEnd, cloop: Loop, h: Summary, queued: Bytes) {
    && c.accepted <= h.before
    && (cloop.Deliver? ==> c.accepted + cloop.bytes == h.before)
    && (c.live ==> !h.closed)
    && (c.live && (cloop == Idle || cloop == LoopStopped) ==> c.accepted == h.before)
    && (c.buf.closed ==> !c.live)
    && (if c.writer == Looping || c.writer == DrainingLocal then c.toLocal + queued == c.accepted
        else c.toLocal <= c.accepted)
    && (c.known <==> !h.empty)
    && (!c.known ==> c == NO_CLIENT && h.before == [] && !h.closed && (cloop == Idle || cloop == LoopStopped))
  }

  ghost predicate Inv(p: Pipe) {
    && UpSource(p.c, Sum(p.upRead + p.up))
    && UpSink(p.s, p.loop, Sum(p.upRead), Concat(p.s.buf.inbox))
    && DownSource(p.s, Sum(p.downRead + p.down))
    && OpensOnce(p.downRead + p.down)
    && DownSink(p.c, p.cloop, Sum(p.downRead), Concat(p.c.buf.inbox))
  }

  // ---------------------------------------------------------------- preservation, half by half

  lemma ReplayKeepsSource(e: ServerEnd, a: ServerAct, h: Summary)
    requires ServerCan(e, a) && DownSource(e, h)
    requires a.OpenFrame? || a.ChunkFrame? || a.StartPiping?
    ensures DownSource(ServerDo(e, a).0, ExtendAll(h, ServerDo(e, a).1))
  {
    if a.ChunkFrame? {
      var end := if e.phase.off + CHUNK > |e.req| then |e.req| else e.phase.off + CHUNK;
      assert e.req[..e.phase.off] + e.req[e.phase.off..end] == e.req[..end];
    } else {
      assert e.req[..|e.req|] == e.req == e.req + [];
    }
  }

  lemma CopyKeepsSource(e: ServerEnd, a: ServerAct, h: Summary)
    requires ServerCan(e, a) && DownSource(e, h)
    requires a.BrowserRead? || a.BrowserEof? || a.BrowserForward? || a.CloseFrame?
    ensures DownSource(ServerDo(e, a).0, ExtendAll(h, ServerDo(e, a).1))
  {
    var h' := ExtendAll(h, ServerDo(e, a).1);
    if a.BrowserRead? {
      assert e.req + (e.fromBrowser + a.bytes) == (e.req + e.fromBrowser) + a.bytes;
    } else if a.BrowserForward? {
      assert h.sent <= h.sent + e.reader.bytes;
    } else {
      assert h'.sent == h.sent;
    }
  }

  lemma ServerKeepsSource(e: ServerEnd, a: ServerAct, h: Summary)
    requires ServerCan(e, a) && DownSource(e, h)
    ensures DownSource(ServerDo(e, a).0, ExtendAll(h, ServerDo(e, a).1))
  {
    if a.OpenFrame? || a.ChunkFrame? || a.StartPiping? {
      ReplayKeepsSource(e, a, h);
    } else if a.BrowserRead? || a.BrowserEof? || a.BrowserForward? || a.CloseFrame? {
      CopyKeepsSource(e, a, h);
    } else {
      SilentKeepsSource(e, a, h);
    }
  }

  lemma SilentKeepsSource(e: ServerEnd, a: ServerAct, h: Summary)
    requires ServerCan(e, a) && DownSource(e, h)
    requires a.Receive? || a.SeeClosed? || a.SeeBrowserGone? || a.Drain? || a.DrainEmpty? || a.RemoveSelf? || a.FlagClosed?
    ensures DownSource(ServerDo(e, a).0, ExtendAll(h, ServerDo(e, a).1))
  {
    var (e', out) := ServerDo(e, a);
    assert out == [] && e'.req == e.req && e'.fromBrowser == e.fromBrowser && e'.reader == e.reader;
  }

  /** One inbox entry, or its first `k` bytes, moves to the connection. */
  lemma MoveHead(written: Bytes, inbox: seq<Bytes>, accepted: Bytes, k: nat)
    requires inbox != [] && k <= |inbox[0]| && written + Concat(inbox) == accepted
    ensures (written + inbox[0]) + Concat(inbox[1..]) == accepted
    ensures written + inbox[0][..k] <= accepted
  {
    var head, rest := inbox[0], Concat(inbox[1..]);
    assert written + (head + rest) == (written + head) + rest;
    assert head == head[..k] + head[k..];
    assert accepted == (written + head[..k]) + (head[k..] + rest);
  }

  lemma WriteKeepsSink(e: ServerEnd, a: ServerAct, loop: Loop, h: Summary)
    requires ServerCan(e, a) && UpSink(e, loop, h, Concat(e.buf.inbox))
    requires a.Receive? || a.Drain?
    ensures UpSink(ServerDo(e, a).0, loop, h, Concat(ServerDo(e, a).0.buf.inbox))
  {
    MoveHead(e.toBrowser, e.buf.inbox, e.accepted, a.k);
    hide Concat;
  }

  lemma ServerKeepsSink(e: ServerEnd, a: ServerAct, loop: Loop, h: Summary)
    requires ServerCan(e, a) && UpSink(e, loop, h, Concat(e.buf.inbox))
    ensures UpSink(ServerDo(e, a).0, loop, h, Concat(ServerDo(e, a).0.buf.inbox))
  {
    if a.Receive? || a.Drain? {
      WriteKeepsSink(e, a, loop, h);
    } else if a.DrainEmpty? {
      assert Concat(e.buf.inbox) == [];
      assert e.toBrowser + [] == e.toBrowser;
    } else {
      OtherKeepsSink(e, a, loop, h);
    }
  }

  lemma OtherKeepsSink(e: ServerEnd, a: ServerAct, loop: Loop, h: Summary)
    requires ServerCan(e, a) && UpSink(e, loop, h, Concat(e.buf.inbox))
    requires !a.Receive? && !a.Drain? && !a.DrainEmpty?
    ensures UpSink(ServerDo(e, a).0, loop, h, Concat(ServerDo(e, a).0.buf.inbox))
  {
    hide Concat;
    var e' := ServerDo(e, a).0;
    assert e'.buf.inbox == e.buf.inbox && e'.toBrowser == e.toBrowser && e'.accepted == e.accepted;
  }

  lemma ClientSendKeepsSource(e: ClientEnd, a: ClientAct, h: Summary)
    requires ClientCan(e, a) && UpSource(e, h)
    requires a.LocalForward? || a.EofCloseFrame? || a.FailCloseFrame?
    ensures UpSource(ClientDo(e, a).0, ExtendAll(h, ClientDo(e, a).1))
  {
    var h' := ExtendAll(h, ClientDo(e, a).1);
    if a.LocalForward? {
      assert h.sent <= h.sent + e.reader.bytes == e.fromLocal;
      assert h'.closed == h.closed;
    } else {
      assert h.sent + [] == h.sent && h.before + [] == h.before;
      assert h'.sent == h.sent && h'.before == h.before;
    }
  }

  lemma ClientKeepsSource(e: ClientEnd, a: ClientAct, h: Summary)
    requires ClientCan(e, a) && UpSource(e, h)
    ensures UpSource(ClientDo(e, a).0, ExtendAll(h, ClientDo(e, a).1))
  {
    if a.LocalForward? || a.EofCloseFrame? || a.FailCloseFrame? {
      ClientSendKeepsSource(e, a, h);
    } else {
      ClientQuietKeepsSource(e, a, h);
    }
  }

  lemma ClientQuietKeepsSource(e: ClientEnd, a: ClientAct, h: Summary)
    requires ClientCan(e, a) && UpSource(e, h)
    requires !a.LocalForward? && !a.EofCloseFrame? && !a.FailCloseFrame?
    ensures UpSource(ClientDo(e, a).0, ExtendAll(h, ClientDo(e, a).1))
  {
    var (e', out) := ClientDo(e, a);
    assert out == [] && e'.sentClose == e.sentClose && e'.eofClose == e.eofClose && e'.known == e.known;
  }

  lemma ClientKeepsSink(e: ClientEnd, a: ClientAct, cloop: Loop, h: Summary)
    requires ClientCan(e, a) && DownSink(e, cloop, h, Concat(e.buf.inbox))
    ensures DownSink(ClientDo(e, a).0, cloop, h, Concat(ClientDo(e, a).0.buf.inbox))
  {
    if a.WriteLocal? || a.DrainLocal? {
      MoveHead(e.toLocal, e.buf.inbox, e.accepted, a.k);
    }
  }

  lemma TakeKeepsSink(s: ServerEnd, item: Item, h: Summary, queued: Bytes)
    requires UpSink(s, Idle, h, queued) && s.phase != Unborn
    ensures UpSink(ServerTake(s, item).0, ServerTake(s, item).1, Extend(h, item), queued)
  {
  }

  lemma PushKeepsSink(s: ServerEnd, bytes: Bytes, h: Summary)
    requires UpSink(s, Deliver(bytes), h, Concat(s.buf.inbox))
    ensures UpSink(PushServer(s, bytes), Idle, h, Concat(PushServer(s, bytes).buf.inbox))
  {
    ConcatSnoc(s.buf.inbox, bytes);
    assert s.toBrowser + (Concat(s.buf.inbox) + bytes) == (s.toBrowser + Concat(s.buf.inbox)) + bytes;
  }

  lemma CTakeKeepsSink(c: ClientEnd, item: Item, dialOk: bool, writeOk: bool, h: Summary)
    requires DownSink(c, Idle, h, Concat(c.buf.inbox)) && (item == Open <==> h.empty)
    ensures
      var (c', cloop', _) := ClientTake(c, item, dialOk, writeOk);
      DownSink(c', cloop', Extend(h, item), Concat(c'.buf.inbox))
  {
    assert h.before + [] == h.before;
  }

  lemma CTakeKeepsSource(c: ClientEnd, item: Item, dialOk: bool, writeOk: bool, h: Summary)
    requires UpSource(c, h) && (h.empty ==> h == Sum([])) && (item == Open <==> !c.known)
    ensures
      var (c', _, out) := ClientTake(c, item, dialOk, writeOk);
      UpSource(c', ExtendAll(h, out))
  {
    assert h.sent + [] == h.sent && h.before + [] == h.before;
  }

  lemma CPushKeepsSink(c: ClientEnd, bytes: Bytes, h: Summary)
    requires DownSink(c, Deliver(bytes), h, Concat(c.buf.inbox))
    ensures DownSink(PushClient(c, bytes), Idle, h, Concat(PushClient(c, bytes).buf.inbox))
  {
    ConcatSnoc(c.buf.inbox, bytes);
    assert c.toLocal + (Concat(c.buf.inbox) + bytes) == (c.toLocal + Concat(c.buf.inbox)) + bytes;
  }

  lemma OverflowKeepsSource(c: ClientEnd, ok: bool, h: Summary)
    requires UpSource(c, h) && c.known
    ensures UpSource(c.(sentClose := c.sentClose || ok), ExtendAll(h, if ok then [Close] else []))
  {
    assert h.sent + [] == h.sent && h.before + [] == h.before;
  }

  lemma OverflowKeepsSink(c: ClientEnd, ok: bool, h: Summary)
    requires DownSink(c, Overflow, h, Concat(c.buf.inbox))
    ensures DownSink(c.(sentClose := c.sentClose || ok), OverflowLeaving, h, Concat(c.buf.inbox)) && c.known
  {
  }

  // ---------------------------------------------------------------- preservation, whole stream

  lemma UnbornIsQuiet(p: Pipe)
    requires Inv(p) && p.s.phase == Unborn
    ensures p.s == NO_SERVER && p.c == NO_CLIENT && p.up == [] && p.upRead == [] && p.down == [] && p.downRead == []
  {
  }

  lemma TakeSameHistory(read: seq<Item>, wire: seq<Item>)
    requires wire != []
    ensures (read + [wire[0]]) + wire[1..] == read + wire
  {
  }

  /** What a step of a server goroutine has to show about the half it changed. */
  lemma ReplaceServer(p: Pipe, s: ServerEnd, out: seq<Item>)
    requires Inv(p) && |out| <= 1
    requires DownSource(s, ExtendAll(Sum(p.downRead + p.down), out))
    requires UpSink(s, p.loop, Sum(p.upRead), Concat(s.buf.inbox))
    requires out != [] ==> (out[0] == Open <==> p.downRead + p.down == [])
    ensures Inv(p.(s := s, down := p.down + out))
  {
    var hist := p.downRead + p.down;
    SumAppend(hist, out);
    assert p.downRead + (p.down + out) == hist + out;
    OpensOnceAppend(hist, out);
  }

  lemma OpensOnceAppend(hist: seq<Item>, out: seq<Item>)
    requires OpensOnce(hist) && |out| <= 1 && (out == [Open] ==> hist == []) && (hist == [] ==> out == [] || out == [Open])
    ensures OpensOnce(hist + out)
  {
  }

  lemma ReplaceClient(p: Pipe, c: ClientEnd, cloop: Loop, out: seq<Item>)
    requires Inv(p) && |out| <= 1
    requires UpSource(c, ExtendAll(Sum(p.upRead + p.up), out))
    requires DownSink(c, cloop, Sum(p.downRead), Concat(c.buf.inbox))
    ensures Inv(p.(c := c, cloop := cloop, up := p.up + out))
  {
    hide UpSource, UpSink, DownSource, DownSink, OpensOnce;
    var hist := p.upRead + p.up;
    SumAppend(hist, out);
    assert p.upRead + (p.up + out) == hist + out;
  }

  lemma OpenComesFirst(e: ServerEnd, sa: ServerAct, h: Summary)
    requires ServerCan(e, sa) && DownSource(e, h)
    ensures |ServerDo(e, sa).1| <= 1
    ensures ServerDo(e, sa).1 != [] ==> (ServerDo(e, sa).1[0] == Open <==> h.empty)
  {
  }

  lemma ServerStepKeepsInv(p: Pipe, sa: ServerAct)
    requires ServerCan(p.s, sa) && Inv(p)
    ensures Inv(Next(p, Server(sa)))
  {
    hide ServerDo, UpSource, UpSink, DownSource, DownSink, OpensOnce;
    var (s, out) := ServerDo(p.s, sa);
    var h := Sum(p.downRead + p.down);
    OpenComesFirst(p.s, sa, h);
    ServerKeepsSource(p.s, sa, h);
    ServerKeepsSink(p.s, sa, p.loop, Sum(p.upRead));
    ReplaceServer(p, s, out);
  }

  lemma ClientStepKeepsInv(p: Pipe, ca: ClientAct)
    requires ClientCan(p.c, ca) && Inv(p)
    ensures Inv(Next(p, Client(ca)))
  {
    hide UpSource, UpSink, DownSource, DownSink, OpensOnce;
    var (c, out) := ClientDo(p.c, ca);
    ClientKeepsSource(p.c, ca, Sum(p.upRead + p.up));
    ClientKeepsSink(p.c, ca, p.cloop, Sum(p.downRead));
    ReplaceClient(p, c, p.cloop, out);
  }

  lemma TakeKeepsInv(p: Pipe)
    requires Can(p, Take) && Inv(p)
    ensures Inv(Next(p, Take))
  {
    if p.s.phase == Unborn {
      UnbornIsQuiet(p);
      assert false;
    }
    TakeSameHistory(p.upRead, p.up);
    TakeKeepsSink(p.s, p.up[0], Sum(p.upRead), Concat(p.s.buf.inbox));
    SumSnoc(p.upRead, p.up[0]);
  }

  lemma ClientLoopKeepsInv(p: Pipe, a: Act)
    requires Can(p, a) && Inv(p)
    requires a.CPush? || a.CDiscard? || a.COverflow? || a.COverflowLeaves? || a.CStop?
    ensures Inv(Next(p, a))
  {
    if a.CPush? {
      CPushKeepsSink(p.c, p.cloop.bytes, Sum(p.downRead));
    }
  }

  lemma OverflowFrameKeepsInv(p: Pipe, ok: bool)
    requires Can(p, COverflowFrame(ok)) && Inv(p)
    ensures Inv(Next(p, COverflowFrame(ok)))
  {
    hide UpSource, UpSink, DownSource, DownSink, OpensOnce;
    var c, out := p.c.(sentClose := p.c.sentClose || ok), if ok then [Close] else [];
    OverflowKeepsSink(p.c, ok, Sum(p.downRead));
    OverflowKeepsSource(p.c, ok, Sum(p.upRead + p.up));
    ReplaceClient(p, c, OverflowLeaving, out);
  }

  lemma ServerLoopKeepsInv(p: Pipe, a: Act)
    requires Can(p, a) && Inv(p)
    requires a.Push? || a.Discard? || a.Stop?
    ensures Inv(Next(p, a))
  {
    if a.Push? {
      PushKeepsSink(p.s, p.loop.bytes, Sum(p.upRead));
    }
  }

  lemma BornKeepsInv(p: Pipe, req: Bytes)
    requires Can(p, Born(req)) && Inv(p)
    ensures Inv(Next(p, Born(req)))
  {
    UnbornIsQuiet(p);
  }

  lemma NextKeepsInv(p: Pipe, a: Act)
    requires Can(p, a) && Inv(p)
    ensures Inv(Next(p, a))
  {
    hide Inv;
    match a
    case Stutter =>
    case Born(req) => BornKeepsInv(p, req);
    case Server(sa) => ServerStepKeepsInv(p, sa);
    case Client(ca) => ClientStepKeepsInv(p, ca);
    case Take => TakeKeepsInv(p);
    case CTake(dialOk, writeOk) => CTakeKeepsInv(p, dialOk, writeOk);
    case Push => ServerLoopKeepsInv(p, a);
    case Discard => ServerLoopKeepsInv(p, a);
    case Stop => ServerLoopKeepsInv(p, a);
    case COverflowFrame(ok) => OverflowFrameKeepsInv(p, ok);
    case _ => ClientLoopKeepsInv(p, a);
  }

  lemma OpenMeetsStranger(p: Pipe)
    requires Inv(p) && p.down != [] && p.cloop == Idle
    ensures p.down[0] == Open <==> Sum(p.downRead).empty
    ensures p.down[0] == Open <==> !p.c.known
    ensures DownSink(p.c, Idle, Sum(p.downRead), Concat(p.c.buf.inbox))
    ensures Sum(p.upRead + p.up).empty ==> Sum(p.upRead + p.up) == Sum([])
  {
    assert (p.downRead + p.down)[|p.downRead|] == p.down[0];
  }

  lemma CTakeKeepsInv(p: Pipe, dialOk: bool, writeOk: bool)
    requires Can(p, CTake(dialOk, writeOk)) && Inv(p)
    ensures Inv(Next(p, CTake(dialOk, writeOk)))
  {
    var item := p.down[0];
    var upHist, downHist := p.upRead + p.up, p.downRead + p.down;
    var (c, cloop, out) := ClientTake(p.c, item, dialOk, writeOk);
    assert |out| <= 1;
    OpenMeetsStranger(p);
    hide UpSource, UpSink, DownSource, DownSink, OpensOnce, ClientTake, Payload, BeforeClose;
    CTakeKeepsSink(p.c, item, dialOk, writeOk, Sum(p.downRead));
    CTakeKeepsSource(p.c, item, dialOk, writeOk, Sum(upHist));
    SumSnoc(p.downRead, item);
    SumAppend(upHist, out);
    TakeSameHistory(p.downRead, p.down);
    assert p.upRead + (p.up + out) == upHist + out;
  }

  // ---------------------------------------------------------------- every run

  predicate Runs(p: Pipe, acts: seq<Act>)
    decreases |acts|
  {
    acts == [] || (Can(p, acts[0]) && Runs(Next(p, acts[0]), acts[1..]))
  }

  function Run(p: Pipe, acts: seq<Act>): Pipe
    requires Runs(p, acts)
    decreases |acts|
  {
    if acts == [] then p else Run(Next(p, acts[0]), acts[1..])
  }

  lemma StartInv()
    ensures Inv(START)
  {
  }

  lemma {:induction false} RunKeepsInv(p: Pipe, acts: seq<Act>)
    requires Runs(p, acts) && Inv(p)
    ensures Inv(Run(p, acts))
    decreases |acts|
  {
    if acts != [] {
      NextKeepsInv(p, acts[0]);
      RunKeepsInv(Next(p, acts[0]), acts[1..]);
    }
  }

  /** Bytes arrive in order, without gaps, and only from the connection at the other end. */
  lemma PrefixBothWays(p: Pipe)
    requires Inv(p)
    ensures p.s.toBrowser <= p.c.fromLocal
    ensures p.c.toLocal <= p.s.req + p.s.fromBrowser
  {
    BeforeCloseGrows(p.upRead, p.up);
    BeforeCloseIsPayload(p.upRead + p.up);
    BeforeCloseGrows(p.downRead, p.down);
    BeforeCloseIsPayload(p.downRead + p.down);
    assert p.s.toBrowser <= p.s.accepted;
    assert p.c.toLocal <= p.c.accepted;
  }

  /**
   * Draining after the close flag loses nothing: a handler that leaves through the closed branch
   * has written exactly the bytes the read loop accepted, and these are all the bytes the client
   * sent before its CLOSE (or before the read loop stopped, when the tunnel broke).
   */
  lemma DrainIsComplete(p: Pipe)
    requires Inv(p) && p.s.clean
    ensures p.s.toBrowser == p.s.accepted
    ensures Close in p.upRead ==> p.s.toBrowser == BeforeClose(p.upRead + p.up)
    ensures Close !in p.upRead ==> p.loop == LoopStopped && p.s.toBrowser == Payload(p.upRead)
  {
    BeforeCloseGrows(p.upRead, p.up);
    BeforeCloseIsPayload(p.upRead);
  }

  /** End to end: a local service that closes after its response reaches the browser in full. */
  lemma ResponseIsComplete(p: Pipe)
    requires Inv(p) && p.s.clean && p.c.eofClose && Close in p.upRead
    ensures p.s.toBrowser == p.c.fromLocal
  {
    DrainIsComplete(p);
  }

  // ---------------------------------------------------------------- the client's drain

  lemma ClosedConnClientStep(e: ClientEnd, ca: ClientAct)
    requires ClientCan(e, ca) && e.connClosed
    ensures ClientDo(e, ca).0.connClosed && ClientDo(e, ca).0.toLocal == e.toLocal && ClientDo(e, ca).0.fromLocal == e.fromLocal
  {
    if ca.WriteLocal? || ca.DrainLocal? {
      assert e.toLocal + e.buf.inbox[0][..0] == e.toLocal;
    }
  }

  lemma ClosedConnStep(p: Pipe, a: Act)
    requires Can(p, a) && p.c.connClosed
    requires a.CTake? ==> p.down[0] != Open
    ensures Next(p, a).c.connClosed && Next(p, a).c.toLocal == p.c.toLocal && Next(p, a).c.fromLocal == p.c.fromLocal
  {
    if a.Client? {
      ClosedConnClientStep(p.c, a.ca);
    }
    hide ClientDo, ServerDo, ClientCan, ServerCan;
  }

  lemma OpenIsNotRepeated(read: seq<Item>, wire: seq<Item>)
    requires OpensOnce(read + wire) && read != [] && wire != []
    ensures wire[0] != Open
  {
    assert (read + wire)[|read|] == wire[0];
  }

  /** Once the client closed its local connection, not one more byte reaches the local service or comes from it. */
  lemma {:induction false} ClosedConnIsFrozen(p: Pipe, acts: seq<Act>)
    requires Runs(p, acts) && Inv(p) && p.c.connClosed
    ensures Run(p, acts).c.toLocal == p.c.toLocal && Run(p, acts).c.fromLocal == p.c.fromLocal
    decreases |acts|
  {
    if acts != [] {
      if acts[0].CTake? && p.down[0] == Open {
        OpenIsNotRepeated(p.downRead, p.down);
        assert false;
      }
      NextKeepsInv(p, acts[0]);
      ClosedConnStep(p, acts[0]);
      ClosedConnIsFrozen(Next(p, acts[0]), acts[1..]);
    }
  }

  /**
   * `closeS` raises the done flag and then closes the local connection, so the drain that
   * follows writes to a closed connection. Whatever runs afterwards, the local service ends up
   * with every byte accepted so far if and only if the inbox held none when the connection
   * was closed.
   */
  lemma LocalDrainIffInboxEmpty(p: Pipe, acts: seq<Act>)
    requires Inv(p) && Can(p, Client(CloseConn)) && (p.c.writer == Looping || p.c.writer == DrainingLocal)
    requires Runs(Next(p, Client(CloseConn)), acts)
    ensures Run(Next(p, Client(CloseConn)), acts).c.toLocal == p.c.accepted <==> Concat(p.c.buf.inbox) == []
  {
    assert p.c.toLocal + Concat(p.c.buf.inbox) == p.c.accepted;
    var p' := Next(p, Client(CloseConn));
    assert p'.c.connClosed && p'.c.toLocal == p.c.toLocal;
    NextKeepsInv(p, Client(CloseConn));
    hide Inv, Next, Can, Runs, Run, Concat;
    ClosedConnIsFrozen(p', acts);
  }

  lemma {:induction false} RunSnoc(p: Pipe, acts: seq<Act>, a: Act)
    requires Runs(p, acts) && Can(Run(p, acts), a)
    ensures Runs(p, acts + [a]) && Run(p, acts + [a]) == Next(Run(p, acts), a)
    decreases |acts|
  {
    if acts == [] {
      assert acts + [a] == [a] && [a][1..] == [];
    } else {
      RunSnoc(Next(p, acts[0]), acts[1..], a);
      assert (acts + [a])[1..] == acts[1..] + [a];
    }
  }

  /** The server's side of such a run: the one-byte request is on its way, the handler pipes. */
  lemma RequestSent() returns (acts: seq<Act>)
    ensures Runs(START, acts)
    ensures Run(START, acts) ==
            START.(s := NewServer([71]).(phase := Piping, reader := Reading), down := [Open, Data([71])])
  {
    acts := [];
    var p := START;
    assert Runs(START, acts) && Run(START, acts) == START;
    hide Run, Runs;
    acts, p := Play(START, acts, Born([71]));
    acts, p := Play(START, acts, Server(OpenFrame(true)));
    assert p == START.(s := NewServer([71]).(phase := SendReq(0)), down := [Open]);
    acts, p := Play(START, acts, Server(ChunkFrame(true)));
    assert p.s.req[0..1] == [71];
    assert p == START.(s := NewServer([71]).(phase := SendReq(1)), down := [Open, Data([71])]);
    acts, p := Play(START, acts, Server(StartPiping));
  }

  /** The browser goes away, so the handler sends CLOSE and leaves. */
  lemma RequestClosed() returns (acts: seq<Act>)
    ensures Runs(START, acts)
    ensures
      var p := Run(START, acts);
      && p.s.phase == Done && p.s.req == [71]
      && p.down == [Open, Data([71]), Close]
      && p.c == NO_CLIENT && p.cloop == Idle
  {
    hide Run, Runs;
    acts := RequestSent();
    var p := Run(START, acts);
    acts, p := Play(START, acts, Server(BrowserEof));
    acts, p := Play(START, acts, Server(SeeBrowserGone));
    acts, p := Play(START, acts, Server(CloseFrame(true)));
    acts, p := Play(START, acts, Server(RemoveSelf));
  }

  /** The client dials, and its read loop puts the request into the inbox. */
  lemma RequestAccepted() returns (acts: seq<Act>)
    ensures Runs(START, acts)
    ensures
      var p := Run(START, acts);
      && p.s.phase == Done && p.s.req == [71]
      && p.down == [Close] && p.cloop == Idle
      && p.c == ClientEnd(true, true, Buf([[71]], false), Reading, Looping, false, [], [], [71], false, false)
  {
    hide Run, Runs;
    acts := RequestClosed();
    var p := Run(START, acts);
    acts, p := Play(START, acts, CTake(true, true));
    acts, p := Play(START, acts, CTake(true, true));
    acts, p := Play(START, acts, CPush);
  }

  /** CLOSE arrives, and the local connection is closed while the request still waits in the inbox. */
  lemma ConnClosedEarly() returns (acts: seq<Act>)
    ensures Runs(START, acts)
    ensures
      var p := Run(START, acts);
      && p.s.phase == Done && p.s.req == [71]
      && p.c == ClientEnd(true, false, Buf([[71]], true), Reading, Looping, true, [], [], [71], false, false)
  {
    hide Run, Runs;
    acts := RequestAccepted();
    var p := Run(START, acts);
    acts, p := Play(START, acts, CTake(true, true));
    acts, p := Play(START, acts, Client(FlagDone));
    acts, p := Play(START, acts, Client(CloseConn));
  }

  /**
   * A run in which the drain promised for the client does not happen: the one-byte request is
   * sent, accepted into the inbox and followed by CLOSE; the connection is closed before the
   * writer goroutine gets to run, and the local service sees nothing.
   */
  lemma LocalDrainCanTruncate() returns (acts: seq<Act>)
    ensures Runs(START, acts)
    ensures
      var p := Run(START, acts);
      && p.s.phase == Done && p.s.req == [71]
      && p.c.accepted == p.s.req && p.c.writer == Exited
      && p.c.toLocal == []
  {
    hide Run, Runs;
    acts := ConnClosedEarly();
    var p := Run(START, acts);
    acts, p := Play(START, acts, Client(SeeDone));
    acts, p := Play(START, acts, Client(DrainLocal(false, 0)));
  }

  lemma Play(p: Pipe, acts: seq<Act>, a: Act) returns (acts': seq<Act>, p': Pipe)
    requires Runs(p, acts) && Can(Run(p, acts), a)
    ensures acts' == acts + [a] && Runs(p, acts') && p' == Run(p, acts') == Next(Run(p, acts), a)
  {
    RunSnoc(p, acts, a);
    acts', p' := acts + [a], Next(Run(p, acts), a);
  }
}
