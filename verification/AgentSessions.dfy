/**
 * What an agent emits for one session, as loops over the subprocess's output, and what the client
 * can rely on when many sessions share the control channel.
 */
module AgentSessions {
  import opened Wrappers
  import opened AgentRelay

  /** One read from a pipe or terminal: data and an end-of-stream error may come together. */
  datatype Read = Read(data: Bytes, err: bool)

  datatype Wait = Clean | ExitError(code: int) | OtherError

  function CodeOf(w: Wait): int {
    match w
    case ExitError(code) => code
    case _ => 0
  }

  // ---------------------------------------------------------------- the grammar

  predicate IsErrorOnly(w: seq<Frame>, s: string) {
    |w| == 1 && w[0].kind.Error? && w[0].session == s
  }

  /** `[stderr] exit`; standard error comes only with a failure code. */
  predicate IsTail(w: seq<Frame>, s: string) {
    && 1 <= |w| <= 2
    && w[|w| - 1].kind.Exit? && w[|w| - 1].session == s
    && (|w| == 2 ==> w[0].kind.Stdio? && w[0].stream.Stderr? && w[0].session == s && w[0].data != [] && w[1].code != 0)
  }

  predicate IsStdout(f: Frame, s: string) {
    f.kind.Stdio? && f.stream.Stdout? && f.session == s && f.data != []
  }

  predicate IsTar(f: Frame, s: string) {
    f.kind.CpDownTar? && f.session == s && f.data != []
  }

  /** `error | stdio* exit` */
  predicate ExecWord(w: seq<Frame>, s: string) {
    || IsErrorOnly(w, s)
    || (w != [] && IsTail(w[|w| - 1..], s) && forall i | 0 <= i < |w| - 1 :: IsStdout(w[i], s))
  }

  /** `error | [stderr] exit` */
  predicate UploadWord(w: seq<Frame>, s: string) {
    IsErrorOnly(w, s) || IsTail(w, s)
  }

  /** `tar* cp_end` takes the first `n + 1` frames. */
  predicate IsDownload(w: seq<Frame>, s: string, n: nat) {
    && n < |w| && (forall i | 0 <= i < n :: IsTar(w[i], s))
    && w[n].kind.CpEnd? && w[n].session == s
    && IsTail(w[n + 1..], s)
  }

  /** `error | tar* cp_end [stderr] exit` */
  predicate DownloadWord(w: seq<Frame>, s: string) {
    IsErrorOnly(w, s) || exists n: nat | n < |w| :: IsDownload(w, s, n)
  }

  predicate Word(w: seq<Frame>, s: string) {
    ExecWord(w, s) || UploadWord(w, s) || DownloadWord(w, s)
  }

  /** The bytes carried by the frames of one kind. */
  function Payload(w: seq<Frame>, kind: Kind): Bytes {
    if w == [] then [] else Payload(w[..|w| - 1], kind) + if w[|w| - 1].kind == kind then w[|w| - 1].data else []
  }

  /** Everything read up to and including the first read that reports an error. */
  function Output(chunks: seq<Read>): Bytes {
    if chunks == [] then [] else if chunks[0].err then chunks[0].data else chunks[0].data + Output(chunks[1..])
  }

  lemma {:induction false} PayloadAppend(a: seq<Frame>, b: seq<Frame>, kind: Kind)
    ensures Payload(a + b, kind) == Payload(a, kind) + Payload(b, kind)
    decreases |b|
  {
    if b == [] {
      assert a + b == a;
    } else {
      assert (a + b)[..|a + b| - 1] == a + b[..|b| - 1];
      PayloadAppend(a, b[..|b| - 1], kind);
    }
  }

  lemma PayloadSnoc(a: seq<Frame>, f: Frame, kind: Kind)
    ensures Payload(a + [f], kind) == Payload(a, kind) + if f.kind == kind then f.data else []
  {
    assert (a + [f])[..|a|] == a;
  }

  // ---------------------------------------------------------------- the emitting loops

  function ErrorFrame(s: string): Frame {
    Frame(Error, s, NoStream, [], 0)
  }

  /** Non-empty frames of one kind, stream and session. */
  predicate Uniform(fs: seq<Frame>, s: string, kind: Kind, stream: Stream) {
    forall i | 0 <= i < |fs| :: fs[i] == Frame(kind, s, stream, fs[i].data, 0) && fs[i].data != []
  }

  lemma OutputStep(chunks: seq<Read>, i: nat)
    requires i < |chunks|
    ensures Output(chunks[i..]) == chunks[i].data + if chunks[i].err then [] else Output(chunks[i + 1..])
  {
    assert chunks[i..][1..] == chunks[i + 1..];
    assert chunks[i].data + [] == chunks[i].data;
  }

  /** One read: a frame unless it brought no data. */
  method ForwardChunk(out: seq<Frame>, s: string, kind: Kind, stream: Stream, data: Bytes) returns (next: seq<Frame>)
    requires Uniform(out, s, kind, stream)
    ensures Uniform(next, s, kind, stream) && Payload(next, kind) == Payload(out, kind) + data
  {
    next := out;
    if data != [] {
      PayloadSnoc(out, Frame(kind, s, stream, data, 0), kind);
      hide Payload;
      next := out + [Frame(kind, s, stream, data, 0)];
    } else {
      assert Payload(out, kind) + [] == Payload(out, kind);
    }
  }

  /**
   * The forwarding loop shared by exec and download: one frame per non-empty read, until a read
   * reports an error. `ended` is false while the subprocess is still producing output.
   */
  method ForwardOutput(s: string, kind: Kind, stream: Stream, chunks: seq<Read>) returns (out: seq<Frame>, ended: bool)
    ensures ended <==> exists i | 0 <= i < |chunks| :: chunks[i].err
    ensures Uniform(out, s, kind, stream)
    ensures Payload(out, kind) == Output(chunks)
  {
    out, ended := [], false;
    OutputStart(chunks);
    hide Output, Payload, Uniform;
    for i := 0 to |chunks|
      invariant forall j | 0 <= j < i :: !chunks[j].err
      invariant Uniform(out, s, kind, stream)
      invariant Payload(out, kind) + Output(chunks[i..]) == Output(chunks)
    {
      ghost var before := Payload(out, kind);
      OutputStep(chunks, i);
      MoveData(before, chunks[i].data, if chunks[i].err then [] else Output(chunks[i + 1..]));
      out := ForwardChunk(out, s, kind, stream, chunks[i].data);
      if chunks[i].err {
        assert before + chunks[i].data + [] == before + chunks[i].data;
        return out, true;
      }
    }
    OutputEnd(chunks, Payload(out, kind));
  }

  lemma OutputStart(chunks: seq<Read>)
    ensures forall kind :: Payload([], kind) + Output(chunks[0..]) == Output(chunks)
    ensures forall s, kind, stream :: Uniform([], s, kind, stream)
  {
    assert chunks[0..] == chunks;
    assert [] + Output(chunks) == Output(chunks);
  }

  lemma OutputEnd(chunks: seq<Read>, sofar: Bytes)
    ensures sofar + Output(chunks[|chunks|..]) == sofar
  {
  }

  lemma MoveData(a: Bytes, b: Bytes, c: Bytes)
    ensures a + b + c == a + (b + c)
    ensures b == [] ==> a + c == a + (b + c)
  {
  }

  /** `docker exec`: nothing but terminal output, then the exit code. */
  method ExecSession(s: string, started: bool, chunks: seq<Read>, wait: Wait) returns (out: seq<Frame>, ended: bool)
    ensures ended ==> ExecWord(out, s)
    ensures !ended ==> forall f | f in out :: IsStdout(f, s)
    ensures started ==> Payload(out, Stdio) == Output(chunks)
    ensures !started ==> IsErrorOnly(out, s)
    ensures ended <==> !started || exists i | 0 <= i < |chunks| :: chunks[i].err
    ensures started && ended ==> out[|out| - 1].code == if wait.ExitError? then wait.code else 0
  {
    if !started {
      return [ErrorFrame(s)], true;
    }
    out, ended := ForwardOutput(s, Stdio, Stdout, chunks);
    if ended {
      var exit := Frame(Exit, s, NoStream, [], CodeOf(wait));
      PayloadSnoc(out, exit, Stdio);
      assert forall i | 0 <= i < |out| :: IsStdout(out[i], s);
      out := out + [exit];
      assert out[|out| - 1..] == [exit];
    }
  }

  /** The end of a copy: standard error only when the copy failed and said something. */
  method CopyTail(s: string, stderr: Bytes, wait: Wait) returns (out: seq<Frame>)
    ensures IsTail(out, s) && out[|out| - 1].code == if wait.ExitError? then wait.code else 0
    ensures |out| == 2 <==> wait.ExitError? && wait.code != 0 && stderr != []
    ensures |out| == 2 ==> out[0].data == stderr
  {
    out := [];
    var code := CodeOf(wait);
    if code != 0 && |stderr| > 0 {
      out := out + [Frame(Stdio, s, Stderr, stderr, 0)];
    }
    out := out + [Frame(Exit, s, NoStream, [], code)];
  }

  method UploadSession(s: string, started: bool, stderr: Bytes, wait: Wait) returns (out: seq<Frame>)
    ensures UploadWord(out, s)
    ensures !started ==> IsErrorOnly(out, s)
    ensures started ==> IsTail(out, s) && out[|out| - 1].code == if wait.ExitError? then wait.code else 0
    ensures started ==> (|out| == 2 <==> wait.ExitError? && wait.code != 0 && stderr != [])
    ensures started && |out| == 2 ==> out[0].data == stderr
  {
    if !started {
      return [ErrorFrame(s)];
    }
    out := CopyTail(s, stderr, wait);
  }

  method DownloadSession(s: string, started: bool, chunks: seq<Read>, stderr: Bytes, wait: Wait)
    returns (out: seq<Frame>, ended: bool)
    ensures ended ==> DownloadWord(out, s)
    ensures !ended ==> forall f | f in out :: IsTar(f, s)
    ensures started ==> Payload(out, CpDownTar) == Output(chunks)
    ensures !started ==> IsErrorOnly(out, s)
    ensures ended <==> !started || exists i | 0 <= i < |chunks| :: chunks[i].err
    ensures started && ended ==> out[|out| - 1].code == if wait.ExitError? then wait.code else 0
    ensures started && ended ==> Payload(out, Stdio) == if wait.ExitError? && wait.code != 0 then stderr else []
  {
    if !started {
      return [ErrorFrame(s)], true;
    }
    out, ended := ForwardOutput(s, CpDownTar, NoStream, chunks);
    if ended {
      ghost var body := out;
      out := out + [CpEndFrame(s)];
      var tail := CopyTail(s, stderr, wait);
      TailCarries(tail, s);
      DownloadAssembled(body, tail, s);
      hide *;
      out := out + tail;
    }
  }

  function CpEndFrame(s: string): Frame {
    Frame(CpEnd, s, NoStream, [], 0)
  }

  lemma DownloadPayloads(body: seq<Frame>, tail: seq<Frame>, s: string)
    requires (forall f | f in body :: IsTar(f, s)) && IsTail(tail, s)
    ensures
      var w := body + [CpEndFrame(s)] + tail;
      Payload(w, CpDownTar) == Payload(body, CpDownTar) && Payload(w, Stdio) == Payload(tail, Stdio)
  {
    TarCarriesNoStdio(body, s);
    TailCarriesNoTar(tail, s);
    PayloadAppend(body + [CpEndFrame(s)], tail, Stdio);
    PayloadAppend(body + [CpEndFrame(s)], tail, CpDownTar);
    PayloadSnoc(body, CpEndFrame(s), Stdio);
    PayloadSnoc(body, CpEndFrame(s), CpDownTar);
    hide Payload, IsTail, IsTar;
    assert [] + Payload(tail, Stdio) == Payload(tail, Stdio);
  }

  lemma DownloadAssembled(body: seq<Frame>, tail: seq<Frame>, s: string)
    requires (forall f | f in body :: IsTar(f, s)) && IsTail(tail, s)
    ensures
      var w := body + [CpEndFrame(s)] + tail;
      && DownloadWord(w, s) && w[|w| - 1] == tail[|tail| - 1]
      && Payload(w, CpDownTar) == Payload(body, CpDownTar)
      && Payload(w, Stdio) == Payload(tail, Stdio)
  {
    DownloadPayloads(body, tail, s);
    assert tail != [];
    var w, n := body + [CpEndFrame(s)] + tail, |body|;
    hide Payload, IsTail, IsTar;
    assert w[n + 1..] == tail;
    assert forall i | 0 <= i < n :: w[i] == body[i];
    assert w[n] == CpEndFrame(s);
    assert IsDownload(w, s, n);
  }

  lemma {:induction false} TarCarriesNoStdio(w: seq<Frame>, s: string)
    requires forall f | f in w :: IsTar(f, s)
    ensures Payload(w, Stdio) == []
  {
    if w != [] {
      assert w[|w| - 1] in w && forall f | f in w[..|w| - 1] :: f in w;
      TarCarriesNoStdio(w[..|w| - 1], s);
    }
  }

  /** The standard error a tail carries. */
  lemma TailCarries(w: seq<Frame>, s: string)
    requires IsTail(w, s)
    ensures Payload(w, Stdio) == if |w| == 2 then w[0].data else []
  {
    assert Payload([], Stdio) == [];
    if |w| == 2 {
      assert w[..1][..0] == [] && w[..1][0] == w[0];
      assert Payload(w[..1], Stdio) == [] + w[0].data;
    } else {
      assert w[..0] == [];
    }
  }

  lemma TailCarriesNoTar(w: seq<Frame>, s: string)
    requires IsTail(w, s)
    ensures Payload(w, CpDownTar) == []
  {
    if |w| == 2 {
      assert w[..1][..0] == [];
      assert Payload(w[..1], CpDownTar) == [];
    }
  }

  /** `startDockerCpSession` with any other direction. */
  method UnknownDirection(s: string) returns (out: seq<Frame>)
    ensures IsErrorOnly(out, s)
  {
    out := [ErrorFrame(s)];
  }

  // ---------------------------------------------------------------- words end exactly once

  /** It ends with its only terminal frame and belongs to one session throughout. */
  predicate OneSession(w: seq<Frame>, s: string) {
    && EndsOnce(w) && EndsTerminal(w)
    && forall i | 0 <= i < |w| :: w[i].session == s && Relayed(w[i])
  }

  lemma TailShape(w: seq<Frame>, s: string)
    requires IsTail(w, s)
    ensures OneSession(w, s)
  {
  }

  /** Frames that end nothing in front of a word change nothing about its shape. */
  lemma ShapeAfter(a: seq<Frame>, w: seq<Frame>, s: string)
    requires OneSession(w, s)
    requires forall i | 0 <= i < |a| :: a[i].session == s && Relayed(a[i]) && !Terminal(a[i])
    ensures OneSession(a + w, s)
  {
    hide Relayed, Terminal;
  }

  lemma ExecShape(w: seq<Frame>, s: string)
    requires ExecWord(w, s)
    ensures OneSession(w, s)
  {
    if !IsErrorOnly(w, s) {
      var front, tail := w[..|w| - 1], w[|w| - 1..];
      TailShape(tail, s);
      forall i | 0 <= i < |front|
        ensures front[i].session == s && Relayed(front[i]) && !Terminal(front[i])
      {
        assert IsStdout(w[i], s);
      }
      ShapeAfter(front, tail, s);
      assert w == front + tail;
    }
  }

  lemma DownloadShape(w: seq<Frame>, s: string, n: nat)
    requires IsDownload(w, s, n)
    ensures OneSession(w, s)
  {
    var front, tail := w[..n + 1], w[n + 1..];
    TailShape(tail, s);
    forall i | 0 <= i < |front|
      ensures front[i].session == s && Relayed(front[i]) && !Terminal(front[i])
    {
      assert i < n ==> IsTar(w[i], s);
    }
    hide IsTail;
    ShapeAfter(front, tail, s);
    assert w == front + tail;
  }

  lemma WordShape(w: seq<Frame>, s: string)
    requires Word(w, s)
    ensures OneSession(w, s)
  {
    if IsErrorOnly(w, s) {
    } else if IsTail(w, s) {
      TailShape(w, s);
    } else if ExecWord(w, s) {
      ExecShape(w, s);
    } else {
      var n: nat :| n < |w| && IsDownload(w, s, n);
      DownloadShape(w, s, n);
    }
    hide IsTail, IsDownload, EndsOnce, EndsTerminal;
  }

  // ---------------------------------------------------------------- many sessions, one channel

  /** The agent's write log and what each session has yet to write; writes are serialised by a mutex. */
  datatype Log = Log(out: seq<Frame>, left: map<string, seq<Frame>>)

  datatype Turn = Write(s: string) | Heartbeat

  const PING := Frame(Ping, "", NoStream, [], 0)

  predicate TurnCan(l: Log, t: Turn) {
    t.Heartbeat? || (t.s in l.left && l.left[t.s] != [])
  }

  function TakeTurn(l: Log, t: Turn): Log
    requires TurnCan(l, t)
  {
    match t
    case Write(s) => Log(l.out + [l.left[s][0]], l.left[s := l.left[s][1..]])
    case Heartbeat => l.(out := l.out + [PING])
  }

  predicate TurnsCan(l: Log, ts: seq<Turn>)
    decreases |ts|
  {
    ts == [] || (TurnCan(l, ts[0]) && TurnsCan(TakeTurn(l, ts[0]), ts[1..]))
  }

  function TakeTurns(l: Log, ts: seq<Turn>): Log
    requires TurnsCan(l, ts)
    decreases |ts|
  {
    if ts == [] then l else TakeTurns(TakeTurn(l, ts[0]), ts[1..])
  }

  /** Each session writes only frames of its own. */
  predicate OwnFrames(left: map<string, seq<Frame>>) {
    forall s | s in left :: forall f | f in left[s] :: f.session == s && Relayed(f)
  }

  lemma WriteKeepsSplit(l: Log, w: string, s: string)
    requires w in l.left && l.left[w] != [] && OwnFrames(l.left) && s in l.left
    ensures Sent(l.out + [l.left[w][0]], s) + l.left[w := l.left[w][1..]][s] == Sent(l.out, s) + l.left[s]
  {
    var f := l.left[w][0];
    assert f in l.left[w];
    assert Relayed(f) && f.session == w;
    SentSnoc(l.out, f, s);
    hide *;
    MoveOne(Sent(l.out, s), l.left[w]);
    assert Sent(l.out, s) + [] == Sent(l.out, s);
  }

  lemma MoveOne(a: seq<Frame>, b: seq<Frame>)
    requires b != []
    ensures a + [b[0]] + b[1..] == a + b
  {
  }

  lemma TurnKeepsOwn(l: Log, t: Turn)
    requires TurnCan(l, t) && OwnFrames(l.left)
    ensures OwnFrames(TakeTurn(l, t).left)
  {
    if t.Write? {
      assert forall f | f in l.left[t.s][1..] :: f in l.left[t.s];
    }
    hide Relayed;
  }

  lemma TurnKeepsSplit(l: Log, t: Turn, s: string)
    requires TurnCan(l, t) && OwnFrames(l.left) && s in l.left
    ensures
      var l' := TakeTurn(l, t);
      s in l'.left && Sent(l'.out, s) + l'.left[s] == Sent(l.out, s) + l.left[s]
  {
    if t.Heartbeat? {
      SentSnoc(l.out, PING, s);
      assert Sent(l.out, s) + [] == Sent(l.out, s);
    } else {
      hide Sent, OwnFrames;
      WriteKeepsSplit(l, t.s, s);
    }
  }

  /** However sessions interleave, the log restricted to one of them is a prefix of its word. */
  lemma {:induction false} SessionsInterleave(l: Log, ts: seq<Turn>, s: string)
    requires TurnsCan(l, ts) && OwnFrames(l.left) && s in l.left
    ensures
      var l' := TakeTurns(l, ts);
      s in l'.left && Sent(l'.out, s) + l'.left[s] == Sent(l.out, s) + l.left[s]
    decreases |ts|
  {
    hide Sent, OwnFrames;
    if ts != [] {
      TurnKeepsSplit(l, ts[0], s);
      TurnKeepsOwn(l, ts[0]);
      SessionsInterleave(TakeTurn(l, ts[0]), ts[1..], s);
    }
  }

  /** The frames of an ended prefix of a word are the word. */
  lemma EndedPrefixIsWord(p: seq<Frame>, w: seq<Frame>)
    requires p <= w && EndsOnce(w) && EndsTerminal(w) && Ended(p)
    ensures UpToTerminal(p) == w
  {
    UnendedHasNoTerminal(p);
    TerminalInside(p);
    var i :| 0 <= i < |p| && Terminal(p[i]);
    assert p[i] == w[i];
    assert p == w;
    UpToTerminalOfWord(w);
  }

  lemma {:induction false} TerminalInside(p: seq<Frame>)
    requires Ended(p)
    ensures exists i | 0 <= i < |p| :: Terminal(p[i])
  {
    if !Terminal(p[0]) {
      var rest := UpToTerminal(p[1..]);
      assert UpToTerminal(p) == [p[0]] + rest;
      assert rest != [];
      assert ([p[0]] + rest)[|rest|] == rest[|rest| - 1];
      TerminalInside(p[1..]);
      var i :| 0 <= i < |p[1..]| && Terminal(p[1..][i]);
      assert Terminal(p[i + 1]);
    }
  }

  lemma {:induction false} UpToTerminalOfWord(w: seq<Frame>)
    requires EndsOnce(w)
    ensures UpToTerminal(w) == w
  {
    if w != [] {
      assert w == [w[0]] + w[1..];
      if !Terminal(w[0]) {
        UpToTerminalOfWord(w[1..]);
      }
    }
  }

  /** What the server has read of a session is a prefix of what the agent writes for it. */
  lemma ReadIsPrefix(read: seq<Frame>, at: nat, out: seq<Frame>, rest: seq<Frame>, s: string)
    requires at <= |read| && Sent(read[..at], s) == [] && read <= out
    ensures Sent(read[at..], s) <= Sent(out, s) + rest
  {
    var seen, since, later := read[..at], read[at..], out[|read|..];
    assert out == seen + since + later;
    SentSplit(seen + since, later, s);
    SentSplit(seen, since, s);
    hide *;
    FrontOfSum(Sent(since, s), Sent(later, s), rest);
  }

  lemma FrontOfSum(a: seq<Frame>, b: seq<Frame>, c: seq<Frame>)
    ensures a <= [] + a + b + c
  {
  }

  lemma SessionReceivesWord(x: Session, since: seq<Frame>, w: seq<Frame>, s: string)
    requires SessionInv(x, since) && since <= w && Word(w, s)
    ensures !x.reader.Refused? ==> Subseq(x.cli, w)
    ensures x.reader.Finished? ==> (x.cli == w <==> !x.lost)
  {
    WordShape(w, s);
    hide Word;
    if !x.reader.Refused? {
      SubseqFront(x.cli, x.chan.buf, since);
      SubseqOfPrefix(x.cli, since, w);
    }
    if x.reader.Finished? {
      EndedPrefixIsWord(since, w);
      assert x.cli + [] == x.cli;
    }
    hide Subseq, UpToTerminal, EndsOnce;
  }

  /**
   * End to end: agents write words, the channel delivers a prefix of what was written, the server
   * relays. Then a client's frames are a subsequence of its session's word, and a client whose
   * session ran to its end has received the whole word if and only if no frame was dropped.
   */
  lemma ClientReceivesWord(es: seq<Event>, left: map<string, seq<Frame>>, ts: seq<Turn>, s: string)
    requires Runs(START, es) && s in Run(START, es).sessions
    requires s in left && OwnFrames(left) && Word(left[s], s) && TurnsCan(Log([], left), ts)
    requires Run(START, es).read <= TakeTurns(Log([], left), ts).out
    requires NothingBefore(Run(START, es), s)
    ensures
      var x := Run(START, es).sessions[s];
      && (!x.reader.Refused? ==> Subseq(x.cli, left[s]))
      && (x.reader.Finished? ==> (x.cli == left[s] <==> !x.lost))
  {
    var st, l := Run(START, es), TakeTurns(Log([], left), ts);
    RunKeeps(START, es);
    SessionsInterleave(Log([], left), ts, s);
    assert [] + left[s] == left[s];
    hide Run, Runs, TakeTurns, TurnsCan, Word, Subseq;
    var x := st.sessions[s];
    ReadIsPrefix(st.read, x.at, l.out, l.left[s], s);
    SessionReceivesWord(x, Sent(st.read[x.at..], s), left[s], s);
  }

  /** An agent cannot know a session before it is opened. */
  predicate NothingBefore(st: State, s: string)
    requires s in st.sessions
  {
    st.sessions[s].at <= |st.read| ==> Sent(st.read[..st.sessions[s].at], s) == []
  }

  lemma SubseqOfPrefix(a: seq<Frame>, p: seq<Frame>, b: seq<Frame>)
    requires Subseq(a, p) && p <= b
    ensures Subseq(a, b)
    decreases |b|
  {
    if p != b {
      SubseqOfPrefix(a, p, b[..|b| - 1]);
    }
  }
}
