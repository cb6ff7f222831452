/**
 * The server's relay between an agent's control channel and the command-line clients: one bounded
 * buffer per session, filled by the agent read loop, drained by the session's forwarder. A frame
 * that finds the buffer full is dropped. Dispatch is one atomic step.
 */
module AgentRelay {
  import opened Wrappers

  type Byte = b: int | 0 <= b < 256
  type Bytes = seq<Byte>

  datatype Kind =
    | Hello | Ping | Pong | OpenExec | OpenCp | Stdio | CpUpTar | CpDownTar | CpEnd | Resize | Exit | Error | Close | Unknown

  datatype Stream = NoStream | Stdout | Stderr

  datatype Frame = Frame(kind: Kind, session: string, stream: Stream, data: Bytes, code: int)

  const CAP := 32

  predicate Terminal(f: Frame) {
    f.kind.Exit? || f.kind.Error?
  }

  /** The kinds the agent read loop hands to a session. */
  predicate Relayed(f: Frame) {
    f.kind.Stdio? || f.kind.CpDownTar? || f.kind.CpEnd? || Terminal(f)
  }

  const LOCAL_ERROR := Frame(Error, "", NoStream, [], 0)

  // ---------------------------------------------------------------- the channels as values

  /** A Go channel of capacity 32; a closed one still yields what it holds. */
  datatype Chan = Chan(buf: seq<Frame>, closed: bool)

  type Chans = map<string, Chan>

  function Push(c: Chan, f: Frame): Chan {
    if |c.buf| < CAP then c.(buf := c.buf + [f]) else c
  }

  // ---------------------------------------------------------------- one agent connection, many sessions

  /** Refused: the open frame could not be sent to the agent, and the client got one local error. */
  datatype Reader = Idle | Running | Finished | Broken | Refused

  /**
   * A session: whether the read loop can still reach its channel, the channel, its forwarder, the
   * frames written to the client, and for the record whether a frame was dropped and how many
   * frames had been read when it opened.
   */
  datatype Session = Session(live: bool, chan: Chan, reader: Reader, cli: seq<Frame>, lost: bool, at: nat)

  datatype State = State(sessions: map<string, Session>, read: seq<Frame>)

  const START := State(map[], [])

  datatype Event =
    | Open(s: string)
    | OpenSent(s: string, ok: bool)
    | FromAgent(f: Frame)
    | Forward(s: string, ok: bool)
    | SeeClosed(s: string)
    | Cancel(s: string)
    | CloseAtEnd(s: string)

  predicate Can(st: State, e: Event) {
    match e
    case Open(s) => s !in st.sessions
    case OpenSent(s, _) => s in st.sessions && st.sessions[s].reader.Idle?
    case FromAgent(f) => true
    case Forward(s, _) => s in st.sessions && st.sessions[s].reader.Running? && st.sessions[s].chan.buf != []
    case SeeClosed(s) =>
      s in st.sessions && st.sessions[s].reader.Running? && st.sessions[s].chan.buf == [] && st.sessions[s].chan.closed
    case Cancel(s) => s in st.sessions && st.sessions[s].reader.Running?
    case CloseAtEnd(s) => s in st.sessions && (st.sessions[s].reader.Finished? || st.sessions[s].reader.Broken?)
  }

  /** `closeSession`: out of the map, channel closed; nothing when it is out already. */
  function Closing(x: Session): Session {
    if x.live then x.(live := false, chan := x.chan.(closed := true)) else x
  }

  /** What the read loop does to the session a relayed frame names. */
  function Received(x: Session, f: Frame): Session {
    var y := if x.live then x.(chan := Push(x.chan, f), lost := x.lost || |x.chan.buf| >= CAP) else x;
    if Terminal(f) then Closing(y) else y
  }

  /** The forwarder takes one frame and writes it; it ends after a terminal frame or a failed write. */
  function Forwarded(x: Session, ok: bool): Session
    requires x.chan.buf != []
  {
    var f := x.chan.buf[0];
    var y := x.(chan := x.chan.(buf := x.chan.buf[1..]));
    if !ok then y.(reader := Broken)
    else y.(cli := y.cli + [f], reader := if Terminal(f) then Finished else Running)
  }

  function Next(st: State, e: Event): State
    requires Can(st, e)
  {
    match e
    case Open(s) => st.(sessions := st.sessions[s := Session(true, Chan([], false), Idle, [], false, |st.read|)])
    case OpenSent(s, ok) =>
      var x := st.sessions[s];
      st.(sessions := st.sessions[s :=
        if ok then x.(reader := Running) else Closing(x.(reader := Refused, cli := [LOCAL_ERROR]))])
    case FromAgent(f) =>
      State(if Relayed(f) && f.session in st.sessions
            then st.sessions[f.session := Received(st.sessions[f.session], f)] else st.sessions,
            st.read + [f])
    case Forward(s, ok) => st.(sessions := st.sessions[s := Forwarded(st.sessions[s], ok)])
    case SeeClosed(s) => st.(sessions := st.sessions[s := st.sessions[s].(reader := Finished)])
    case Cancel(s) => st.(sessions := st.sessions[s := st.sessions[s].(reader := Broken)])
    case CloseAtEnd(s) => st.(sessions := st.sessions[s := Closing(st.sessions[s])])
  }

  predicate Runs(st: State, es: seq<Event>)
    decreases |es|
  {
    es == [] || (Can(st, es[0]) && Runs(Next(st, es[0]), es[1..]))
  }

  function Run(st: State, es: seq<Event>): State
    requires Runs(st, es)
    decreases |es|
  {
    if es == [] then st else Run(Next(st, es[0]), es[1..])
  }

  // ---------------------------------------------------------------- what the agent sent for a session

  function Sent(read: seq<Frame>, s: string): seq<Frame> {
    if read == [] then []
    else
      var f := read[|read| - 1];
      Sent(read[..|read| - 1], s) + if Relayed(f) && f.session == s then [f] else []
  }

  /** Everything up to and including the first terminal frame. */
  function UpToTerminal(fs: seq<Frame>): seq<Frame> {
    if fs == [] then []
    else if Terminal(fs[0]) then [fs[0]]
    else [fs[0]] + UpToTerminal(fs[1..])
  }

  /** `a` is `b` with some frames left out, order kept. */
  predicate Subseq(a: seq<Frame>, b: seq<Frame>)
    decreases |b|
  {
    if a == [] then true
    else if b == [] then false
    else
      || (a[|a| - 1] == b[|b| - 1] && Subseq(a[..|a| - 1], b[..|b| - 1]))
      || Subseq(a, b[..|b| - 1])
  }

  /** Only the last frame may be terminal. */
  predicate EndsOnce(fs: seq<Frame>) {
    forall i | 0 <= i < |fs| - 1 :: !Terminal(fs[i])
  }

  predicate EndsTerminal(fs: seq<Frame>) {
    fs != [] && Terminal(fs[|fs| - 1])
  }

  lemma SentSnoc(read: seq<Frame>, f: Frame, s: string)
    ensures Sent(read + [f], s) == Sent(read, s) + if Relayed(f) && f.session == s then [f] else []
  {
    assert (read + [f])[..|read|] == read;
  }

  lemma {:induction false} UpToTerminalSnoc(fs: seq<Frame>, f: Frame)
    ensures UpToTerminal(fs + [f]) == if EndsTerminal(UpToTerminal(fs)) then UpToTerminal(fs) else UpToTerminal(fs) + [f]
    ensures !EndsTerminal(UpToTerminal(fs)) ==> UpToTerminal(fs) == fs
    ensures EndsOnce(UpToTerminal(fs))
  {
    if fs == [] {
      assert [f][1..] == [];
    } else {
      UpToTerminalSnoc(fs[1..], f);
      assert (fs + [f])[1..] == fs[1..] + [f];
      assert [fs[0]] + fs[1..] == fs;
    }
  }

  lemma {:induction false} SubseqAll(a: seq<Frame>)
    ensures Subseq(a, a)
  {
    if a != [] {
      SubseqAll(a[..|a| - 1]);
    }
  }

  lemma SubseqGrows(a: seq<Frame>, b: seq<Frame>, f: Frame)
    requires Subseq(a, b)
    ensures Subseq(a, b + [f]) && Subseq(a + [f], b + [f])
  {
    assert (b + [f])[..|b|] == b && (a + [f])[..|a|] == a;
  }

  /** Dropping the tail, or one frame in the middle, keeps a subsequence. */
  lemma {:induction false} SubseqSkips(a: seq<Frame>, c: seq<Frame>, b: seq<Frame>, f: Frame)
    requires Subseq(a + [f] + c, b)
    ensures Subseq(a + c, b)
    decreases |b|, |c|
  {
    var all := a + [f] + c;
    if a + c != [] {
      if Subseq(all, b[..|b| - 1]) {
        SubseqSkips(a, c, b[..|b| - 1], f);
      } else if c == [] {
        assert all[..|all| - 1] == a;
        assert a + c == a;
      } else {
        var c' := c[..|c| - 1];
        assert all[..|all| - 1] == a + [f] + c';
        SubseqSkips(a, c', b[..|b| - 1], f);
        assert (a + c)[..|a + c| - 1] == a + c';
      }
    }
  }

  // ---------------------------------------------------------------- what every step keeps for a session

  /** The agent has sent its terminal frame since the session opened. */
  predicate Ended(since: seq<Frame>) {
    EndsTerminal(UpToTerminal(since))
  }

  predicate LinkInv(x: Session, since: seq<Frame>) {
    var through := x.cli + x.chan.buf;
    && Subseq(through, since) && EndsOnce(through)
    && (Ended(since) || x.reader.Finished? || x.reader.Broken? || x.live)
    && (x.live ==> !Ended(since))
    && (x.live <==> !x.chan.closed)
    && (x.reader.Idle? ==> x.cli == [])
    && (x.reader.Finished? ==> x.chan.buf == [] && Ended(since))
    && (!x.reader.Broken? ==>
          if x.lost then |through| < |UpToTerminal(since)| else through == UpToTerminal(since))
  }

  /** Relative to the frames `since` the agent sent for the session after it opened. */
  predicate SessionInv(x: Session, since: seq<Frame>) {
    if x.reader.Refused? then x.cli == [LOCAL_ERROR] else LinkInv(x, since)
  }

  lemma OpenInv(at: nat)
    ensures SessionInv(Session(true, Chan([], false), Idle, [], false, at), [])
  {
  }

  /** An unended run holds no terminal frame anywhere. */
  lemma {:induction false} SubseqOfUnended(a: seq<Frame>, b: seq<Frame>)
    requires Subseq(a, b) && (forall f | f in b :: !Terminal(f))
    ensures forall f | f in a :: !Terminal(f)
    decreases |b|
  {
    if a != [] {
      var b' := b[..|b| - 1];
      assert forall f | f in b' :: f in b;
      if Subseq(a, b') {
        SubseqOfUnended(a, b');
      } else {
        SubseqOfUnended(a[..|a| - 1], b');
        assert a == a[..|a| - 1] + [a[|a| - 1]];
      }
    }
  }

  lemma {:induction false} UnendedHasNoTerminal(fs: seq<Frame>)
    ensures !Ended(fs) ==> forall f | f in fs :: !Terminal(f)
  {
    if fs != [] {
      UnendedHasNoTerminal(fs[1..]);
      assert fs == [fs[0]] + fs[1..];
      if !Terminal(fs[0]) && Ended(fs[1..]) {
        var rest := UpToTerminal(fs[1..]);
        assert ([fs[0]] + rest)[|rest|] == rest[|rest| - 1];
      }
    }
  }

  lemma EndedSnoc(since: seq<Frame>, f: Frame)
    requires !Ended(since)
    ensures Ended(since + [f]) <==> Terminal(f)
  {
    UpToTerminalSnoc(since, f);
    UnendedHasNoTerminal(since);
  }

  /** A frame for a session that is out of the map changes nothing there. */
  lemma LateFrameKeeps(x: Session, f: Frame, since: seq<Frame>)
    requires LinkInv(x, since) && !x.live
    ensures LinkInv(Received(x, f), since + [f])
  {
    UpToTerminalSnoc(since, f);
    SubseqGrows(x.cli + x.chan.buf, since, f);
    hide Subseq, UpToTerminal, EndsOnce, Ended;
    assert Ended(since) ==> Ended(since + [f]) by {
      EndedStays(since, f);
    }
  }

  lemma EndedStays(since: seq<Frame>, f: Frame)
    ensures Ended(since) ==> Ended(since + [f]) && UpToTerminal(since + [f]) == UpToTerminal(since)
    ensures !Ended(since) ==> UpToTerminal(since + [f]) == UpToTerminal(since) + [f]
  {
    UpToTerminalSnoc(since, f);
  }

  lemma LiveHasNoTerminal(through: seq<Frame>, since: seq<Frame>, f: Frame)
    requires Subseq(through, since) && EndsOnce(through) && !Ended(since)
    ensures EndsOnce(through + [f])
  {
    UnendedHasNoTerminal(since);
    SubseqOfUnended(through, since);
  }

  lemma LiveFrameKeeps(x: Session, f: Frame, since: seq<Frame>)
    requires LinkInv(x, since) && x.live
    ensures LinkInv(Received(x, f), since + [f])
  {
    var through := x.cli + x.chan.buf;
    SubseqGrows(through, since, f);
    LiveHasNoTerminal(through, since, f);
    EndedSnoc(since, f);
    EndedStays(since, f);
    assert x.cli + (x.chan.buf + [f]) == through + [f];
    hide Subseq, UpToTerminal, EndsOnce, Ended, Terminal;
  }

  lemma ReceiveKeeps(x: Session, f: Frame, since: seq<Frame>)
    requires SessionInv(x, since)
    ensures SessionInv(Received(x, f), since + [f])
  {
    if !x.reader.Refused? {
      if x.live {
        LiveFrameKeeps(x, f, since);
      } else {
        LateFrameKeeps(x, f, since);
      }
    }
    hide LinkInv;
  }

  lemma ForwardKeeps(x: Session, ok: bool, since: seq<Frame>)
    requires LinkInv(x, since) && x.reader.Running? && x.chan.buf != []
    ensures LinkInv(Forwarded(x, ok), since)
  {
    var f, rest := x.chan.buf[0], x.chan.buf[1..];
    assert x.cli + x.chan.buf == x.cli + [f] + rest;
    if ok {
      assert x.cli + [f] + rest == (x.cli + [f]) + rest;
      if Terminal(f) {
        assert (x.cli + [f] + rest)[|x.cli|] == f;
        assert rest == [] && x.cli + x.chan.buf == x.cli + [f];
        TerminalEnds(x.cli + [f], since);
      }
    } else {
      SubseqSkips(x.cli, rest, since, f);
      WithoutOne(x.cli, f, rest);
    }
    hide Subseq, UpToTerminal, Ended;
  }

  lemma WithoutOne(a: seq<Frame>, f: Frame, c: seq<Frame>)
    requires EndsOnce(a + [f] + c)
    ensures EndsOnce(a + c)
  {
    forall i | 0 <= i < |a + c| - 1
      ensures !Terminal((a + c)[i])
    {
      assert (a + c)[i] == (a + [f] + c)[if i < |a| then i else i + 1];
    }
  }

  /** A terminal frame got through only if the agent sent one. */
  lemma TerminalEnds(through: seq<Frame>, since: seq<Frame>)
    requires Subseq(through, since) && EndsTerminal(through)
    ensures Ended(since)
  {
    UnendedHasNoTerminal(since);
    if !Ended(since) {
      SubseqOfUnended(through, since);
      assert false;
    }
  }

  // ---------------------------------------------------------------- every reachable state

  ghost predicate Inv(st: State) {
    forall s | s in st.sessions ::
      st.sessions[s].at <= |st.read| && SessionInv(st.sessions[s], Sent(st.read[st.sessions[s].at..], s))
  }

  lemma SentLater(read: seq<Frame>, f: Frame, at: nat, s: string)
    requires at <= |read|
    ensures Sent((read + [f])[at..], s) == Sent(read[at..], s) + if Relayed(f) && f.session == s then [f] else []
  {
    assert (read + [f])[at..] == read[at..] + [f];
    SentSnoc(read[at..], f, s);
  }

  lemma ReceivedAt(x: Session, f: Frame)
    ensures Received(x, f).at == x.at
  {
  }

  lemma AgentStepKeeps(st: State, f: Frame)
    requires Inv(st)
    ensures Inv(Next(st, FromAgent(f)))
  {
    var st' := Next(st, FromAgent(f));
    hide SessionInv, Sent, Received;
    forall s | s in st'.sessions
      ensures st'.sessions[s].at <= |st'.read| && SessionInv(st'.sessions[s], Sent(st'.read[st'.sessions[s].at..], s))
    {
      var x := st.sessions[s];
      ReceivedAt(x, f);
      SentLater(st.read, f, x.at, s);
      assert Sent(st.read[x.at..], s) + [] == Sent(st.read[x.at..], s);
      ReceiveKeeps(x, f, Sent(st.read[x.at..], s));
    }
  }

  /** The session a client-side event concerns, after the event. */
  lemma ClientStepKeeps(st: State, e: Event, s: string)
    requires Inv(st) && Can(st, e) && s in st.sessions
    requires e == Forward(s, true) || e == Forward(s, false) || e == SeeClosed(s) || e == Cancel(s) || e == CloseAtEnd(s) ||
             e == OpenSent(s, true) || e == OpenSent(s, false)
    ensures SessionInv(Next(st, e).sessions[s], Sent(st.read[st.sessions[s].at..], s))
  {
    var x, since := st.sessions[s], Sent(st.read[st.sessions[s].at..], s);
    assert SessionInv(x, since);
    if e.Forward? {
      ForwardKeeps(x, e.ok, since);
    }
    hide Subseq, UpToTerminal, EndsOnce, Ended, Sent;
  }

  lemma StepKeeps(st: State, e: Event)
    requires Inv(st) && Can(st, e)
    ensures Inv(Next(st, e))
  {
    if e.FromAgent? {
      AgentStepKeeps(st, e.f);
    } else if e.Open? {
      OpenInv(|st.read|);
      assert st.read[|st.read|..] == [];
      hide SessionInv;
    } else {
      ClientStepKeeps(st, e, e.s);
      hide SessionInv, Sent;
    }
  }

  lemma {:induction false} RunKeeps(st: State, es: seq<Event>)
    requires Inv(st) && Runs(st, es)
    ensures Inv(Run(st, es))
    decreases |es|
  {
    if es != [] {
      StepKeeps(st, es[0]);
      hide Inv, Next;
      RunKeeps(Next(st, es[0]), es[1..]);
    }
  }

  lemma {:induction false} SentSplit(a: seq<Frame>, b: seq<Frame>, s: string)
    ensures Sent(a + b, s) == Sent(a, s) + Sent(b, s)
    decreases |b|
  {
    if b == [] {
      assert a + b == a;
    } else {
      SentSplit(a, b[..|b| - 1], s);
      assert (a + b)[..|a + b| - 1] == a + b[..|b| - 1];
    }
  }

  lemma {:induction false} SubseqUnder(a: seq<Frame>, p: seq<Frame>, b: seq<Frame>)
    requires Subseq(a, b)
    ensures Subseq(a, p + b)
    decreases |b|
  {
    if a != [] {
      var b' := b[..|b| - 1];
      assert (p + b)[..|p + b| - 1] == p + b';
      if Subseq(a, b') {
        SubseqUnder(a, p, b');
      } else {
        SubseqUnder(a[..|a| - 1], p, b');
      }
    }
  }

  lemma SubseqFront(a: seq<Frame>, c: seq<Frame>, b: seq<Frame>)
    requires Subseq(a + c, b)
    ensures Subseq(a, b)
    decreases |c|
  {
    if c == [] {
      assert a + c == a;
    } else {
      var front, last := a + c[..|c| - 1], c[|c| - 1];
      assert front + [last] + [] == a + c && front + [] == front;
      SubseqSkips(front, [], b, last);
      SubseqFront(a, c[..|c| - 1], b);
    }
  }

  /**
   * In every run, what a client receives for its session is the agent's frames for that session in
   * order with some left out, at most one of them exit or error, and nothing after that one. The
   * exception is a session whose open frame never reached the agent: it gets one local error.
   */
  lemma ClientSeesSubsequence(es: seq<Event>, s: string)
    requires Runs(START, es) && s in Run(START, es).sessions
    ensures
      var st := Run(START, es);
      var x := st.sessions[s];
      if x.reader.Refused? then x.cli == [LOCAL_ERROR] else Subseq(x.cli, Sent(st.read, s)) && EndsOnce(x.cli)
  {
    RunKeeps(START, es);
    var st := Run(START, es);
    var x := st.sessions[s];
    assert SessionInv(x, Sent(st.read[x.at..], s));
    if !x.reader.Refused? {
      SubseqFront(x.cli, x.chan.buf, Sent(st.read[x.at..], s));
      SubseqUnder(x.cli, Sent(st.read[..x.at], s), Sent(st.read[x.at..], s));
      SentSplit(st.read[..x.at], st.read[x.at..], s);
      assert st.read[..x.at] + st.read[x.at..] == st.read;
      PrefixEndsOnce(x.cli, x.chan.buf);
    }
    hide Subseq, Sent, Run, Runs, UpToTerminal, Ended;
  }

  lemma PrefixEndsOnce(a: seq<Frame>, c: seq<Frame>)
    requires EndsOnce(a + c)
    ensures EndsOnce(a)
  {
    forall i | 0 <= i < |a| - 1
      ensures !Terminal(a[i])
    {
      assert (a + c)[i] == a[i];
    }
  }

  /**
   * Completeness: a forwarder that ran to its end has delivered everything the agent sent since the
   * open, up to and including the exit or error, if and only if no frame found the buffer full.
   */
  lemma CompleteIffNothingLost(es: seq<Event>, s: string)
    requires Runs(START, es) && s in Run(START, es).sessions && Run(START, es).sessions[s].reader.Finished?
    ensures
      var st := Run(START, es);
      var x := st.sessions[s];
      && x.at <= |st.read|
      && (x.cli == UpToTerminal(Sent(st.read[x.at..], s)) <==> !x.lost)
      && (!x.lost ==> EndsTerminal(x.cli))
  {
    RunKeeps(START, es);
    var x := Run(START, es).sessions[s];
    assert SessionInv(x, Sent(Run(START, es).read[x.at..], s));
    assert x.cli + [] == x.cli;
    hide Run, Runs, Sent, UpToTerminal, Subseq;
  }

  // ---------------------------------------------------------------- an exit that is lost

  /** The run is possible and ends in `t`. */
  predicate Leads(st: State, es: seq<Event>, t: State) {
    Runs(st, es) && Run(st, es) == t
  }

  lemma LeadsOne(st: State, e: Event)
    requires Can(st, e)
    ensures Leads(st, [e], Next(st, e))
  {
    var t := Next(st, e);
    assert [e][1..] == [];
    assert Runs(t, []) && Run(t, []) == t;
    hide Next, Can;
  }

  lemma {:induction false} LeadsOn(st: State, a: seq<Event>, mid: State, b: seq<Event>, t: State)
    requires Leads(st, a, mid) && Leads(mid, b, t)
    ensures Leads(st, a + b, t)
    decreases |a|
  {
    hide Next, Can;
    if a == [] {
      assert a + b == b;
    } else {
      assert (a + b)[1..] == a[1..] + b;
      LeadsOn(Next(st, a[0]), a[1..], mid, b, t);
    }
  }

  function One(s: string, x: Session, read: seq<Frame>): State {
    State(map[s := x], read)
  }

  predicate Output(s: string, fs: seq<Frame>) {
    forall f | f in fs :: Relayed(f) && !Terminal(f) && f.session == s
  }

  function FromAll(fs: seq<Frame>): seq<Event> {
    seq(|fs|, i requires 0 <= i < |fs| => FromAgent(fs[i]))
  }

  function ForwardMany(s: string, n: nat): seq<Event> {
    seq(n, _ => Forward(s, true))
  }

  /** A session nobody drains fills up. */
  lemma {:induction false} Fills(s: string, buf: seq<Frame>, read: seq<Frame>, fs: seq<Frame>)
    requires Output(s, fs) && |buf| + |fs| <= CAP
    ensures Leads(One(s, Session(true, Chan(buf, false), Running, [], false, 0), read), FromAll(fs),
                  One(s, Session(true, Chan(buf + fs, false), Running, [], false, 0), read + fs))
    decreases |fs|
  {
    var st := One(s, Session(true, Chan(buf, false), Running, [], false, 0), read);
    if fs == [] {
      assert buf + fs == buf && read + fs == read;
      assert FromAll(fs) == [];
    } else {
      var f, rest := fs[0], fs[1..];
      assert f in fs;
      LeadsOne(st, FromAgent(f));
      assert Next(st, FromAgent(f)) == One(s, Session(true, Chan(buf + [f], false), Running, [], false, 0), read + [f]);
      Fills(s, buf + [f], read + [f], rest);
      assert buf + [f] + rest == buf + fs && read + [f] + rest == read + fs;
      assert [FromAgent(f)] + FromAll(rest) == FromAll(fs);
      hide Leads;
      LeadsOn(st, [FromAgent(f)], Next(st, FromAgent(f)), FromAll(rest),
              One(s, Session(true, Chan(buf + fs, false), Running, [], false, 0), read + fs));
    }
  }

  /** Its forwarder writes what the closed channel still holds. */
  lemma {:induction false} Drains(s: string, buf: seq<Frame>, cli: seq<Frame>, read: seq<Frame>)
    requires Output(s, buf)
    ensures Leads(One(s, Session(false, Chan(buf, true), Running, cli, true, 0), read), ForwardMany(s, |buf|),
                  One(s, Session(false, Chan([], true), Running, cli + buf, true, 0), read))
    decreases |buf|
  {
    var st := One(s, Session(false, Chan(buf, true), Running, cli, true, 0), read);
    if buf == [] {
      assert cli + buf == cli;
      assert ForwardMany(s, 0) == [];
    } else {
      var f, rest := buf[0], buf[1..];
      assert f in buf;
      LeadsOne(st, Forward(s, true));
      assert Next(st, Forward(s, true)) == One(s, Session(false, Chan(rest, true), Running, cli + [f], true, 0), read);
      Drains(s, rest, cli + [f], read);
      assert cli + [f] + rest == cli + buf;
      assert [Forward(s, true)] + ForwardMany(s, |rest|) == ForwardMany(s, |buf|);
      hide Leads;
      LeadsOn(st, [Forward(s, true)], Next(st, Forward(s, true)), ForwardMany(s, |rest|),
              One(s, Session(false, Chan([], true), Running, cli + buf, true, 0), read));
    }
  }

  /** A full buffer of output, then the exit, and only then does the client read. */
  function LosingRun(s: string, frames: seq<Frame>, exit: Frame): seq<Event> {
    [Open(s), OpenSent(s, true)] + FromAll(frames) + [FromAgent(exit)] + ForwardMany(s, |frames|) + [SeeClosed(s)]
  }

  lemma Opens(s: string)
    ensures Leads(START, [Open(s), OpenSent(s, true)], One(s, Session(true, Chan([], false), Running, [], false, 0), []))
  {
    LeadsOne(START, Open(s));
    LeadsOne(Next(START, Open(s)), OpenSent(s, true));
    LeadsOn(START, [Open(s)], Next(START, Open(s)), [OpenSent(s, true)],
            One(s, Session(true, Chan([], false), Running, [], false, 0), []));
    assert [Open(s)] + [OpenSent(s, true)] == [Open(s), OpenSent(s, true)];
  }

  /** The run goes through. */
  lemma LosingRunRuns(s: string, frames: seq<Frame>, exit: Frame)
    requires |frames| == CAP && Output(s, frames) && Terminal(exit) && exit.session == s
    ensures Leads(START, LosingRun(s, frames, exit),
                  One(s, Session(false, Chan([], true), Finished, frames, true, 0), frames + [exit]))
  {
    var full := One(s, Session(true, Chan(frames, false), Running, [], false, 0), frames);
    var shut := One(s, Session(false, Chan(frames, true), Running, [], true, 0), frames + [exit]);
    var read := One(s, Session(false, Chan([], true), Running, frames, true, 0), frames + [exit]);
    var ended := One(s, Session(false, Chan([], true), Finished, frames, true, 0), frames + [exit]);
    assert Next(full, FromAgent(exit)) == shut && Next(read, SeeClosed(s)) == ended;
    LeadsOne(full, FromAgent(exit));
    LeadsOne(read, SeeClosed(s));
    hide Leads, Next, Output;
    Opens(s);
    Fills(s, [], [], frames);
    Drains(s, frames, [], frames + [exit]);
    assert [] + frames == frames;
    var a, b, c := [Open(s), OpenSent(s, true)], FromAll(frames), ForwardMany(s, |frames|);
    LeadsOn(START, a, One(s, Session(true, Chan([], false), Running, [], false, 0), []), b, full);
    LeadsOn(START, a + b, full, [FromAgent(exit)], shut);
    LeadsOn(START, a + b + [FromAgent(exit)], shut, c, read);
    LeadsOn(START, a + b + [FromAgent(exit)] + c, read, [SeeClosed(s)], ended);
  }

  /**
   * A client may see its session end without an exit: in a run from the start, one that arrives to a
   * full buffer is dropped, and the forwarder finishes with the output alone.
   */
  lemma ExitCanBeLost(s: string, frames: seq<Frame>, exit: Frame)
    requires |frames| == CAP && Output(s, frames) && Terminal(exit) && exit.session == s
    ensures
      var es := LosingRun(s, frames, exit);
      && Runs(START, es) && s in Run(START, es).sessions
      && var x := Run(START, es).sessions[s];
         x.reader.Finished? && x.cli == frames && !EndsTerminal(x.cli) && EndsTerminal(Run(START, es).read)
  {
    LosingRunRuns(s, frames, exit);
    hide Run, Runs, LosingRun;
    assert frames[|frames| - 1] in frames;
  }
}
