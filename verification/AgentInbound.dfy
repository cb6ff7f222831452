/**
 * The agent's side of a session: the session map, and what client frames do to the subprocess
 * behind it. A session is registered before the next frame is read, so input that follows the open
 * frame is never lost for want of a session.
 */
module AgentInbound {
  import opened Wrappers
  import opened AgentRelay

  datatype Job = ExecJob | UploadJob | DownloadJob

  /** A subprocess as the agent drives it; a stopped or ended one takes no more input. */
  datatype Proc = Proc(job: Job, input: Bytes, accepts: bool, stopped: bool)

  function Started(job: Job): Proc {
    Proc(job, [], !job.DownloadJob?, false)
  }

  function Fed(p: Proc, data: Bytes): Proc {
    if p.accepts then p.(input := p.input + data) else p
  }

  /** One frame for the subprocess it names. */
  function Driven(p: Proc, f: Frame): Proc {
    match f.kind
    case Stdio => if p.job.ExecJob? then Fed(p, f.data) else p
    case CpUpTar => if p.job.UploadJob? then Fed(p, f.data) else p
    case CpEnd => if p.job.UploadJob? then p.(accepts := false) else p
    case Close => p.(accepts := false, stopped := true)
    case _ => p
  }

  type Procs = map<string, Proc>

  /** A session is registered, its subprocess has ended, or a client frame other than an open arrives. */
  datatype Event = Registered(s: string, job: Job) | Ended(s: string) | Arrived(f: Frame)

  function Handled(m: Procs, e: Event): Procs {
    match e
    case Registered(s, job) => m[s := Started(job)]
    case Ended(s) => m - {s}
    case Arrived(f) => if f.session in m then m[f.session := Driven(m[f.session], f)] else m
  }

  function HandledAll(m: Procs, es: seq<Event>): Procs {
    if es == [] then m else Handled(HandledAll(m, es[..|es| - 1]), es[|es| - 1])
  }

  class Subprocess {
    const job: Job
    var input: Bytes
    var accepts: bool
    var stopped: bool

    constructor (job: Job)
      ensures this.job == job && Value() == Started(job)
    {
      this.job, input, accepts, stopped := job, [], !job.DownloadJob?, false;
    }

    function Value(): Proc
      reads this
    {
      Proc(job, input, accepts, stopped)
    }

    method Feed(data: Bytes)
      modifies this
      ensures Value() == Fed(old(Value()), data)
    {
      if accepts {
        input := input + data;
      }
    }

    method Drive(f: Frame)
      modifies this
      ensures Value() == Driven(old(Value()), f)
    {
      match f.kind
      case Stdio => if job.ExecJob? { Feed(f.data); }
      case CpUpTar => if job.UploadJob? { Feed(f.data); }
      case CpEnd => if job.UploadJob? { accepts := false; }
      case Close => Stop();
      case _ =>
    }

    method Stop()
      modifies this
      ensures Value() == old(Value()).(accepts := false, stopped := true)
    {
      accepts, stopped := false, true;
    }
  }

  class SpikeAgent {
    var sessions: map<string, Subprocess>

    constructor ()
      ensures Valid() && View() == map[]
    {
      sessions := map[];
    }

    ghost function Owned(): set<Subprocess>
      reads this
    {
      set s | s in sessions :: sessions[s]
    }

    ghost predicate Valid()
      reads this
    {
      forall s, t | s in sessions && t in sessions && s != t :: sessions[s] != sessions[t]
    }

    ghost function View(): Procs
      reads this, Owned()
    {
      map s | s in sessions :: sessions[s].Value()
    }

    /** The subprocess has started: its session exists before the next frame is read. */
    method Set(s: string, job: Job)
      requires Valid()
      modifies this
      ensures Valid() && View() == Handled(old(View()), Registered(s, job))
    {
      var p := new Subprocess(job);
      sessions := sessions[s := p];
    }

    /** The subprocess has ended. */
    method Drop(s: string)
      requires Valid()
      modifies this
      ensures Valid() && View() == Handled(old(View()), Ended(s))
    {
      sessions := sessions - {s};
    }

    /** One client frame other than an open; a frame without a session is ignored. */
    method HandleFrame(f: Frame)
      requires Valid()
      modifies if f.session in sessions then {sessions[f.session]} else {}
      ensures Valid() && sessions == old(sessions) && View() == Handled(old(View()), Arrived(f))
    {
      if f.session !in sessions {
        return;
      }
      hide Driven;
      sessions[f.session].Drive(f);
    }
  }

  // ---------------------------------------------------------------- what reaches the subprocess

  /** The frame that carries input for a kind of job. */
  predicate Feeds(f: Frame, s: string, job: Job) {
    f.session == s && ((job.ExecJob? && f.kind.Stdio?) || (job.UploadJob? && f.kind.CpUpTar?))
  }

  /** The frame that ends the input. */
  predicate EndsInput(f: Frame, s: string, job: Job) {
    f.session == s && (f.kind.Close? || (job.UploadJob? && f.kind.CpEnd?))
  }

  /** The input a client sent: its payloads in order, until it ended the input. */
  function InputOf(fs: seq<Frame>, s: string, job: Job): Bytes {
    if fs == [] then []
    else if EndsInput(fs[0], s, job) then []
    else (if Feeds(fs[0], s, job) then fs[0].data else []) + InputOf(fs[1..], s, job)
  }

  /** Since its last registration and before any end of it: the job and every client frame read. */
  function Since(es: seq<Event>, s: string): Option<(Job, seq<Frame>)> {
    if es == [] then None
    else
      var was := Since(es[..|es| - 1], s);
      match es[|es| - 1]
      case Registered(t, job) => if t == s then Some((job, [])) else was
      case Ended(t) => if t == s then None else was
      case Arrived(f) => if was.Some? then Some((was.value.0, was.value.1 + [f])) else was
  }

  predicate InputEnded(fs: seq<Frame>, s: string, job: Job) {
    exists f | f in fs :: EndsInput(f, s, job)
  }

  lemma InputEndedParts(a: seq<Frame>, b: seq<Frame>, s: string, job: Job)
    ensures InputEnded(a + b, s, job) <==> InputEnded(a, s, job) || InputEnded(b, s, job)
  {
    hide EndsInput;
  }

  lemma InputEndedOne(f: Frame, s: string, job: Job)
    ensures InputEnded([f], s, job) <==> EndsInput(f, s, job)
  {
    assert f in [f];
    hide EndsInput;
  }

  lemma {:induction false} InputOfSnoc(fs: seq<Frame>, f: Frame, s: string, job: Job)
    ensures InputOf(fs + [f], s, job) ==
            InputOf(fs, s, job) + if !InputEnded(fs, s, job) && !EndsInput(f, s, job) && Feeds(f, s, job) then f.data else []
    decreases |fs|
  {
    hide Feeds, EndsInput, InputEnded;
    if fs == [] {
      assert [f][1..] == [] && [] + [f] == [f];
      assert InputOf([], s, job) == [];
      InputEndedNone(s, job);
    } else {
      assert (fs + [f])[1..] == fs[1..] + [f];
      InputOfSnoc(fs[1..], f, s, job);
      assert fs == [fs[0]] + fs[1..];
      InputEndedParts([fs[0]], fs[1..], s, job);
      InputEndedOne(fs[0], s, job);
    }
  }

  lemma InputEndedNone(s: string, job: Job)
    ensures !InputEnded([], s, job)
  {
  }

  /** What a subprocess is, from the frames since it was registered. */
  predicate Matches(p: Proc, job: Job, fs: seq<Frame>, s: string) {
    && p.job == job && p.input == InputOf(fs, s, job)
    && (p.accepts <==> !job.DownloadJob? && !InputEnded(fs, s, job))
    && (p.stopped <==> exists f | f in fs :: f.session == s && f.kind.Close?)
  }

  lemma DrivenMatches(p: Proc, job: Job, fs: seq<Frame>, s: string, f: Frame)
    requires Matches(p, job, fs, s)
    ensures Matches(if f.session == s then Driven(p, f) else p, job, fs + [f], s)
  {
    InputOfSnoc(fs, f, s, job);
    InputEndedParts(fs, [f], s, job);
    InputEndedOne(f, s, job);
    hide InputOf, InputEnded;
  }

  /**
   * Whatever sessions come, go and send in between: a session is registered exactly when it was and has
   * not ended since, and its subprocess has received exactly the payloads its client sent since then, in
   * order, up to the client's end of input, and has been stopped exactly when its client said so.
   */
  lemma {:induction false} InputArrives(es: seq<Event>, s: string)
    ensures
      var m, since := HandledAll(map[], es), Since(es, s);
      && (s in m <==> since.Some?)
      && (since.Some? ==> Matches(m[s], since.value.0, since.value.1, s))
    decreases |es|
  {
    if es != [] {
      var front, e := es[..|es| - 1], es[|es| - 1];
      InputArrives(front, s);
      if e.Arrived? && Since(front, s).Some? {
        DrivenMatches(HandledAll(map[], front)[s], Since(front, s).value.0, Since(front, s).value.1, s, e.f);
      }
      hide Driven, InputOf;
    }
  }
}
