/**
 * The server's end of an agent control channel: the session map and its bounded channels, updated
 * in place, proved against the steps of the relay.
 */
module AgentControl {
  import opened Wrappers
  import opened AgentRelay

  /** What the relay records of a session's channel. */
  datatype Link = Link(live: bool, chan: Chan)

  function LinkOf(x: Session): Link {
    Link(x.live, x.chan)
  }

  function ClosedLink(l: Link): Link {
    if l.live then Link(false, l.chan.(closed := true)) else l
  }

  function ReceivedLink(l: Link, f: Frame): Link {
    var pushed := if l.live then l.(chan := Push(l.chan, f)) else l;
    if Terminal(f) then ClosedLink(pushed) else pushed
  }

  /** The methods below move a channel exactly as the relay's steps do. */
  lemma LinkSteps(x: Session, f: Frame)
    ensures LinkOf(Received(x, f)) == ReceivedLink(LinkOf(x), f)
    ensures LinkOf(Closing(x)) == ClosedLink(LinkOf(x))
  {
  }

  class FrameChan {
    var buf: seq<Frame>
    var closed: bool

    constructor ()
      ensures buf == [] && !closed
    {
      buf, closed := [], false;
    }

    /** A non-blocking send. */
    method TrySend(f: Frame) returns (sent: bool)
      modifies this`buf
      ensures sent <==> old(|buf|) < CAP
      ensures Chan(buf, closed) == Push(old(Chan(buf, closed)), f)
    {
      sent := |buf| < CAP;
      if sent {
        buf := buf + [f];
      }
    }
  }

  class AgentControlConn {
    var sessions: map<string, FrameChan>
    /** Every session ever opened here, for the specification. */
    ghost var all: map<string, FrameChan>

    constructor ()
      ensures Valid() && View() == map[]
    {
      sessions, all := map[], map[];
    }

    ghost function Chans(): set<object>
      reads this
    {
      set s | s in all :: all[s]
    }

    ghost predicate Valid()
      reads this, Chans()
    {
      && (forall s | s in sessions :: s in all && all[s] == sessions[s])
      && (forall s, t | s in all && t in all && s != t :: all[s] != all[t])
      && (forall s | s in all :: all[s].closed <==> s !in sessions)
    }

    ghost function View(): map<string, Link>
      reads this, Chans()
    {
      map s | s in all :: Link(s in sessions, Chan(all[s].buf, all[s].closed))
    }

    /** Session identifiers are fresh. */
    method OpenSession(s: string) returns (ch: FrameChan)
      requires Valid() && s !in all
      modifies this
      ensures Valid() && fresh(ch) && s in sessions && sessions[s] == ch
      ensures View() == old(View())[s := Link(true, Chan([], false))]
    {
      ch := new FrameChan();
      sessions, all := sessions[s := ch], all[s := ch];
    }

    /** Closes the channel and removes it; a second close finds nothing. */
    method CloseSession(s: string)
      requires Valid()
      modifies this`sessions, if s in sessions then {sessions[s]} else {}
      ensures Valid() && all == old(all)
      ensures View() == if s in old(View()) then old(View())[s := ClosedLink(old(View())[s])] else old(View())
    {
      if s in sessions {
        sessions[s].closed := true;
        sessions := sessions - {s};
      }
    }

    method Dispatch(f: Frame)
      requires Valid()
      modifies if f.session in sessions then {sessions[f.session]} else {}
      ensures Valid() && all == old(all) && sessions == old(sessions)
      ensures View() ==
        if f.session in old(sessions)
        then old(View())[f.session := Link(true, Push(old(View())[f.session].chan, f))]
        else old(View())
    {
      if f.session in sessions {
        var _ := sessions[f.session].TrySend(f);
      }
    }

    /** One turn of the agent read loop; `pong` asks for the heartbeat reply. */
    method HandleFrame(f: Frame) returns (pong: bool)
      requires Valid()
      modifies this`sessions, if f.session in sessions then {sessions[f.session]} else {}
      ensures Valid() && all == old(all) && (pong <==> f.kind.Ping?)
      ensures View() ==
        if Relayed(f) && f.session in old(View())
        then old(View())[f.session := ReceivedLink(old(View())[f.session], f)]
        else old(View())
    {
      pong := f.kind.Ping?;
      if Relayed(f) {
        Dispatch(f);
        if Terminal(f) {
          CloseSession(f.session);
        }
      }
    }
  }
}
