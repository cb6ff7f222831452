/**
 * The two connection registries of the server: tunnels by domain prefix, where the first
 * connection wins, and agent control channels by node, where the latest one wins.
 */
module Registries {
  import opened Wrappers
  import opened TunnelServer

  // ---------------------------------------------------------------- map rules

  /** Insert unless the key is taken. */
  function Claim<K, V>(m: map<K, V>, k: K, v: V): (map<K, V>, bool) {
    if k in m then (m, false) else (m[k := v], true)
  }

  /** Remove the key only while it still maps to this value. */
  function Release<K, V(==)>(m: map<K, V>, k: K, v: V): map<K, V> {
    if k in m && m[k] == v then m - {k} else m
  }

  // ---------------------------------------------------------------- the registries themselves

  class TunnelRegistry {
    var tunnels: map<string, TunnelConn>

    constructor ()
      ensures tunnels == map[]
    {
      tunnels := map[];
    }

    method Register(domain: string, tc: TunnelConn) returns (ok: bool)
      modifies this
      ensures ok <==> domain !in old(tunnels)
      ensures tunnels == if ok then old(tunnels)[domain := tc] else old(tunnels)
      ensures (tunnels, ok) == Claim(old(tunnels), domain, tc)
    {
      if domain in tunnels {
        return false;
      }
      tunnels := tunnels[domain := tc];
      ok := true;
    }

    method Unregister(domain: string, tc: TunnelConn)
      modifies this
      ensures tunnels == if domain in old(tunnels) && old(tunnels)[domain] == tc then old(tunnels) - {domain} else old(tunnels)
      ensures tunnels == Release(old(tunnels), domain, tc)
    {
      if domain in tunnels && tunnels[domain] == tc {
        tunnels := tunnels - {domain};
      }
    }

    method Get(domain: string) returns (tc: TunnelConn?)
      ensures tc == if domain in tunnels then tunnels[domain] else null
    {
      tc := if domain in tunnels then tunnels[domain] else null;
    }
  }

  class AgentControlChannel {
    const node: string
    var wsClosed: bool

    constructor (node: string)
      ensures this.node == node && !wsClosed
    {
      this.node := node;
      wsClosed := false;
    }
  }

  class AgentRegistry {
    var channels: map<string, AgentControlChannel>

    constructor ()
      ensures channels == map[]
    {
      channels := map[];
    }

    /** A node that reconnects displaces its older channel, whose socket is closed. */
    method Register(c: AgentControlChannel)
      modifies this, if c.node in channels then {channels[c.node]} else {}
      ensures channels == old(channels)[c.node := c]
      ensures c.node in old(channels) ==> old(channels)[c.node].wsClosed
    {
      if c.node in channels {
        channels[c.node].wsClosed := true;
      }
      channels := channels[c.node := c];
    }

    method Unregister(c: AgentControlChannel)
      modifies this
      ensures channels == Release(old(channels), c.node, c)
    {
      if c.node in channels && channels[c.node] == c {
        channels := channels - {c.node};
      }
    }
  }

  // ---------------------------------------------------------------- every interleaving: tunnels

  type ConnId = nat

  /** A connect handler: past the early check, registered, beaten to it, or finished. */
  datatype Stage = Checked | Refused | Registered | Lost | Gone

  datatype Tunnel = Tunnel(domain: string, stage: Stage)

  datatype TunnelState = TunnelState(tunnels: map<string, ConnId>, conns: map<ConnId, Tunnel>)

  datatype TunnelEvent =
    | Check(c: ConnId, domain: string)
    | TryRegister(c: ConnId)
    | Disconnect(c: ConnId)

  predicate TunnelCan(s: TunnelState, e: TunnelEvent) {
    match e
    case Check(c, _) => c !in s.conns
    case TryRegister(c) => c in s.conns && s.conns[c].stage == Checked
    case Disconnect(c) => c in s.conns && s.conns[c].stage == Registered
  }

  function TunnelNext(s: TunnelState, e: TunnelEvent): TunnelState
    requires TunnelCan(s, e)
  {
    match e
    case Check(c, domain) =>
      s.(conns := s.conns[c := Tunnel(domain, if domain in s.tunnels then Refused else Checked)])
    case TryRegister(c) =>
      var t := s.conns[c];
      var (tunnels, ok) := Claim(s.tunnels, t.domain, c);
      TunnelState(tunnels, s.conns[c := t.(stage := if ok then Registered else Lost)])
    case Disconnect(c) =>
      var t := s.conns[c];
      TunnelState(Release(s.tunnels, t.domain, c), s.conns[c := t.(stage := Gone)])
  }

  predicate TunnelRuns(s: TunnelState, es: seq<TunnelEvent>)
    decreases |es|
  {
    es == [] || (TunnelCan(s, es[0]) && TunnelRuns(TunnelNext(s, es[0]), es[1..]))
  }

  function TunnelRun(s: TunnelState, es: seq<TunnelEvent>): TunnelState
    requires TunnelRuns(s, es)
    decreases |es|
  {
    if es == [] then s else TunnelRun(TunnelNext(s, es[0]), es[1..])
  }

  const NO_TUNNELS := TunnelState(map[], map[])

  /** The registry entry of a domain is the one connection that registered it and has not left. */
  ghost predicate TracksLive(s: TunnelState) {
    && (forall c | c in s.conns && s.conns[c].stage == Registered ::
          s.conns[c].domain in s.tunnels && s.tunnels[s.conns[c].domain] == c)
    && (forall d | d in s.tunnels ::
          s.tunnels[d] in s.conns && s.conns[s.tunnels[d]] == Tunnel(d, Registered))
  }

  lemma {:induction false} TunnelRunTracksLive(s: TunnelState, es: seq<TunnelEvent>)
    requires TunnelRuns(s, es) && TracksLive(s)
    ensures TracksLive(TunnelRun(s, es))
    decreases |es|
  {
    if es != [] {
      TunnelRunTracksLive(TunnelNext(s, es[0]), es[1..]);
    }
  }

  /**
   * However connects and disconnects interleave, a domain maps to a connection exactly when that
   * connection is the live one; so at most one is live per domain, and the loser of a race never
   * evicts the winner.
   */
  lemma TunnelOwner(es: seq<TunnelEvent>, d: string, c: ConnId)
    requires TunnelRuns(NO_TUNNELS, es)
    ensures
      var s := TunnelRun(NO_TUNNELS, es);
      (d in s.tunnels && s.tunnels[d] == c) <==> (c in s.conns && s.conns[c] == Tunnel(d, Registered))
  {
    TunnelRunTracksLive(NO_TUNNELS, es);
  }

  /** A domain is held by a connection that registered it and has not left. */
  predicate Held(s: TunnelState, d: string) {
    exists c | c in s.conns :: s.conns[c] == Tunnel(d, Registered)
  }

  /**
   * In every reachable state: a connect handler passes the early check exactly when nobody holds its domain,
   * and one past the check registers exactly when nobody holds it by then; either way the other connections
   * stay as they are. A connection that leaves frees its domain.
   */
  lemma RegistersIffFree(es: seq<TunnelEvent>, c: ConnId, d: string)
    requires TunnelRuns(NO_TUNNELS, es)
    ensures
      var s := TunnelRun(NO_TUNNELS, es);
      && (TunnelCan(s, Check(c, d)) ==>
            TunnelNext(s, Check(c, d)).conns == s.conns[c := Tunnel(d, if Held(s, d) then Refused else Checked)])
      && (TunnelCan(s, TryRegister(c)) && s.conns[c].domain == d ==>
            TunnelNext(s, TryRegister(c)).conns == s.conns[c := Tunnel(d, if Held(s, d) then Lost else Registered)])
      && (TunnelCan(s, Disconnect(c)) && s.conns[c].domain == d ==> !Held(TunnelNext(s, Disconnect(c)), d))
  {
    TunnelRunTracksLive(NO_TUNNELS, es);
    hide TunnelRun, TunnelRuns;
  }

  /** Two connects for one domain may both pass the early check; the first to register has it until it leaves. */
  lemma RaceRuns(d: string, a: ConnId, b: ConnId)
    requires a != b
    ensures
      var race := [Check(a, d), Check(b, d), TryRegister(a), TryRegister(b)];
      && TunnelRuns(NO_TUNNELS, race)
      && TunnelRun(NO_TUNNELS, race) == TunnelState(map[d := a], map[a := Tunnel(d, Registered), b := Tunnel(d, Lost)])
  {
    var s1 := TunnelNext(NO_TUNNELS, Check(a, d));
    var s2 := TunnelNext(s1, Check(b, d));
    var s3 := TunnelNext(s2, TryRegister(a));
    var s4 := TunnelNext(s3, TryRegister(b));
    assert s4 == TunnelState(map[d := a], map[a := Tunnel(d, Registered), b := Tunnel(d, Lost)]);
    assert TunnelCan(NO_TUNNELS, Check(a, d)) && TunnelCan(s1, Check(b, d));
    assert TunnelCan(s2, TryRegister(a)) && TunnelCan(s3, TryRegister(b));
    hide TunnelNext, TunnelCan;
    var race := [Check(a, d), Check(b, d), TryRegister(a), TryRegister(b)];
    assert race[1..] == [Check(b, d), TryRegister(a), TryRegister(b)];
    assert race[1..][1..] == [TryRegister(a), TryRegister(b)];
    assert race[1..][1..][1..] == [TryRegister(b)] && [TryRegister(b)][1..] == [];
    assert TunnelRuns(s4, []) && TunnelRun(s4, []) == s4;
    assert TunnelRuns(s3, [TryRegister(b)]) && TunnelRun(s3, [TryRegister(b)]) == s4;
    assert TunnelRuns(s2, race[1..][1..]) && TunnelRun(s2, race[1..][1..]) == s4;
    assert TunnelRuns(s1, race[1..]) && TunnelRun(s1, race[1..]) == s4;
  }

  // ---------------------------------------------------------------- every interleaving: agents

  /** `joined` is the history of registrations in order; `left` those whose handler returned. */
  datatype AgentState = AgentState(
    channels: map<string, ConnId>, node: map<ConnId, string>,
    joined: seq<ConnId>, left: set<ConnId>, cut: set<ConnId>)

  datatype AgentEvent = Join(c: ConnId, n: string) | Leave(c: ConnId)

  const NO_AGENTS := AgentState(map[], map[], [], {}, {})

  predicate AgentCan(s: AgentState, e: AgentEvent) {
    match e
    case Join(c, _) => c !in s.node
    case Leave(c) => c in s.node && c !in s.left
  }

  function AgentNext(s: AgentState, e: AgentEvent): AgentState
    requires AgentCan(s, e)
  {
    match e
    case Join(c, n) =>
      AgentState(s.channels[n := c], s.node[c := n], s.joined + [c], s.left,
                 if n in s.channels then s.cut + {s.channels[n]} else s.cut)
    case Leave(c) => s.(channels := Release(s.channels, s.node[c], c), left := s.left + {c})
  }

  predicate AgentRuns(s: AgentState, es: seq<AgentEvent>)
    decreases |es|
  {
    es == [] || (AgentCan(s, es[0]) && AgentRuns(AgentNext(s, es[0]), es[1..]))
  }

  function AgentRun(s: AgentState, es: seq<AgentEvent>): AgentState
    requires AgentRuns(s, es)
    decreases |es|
  {
    if es == [] then s else AgentRun(AgentNext(s, es[0]), es[1..])
  }

  /** The last channel to register for node `n`. */
  function Latest(joined: seq<ConnId>, node: map<ConnId, string>, n: string): Option<ConnId> {
    if joined == [] then None
    else
      var c := joined[|joined| - 1];
      if c in node && node[c] == n then Some(c) else Latest(joined[..|joined| - 1], node, n)
  }

  ghost predicate FollowsLatest(s: AgentState) {
    && (forall c :: c in s.joined <==> c in s.node)
    && s.left <= s.node.Keys
    && (forall n, c :: (n in s.channels && s.channels[n] == c) <==> (Latest(s.joined, s.node, n) == Some(c) && c !in s.left))
    && CutsOlder(s)
  }

  /** Exactly older channels have had their socket closed, all of those still running among them. */
  ghost predicate CutsOlder(s: AgentState) {
    && (forall c | c in s.node && c !in s.left :: Latest(s.joined, s.node, s.node[c]) != Some(c) ==> c in s.cut)
    && (forall c | c in s.cut :: c in s.node && Latest(s.joined, s.node, s.node[c]) != Some(c))
  }

  lemma {:induction false} LatestIgnoresStrangers(joined: seq<ConnId>, node: map<ConnId, string>, n: string, c: ConnId, m: string)
    requires c !in joined
    ensures Latest(joined, node[c := m], n) == Latest(joined, node, n)
  {
    if joined != [] {
      LatestIgnoresStrangers(joined[..|joined| - 1], node, n, c, m);
    }
  }

  lemma {:induction false} LatestIsJoined(joined: seq<ConnId>, node: map<ConnId, string>, n: string)
    ensures Latest(joined, node, n).Some? ==>
              var c := Latest(joined, node, n).value;
              c in joined && c in node && node[c] == n
    ensures Latest(joined, node, n).None? ==> forall c | c in joined && c in node :: node[c] != n
  {
    if joined != [] {
      LatestIsJoined(joined[..|joined| - 1], node, n);
    }
  }

  lemma JoinMovesLatest(s: AgentState, c: ConnId, n: string)
    requires AgentCan(s, Join(c, n)) && forall c :: c in s.joined <==> c in s.node
    ensures
      var s' := AgentNext(s, Join(c, n));
      forall m :: Latest(s'.joined, s'.node, m) == if m == n then Some(c) else Latest(s.joined, s.node, m)
  {
    var s' := AgentNext(s, Join(c, n));
    assert s'.joined[..|s'.joined| - 1] == s.joined;
    forall m
      ensures Latest(s'.joined, s'.node, m) == if m == n then Some(c) else Latest(s.joined, s.node, m)
    {
      LatestIgnoresStrangers(s.joined, s.node, m, c, n);
    }
  }

  lemma JoinCutsOlder(s: AgentState, c: ConnId, n: string)
    requires AgentCan(s, Join(c, n)) && FollowsLatest(s)
    ensures CutsOlder(AgentNext(s, Join(c, n)))
  {
    JoinMovesLatest(s, c, n);
    LatestIsJoined(s.joined, s.node, n);
    hide Latest;
  }

  lemma JoinFollowsLatest(s: AgentState, c: ConnId, n: string)
    requires AgentCan(s, Join(c, n)) && FollowsLatest(s)
    ensures FollowsLatest(AgentNext(s, Join(c, n)))
  {
    JoinMovesLatest(s, c, n);
    JoinCutsOlder(s, c, n);
    LatestIsJoined(s.joined, s.node, n);
    hide Latest, CutsOlder;
  }

  lemma LeaveFollowsLatest(s: AgentState, c: ConnId)
    requires AgentCan(s, Leave(c)) && FollowsLatest(s)
    ensures FollowsLatest(AgentNext(s, Leave(c)))
  {
    forall m {
      LatestIsJoined(s.joined, s.node, m);
    }
  }

  lemma {:induction false} AgentRunFollowsLatest(s: AgentState, es: seq<AgentEvent>)
    requires AgentRuns(s, es) && FollowsLatest(s)
    ensures FollowsLatest(AgentRun(s, es))
    decreases |es|
  {
    if es != [] {
      match es[0] {
        case Join(c, n) => JoinFollowsLatest(s, c, n);
        case Leave(c) => LeaveFollowsLatest(s, c);
      }
      hide FollowsLatest;
      AgentRunFollowsLatest(AgentNext(s, es[0]), es[1..]);
    }
  }

  /**
   * A node's entry is its most recently registered channel, as long as that channel's handler is
   * running; the deferred unregister of an older channel changes nothing, every older channel still
   * running has had its socket closed, and only older channels have.
   */
  lemma AgentOwner(es: seq<AgentEvent>, n: string, c: ConnId)
    requires AgentRuns(NO_AGENTS, es)
    ensures
      var s := AgentRun(NO_AGENTS, es);
      && ((n in s.channels && s.channels[n] == c) <==> (Latest(s.joined, s.node, n) == Some(c) && c !in s.left))
      && (AgentCan(s, Leave(c)) && Latest(s.joined, s.node, s.node[c]) != Some(c) ==>
            AgentNext(s, Leave(c)).channels == s.channels && c in s.cut)
      && (c in s.cut ==> c in s.node && Latest(s.joined, s.node, s.node[c]) != Some(c))
  {
    AgentRunFollowsLatest(NO_AGENTS, es);
  }

  /** A node that reconnects: the newer channel takes over, and the older one's leaving changes nothing. */
  lemma ReconnectRuns(n: string, a: ConnId, b: ConnId)
    requires a != b
    ensures
      var run := [Join(a, n), Join(b, n), Leave(a)];
      && AgentRuns(NO_AGENTS, run)
      && AgentRun(NO_AGENTS, run) == AgentState(map[n := b], map[a := n, b := n], [a, b], {a}, {a})
  {
    var s1 := AgentNext(NO_AGENTS, Join(a, n));
    var s2 := AgentNext(s1, Join(b, n));
    var s3 := AgentNext(s2, Leave(a));
    assert s3 == AgentState(map[n := b], map[a := n, b := n], [a, b], {a}, {a});
    assert AgentCan(NO_AGENTS, Join(a, n)) && AgentCan(s1, Join(b, n)) && AgentCan(s2, Leave(a));
    hide AgentNext, AgentCan;
    var run := [Join(a, n), Join(b, n), Leave(a)];
    assert run[1..] == [Join(b, n), Leave(a)] && run[1..][1..] == [Leave(a)] && [Leave(a)][1..] == [];
    assert AgentRuns(s3, []) && AgentRun(s3, []) == s3;
    assert AgentRuns(s2, [Leave(a)]) && AgentRun(s2, [Leave(a)]) == s3;
    assert AgentRuns(s1, run[1..]) && AgentRun(s1, run[1..]) == s3;
  }
}
