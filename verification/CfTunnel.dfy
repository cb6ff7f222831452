/**
 * The rewrite that moves hosts under Cloudflare Tunnel domains to their own entrypoint, as a
 * function on router maps, and what it preserves.
 *
 * `isTunnel` tells which hosts belong to a tunnel base domain; nothing is assumed about it.
 */
module CfTunnel {
  import opened Wrappers
  import opened HostRules

  const CF_ENTRYPOINT := "cftunnel"
  const WEBSECURE := "websecure"
  const SUFFIX := "_cf"

  datatype Tls = Tls(certResolver: string, domains: seq<string>)

  datatype Router = Router(
    rule: string, entryPoints: seq<string>, service: string,
    middlewares: seq<string>, tls: Option<Tls>, priority: int)

  type Routers = map<string, Router>
  type HostTest = string -> bool

  // ---------------------------------------------------------------- one router

  /** Hosts that pass the test, in order. */
  function Filter(hosts: seq<string>, test: HostTest): seq<string> {
    if hosts == [] then []
    else (if test(hosts[0]) then [hosts[0]] else []) + Filter(hosts[1..], test)
  }

  function Moved(hosts: seq<string>, isTunnel: HostTest): seq<string> {
    Filter(hosts, isTunnel)
  }

  function Kept(hosts: seq<string>, isTunnel: HostTest): seq<string> {
    Filter(hosts, h => !isTunnel(h))
  }

  function HostsOf(r: Router): seq<string> {
    match SplitRule(r.rule, false)
    case Some((hosts, _)) => hosts
    case None => []
  }

  function PathOf(r: Router): string {
    match SplitRule(r.rule, false)
    case Some((_, rest)) => rest
    case None => r.rule
  }

  /** The rule is a generated one with at least one tunnel host. */
  predicate Moves(r: Router, isTunnel: HostTest) {
    SplitRule(r.rule, false).Some? && Moved(HostsOf(r), isTunnel) != []
  }

  function Sibling(r: Router, isTunnel: HostTest): Router
    requires Moves(r, isTunnel)
  {
    r.(rule := MatchRule(Moved(HostsOf(r), isTunnel), false) + PathOf(r), entryPoints := [CF_ENTRYPOINT], tls := None)
  }

  function Retls(tls: Option<Tls>, hosts: seq<string>): Option<Tls> {
    match tls
    case None => None
    case Some(t) => Some(t.(domains := hosts))
  }

  /** What stays under the router's own name. */
  function Remainder(r: Router, isTunnel: HostTest): Option<Router> {
    if !Moves(r, isTunnel) then Some(r)
    else
      var acme := Kept(HostsOf(r), isTunnel);
      if acme == [] then None
      else Some(r.(rule := MatchRule(acme, false) + PathOf(r), tls := Retls(r.tls, acme)))
  }

  // ---------------------------------------------------------------- the loop over names

  function Put(m: Routers, name: string, r: Option<Router>): Routers {
    match r
    case Some(v) => m[name := v]
    case None => m - {name}
  }

  /** One round: the sibling is inserted first, then the router itself is narrowed or deleted. */
  function ProcessOne(m: Routers, name: string, isTunnel: HostTest): Routers {
    if name !in m || !Moves(m[name], isTunnel) then m
    else Put(m[name + SUFFIX := Sibling(m[name], isTunnel)], name, Remainder(m[name], isTunnel))
  }

  function ProcessAll(m: Routers, order: seq<string>, isTunnel: HostTest): Routers {
    if order == [] then m
    else ProcessOne(ProcessAll(m, order[..|order| - 1], isTunnel), order[|order| - 1], isTunnel)
  }

  /** `order` visits every name of the snapshot once. */
  ghost predicate Enumerates(order: seq<string>, names: set<string>) {
    && (forall n :: n in order <==> n in names)
    && (forall i, j | 0 <= i < j < |order| :: order[i] != order[j])
  }

  // ---------------------------------------------------------------- the rewrite as one function

  /** The router a sibling name was made from. */
  function BaseName(k: string): Option<string> {
    if |k| >= |SUFFIX| && k[|k| - |SUFFIX|..] == SUFFIX then Some(k[..|k| - |SUFFIX|]) else None
  }

  /** `k` names the sibling of a router among `done`. */
  predicate IsSibling(m: Routers, done: set<string>, k: string, isTunnel: HostTest) {
    var b := BaseName(k);
    b.Some? && b.value in m && b.value in done && Moves(m[b.value], isTunnel)
  }

  /** The map after the routers in `done` have been handled, whatever the order. */
  function After(m: Routers, done: set<string>, isTunnel: HostTest): Routers {
    map k | k in m.Keys + (set n | n in m :: n + SUFFIX) &&
            (IsSibling(m, done, k, isTunnel) || (k in m && (k in done ==> Remainder(m[k], isTunnel).Some?))) ::
      if IsSibling(m, done, k, isTunnel) then Sibling(m[BaseName(k).value], isTunnel)
      else if k in done then Remainder(m[k], isTunnel).value
      else m[k]
  }

  function RewriteAll(m: Routers, isTunnel: HostTest): Routers {
    After(m, m.Keys, isTunnel)
  }

  /** No router that gets a sibling has its sibling's name taken already. */
  predicate NoClash(m: Routers, isTunnel: HostTest) {
    forall n | n in m && Moves(m[n], isTunnel) :: n + SUFFIX !in m
  }

  ghost predicate OrderIndependent(m: Routers, isTunnel: HostTest) {
    forall a, b | Enumerates(a, m.Keys) && Enumerates(b, m.Keys) ::
      ProcessAll(m, a, isTunnel) == ProcessAll(m, b, isTunnel)
  }

  lemma BaseNameOfSibling(n: string)
    ensures BaseName(n + SUFFIX) == Some(n)
  {
    assert (n + SUFFIX)[|n|..] == SUFFIX;
    assert (n + SUFFIX)[..|n|] == n;
  }

  lemma SiblingOfBaseName(k: string)
    ensures BaseName(k).Some? ==> BaseName(k).value + SUFFIX == k
  {
  }

  /** Domain prefixes contain no underscore, so names made of them never clash. */
  lemma PlainNamesDoNotClash(m: Routers, isTunnel: HostTest)
    requires forall n | n in m :: '_' !in n
    ensures NoClash(m, isTunnel)
  {
    forall n | n in m
      ensures n + SUFFIX !in m
    {
      assert (n + SUFFIX)[|n|] == '_';
    }
  }

  // ---------------------------------------------------------------- splitting what was split

  lemma {:induction false} FilterFacts(hosts: seq<string>, test: HostTest)
    ensures forall h :: h in Filter(hosts, test) <==> h in hosts && test(h)
    ensures (forall h | h in hosts :: test(h)) ==> Filter(hosts, test) == hosts
    ensures (forall h | h in hosts :: !test(h)) ==> Filter(hosts, test) == []
  {
    if hosts != [] {
      FilterFacts(hosts[1..], test);
      assert hosts == [hosts[0]] + hosts[1..];
    }
  }

  /** A narrowed rule splits again into exactly the hosts it was narrowed to. */
  lemma NarrowedSplits(r: Router, hosts: seq<string>)
    requires SplitRule(r.rule, false).Some? && hosts != []
    requires forall h | h in hosts :: h in HostsOf(r)
    ensures SplitRule(MatchRule(hosts, false) + PathOf(r), false) == Some((hosts, PathOf(r)))
  {
    SplitSound(r.rule, false);
    assert Printable(hosts);
    SplitPrinted(hosts, false, PathOf(r));
  }

  lemma SiblingSplits(r: Router, isTunnel: HostTest)
    requires Moves(r, isTunnel)
    ensures
      var s := Sibling(r, isTunnel);
      SplitRule(s.rule, false) == Some((Moved(HostsOf(r), isTunnel), PathOf(r)))
  {
    FilterFacts(HostsOf(r), isTunnel);
    NarrowedSplits(r, Moved(HostsOf(r), isTunnel));
  }

  lemma RemainderSplits(r: Router, isTunnel: HostTest)
    requires Moves(r, isTunnel) && Remainder(r, isTunnel).Some?
    ensures
      var s := Remainder(r, isTunnel).value;
      SplitRule(s.rule, false) == Some((Kept(HostsOf(r), isTunnel), PathOf(r)))
  {
    FilterFacts(HostsOf(r), h => !isTunnel(h));
    NarrowedSplits(r, Kept(HostsOf(r), isTunnel));
  }

  /** Handling a sibling again would move it wholesale to a second suffix and delete it. */
  lemma SiblingMovesAgain(r: Router, isTunnel: HostTest)
    requires Moves(r, isTunnel)
    ensures Moves(Sibling(r, isTunnel), isTunnel) && Remainder(Sibling(r, isTunnel), isTunnel) == None
  {
    SiblingSplits(r, isTunnel);
    var hosts := Moved(HostsOf(r), isTunnel);
    FilterFacts(HostsOf(r), isTunnel);
    FilterFacts(hosts, isTunnel);
    FilterFacts(hosts, h => !isTunnel(h));
  }

  // ---------------------------------------------------------------- every order gives the same map

  lemma AfterNothing(m: Routers, isTunnel: HostTest)
    ensures After(m, {}, isTunnel) == m
  {
  }

  /** The map in the middle of the loop, name by name. */
  function AfterAt(m: Routers, done: set<string>, k: string, isTunnel: HostTest): Option<Router> {
    if IsSibling(m, done, k, isTunnel) then Some(Sibling(m[BaseName(k).value], isTunnel))
    else if k !in m then None
    else if k in done then Remainder(m[k], isTunnel)
    else Some(m[k])
  }

  function At(m: Routers, k: string): Option<Router> {
    if k in m then Some(m[k]) else None
  }

  lemma AfterIsAfterAt(m: Routers, done: set<string>, k: string, isTunnel: HostTest)
    ensures At(After(m, done, isTunnel), k) == AfterAt(m, done, k, isTunnel)
  {
    SiblingOfBaseName(k);
  }

  /** Handling one more router changes the entries of its own name and of its sibling's, nothing else. */
  lemma AfterAtOneMore(m: Routers, done: set<string>, name: string, k: string, isTunnel: HostTest)
    requires NoClash(m, isTunnel) && name in m && name !in done
    ensures AfterAt(m, done, name, isTunnel) == Some(m[name])
    ensures AfterAt(m, done + {name}, k, isTunnel) ==
            if k == name then Remainder(m[name], isTunnel)
            else if k == name + SUFFIX && Moves(m[name], isTunnel) then Some(Sibling(m[name], isTunnel))
            else AfterAt(m, done, k, isTunnel)
  {
    BaseNameOfSibling(name);
    SiblingOfBaseName(name);
    SiblingOfBaseName(k);
    hide Remainder, Sibling, BaseName;
  }

  lemma AfterOneMore(m: Routers, done: set<string>, name: string, isTunnel: HostTest)
    requires NoClash(m, isTunnel) && name in m && name !in done
    ensures ProcessOne(After(m, done, isTunnel), name, isTunnel) == After(m, done + {name}, isTunnel)
  {
    var cur, next := After(m, done, isTunnel), After(m, done + {name}, isTunnel);
    var got := ProcessOne(cur, name, isTunnel);
    AfterIsAfterAt(m, done, name, isTunnel);
    AfterAtOneMore(m, done, name, name, isTunnel);
    NothingMoves(m[name], isTunnel);
    hide After, AfterAt, Moves, Remainder, Sibling, NoClash;
    forall k
      ensures At(got, k) == At(next, k)
    {
      AfterIsAfterAt(m, done, k, isTunnel);
      AfterIsAfterAt(m, done + {name}, k, isTunnel);
      AfterAtOneMore(m, done, name, k, isTunnel);
    }
    SameMaps(got, next);
  }

  lemma SameMaps(a: Routers, b: Routers)
    requires forall k :: At(a, k) == At(b, k)
    ensures a == b
  {
    assert forall k :: k in a <==> At(a, k).Some?;
    assert forall k :: k in b <==> At(b, k).Some?;
    assert forall k | k in a :: a[k] == At(a, k).value == At(b, k).value == b[k];
  }

  lemma NothingMoves(r: Router, isTunnel: HostTest)
    ensures !Moves(r, isTunnel) ==> Remainder(r, isTunnel) == Some(r)
  {
  }

  function NameSet(order: seq<string>): set<string> {
    set n | n in order
  }

  lemma NameSetSnoc(order: seq<string>)
    requires order != []
    ensures NameSet(order) == NameSet(order[..|order| - 1]) + {order[|order| - 1]}
  {
    assert order == order[..|order| - 1] + [order[|order| - 1]];
  }

  lemma {:induction false} ProcessReachesAfter(m: Routers, order: seq<string>, isTunnel: HostTest)
    requires NoClash(m, isTunnel)
    requires forall i | 0 <= i < |order| :: order[i] in m
    requires forall i, j | 0 <= i < j < |order| :: order[i] != order[j]
    ensures ProcessAll(m, order, isTunnel) == After(m, NameSet(order), isTunnel)
    decreases |order|
  {
    hide After, ProcessOne, NoClash;
    if order == [] {
      AfterNothing(m, isTunnel);
      assert NameSet(order) == {};
    } else {
      var front, last := order[..|order| - 1], order[|order| - 1];
      ProcessReachesAfter(m, front, isTunnel);
      NameSetSnoc(order);
      assert last !in NameSet(front);
      hide NameSet;
      AfterOneMore(m, NameSet(front), last, isTunnel);
    }
  }

  /** Without a clash the in-place loop computes one fixed map, whatever order the names come in. */
  lemma RewriteIsOrderIndependent(m: Routers, order: seq<string>, isTunnel: HostTest)
    requires NoClash(m, isTunnel) && Enumerates(order, m.Keys)
    ensures ProcessAll(m, order, isTunnel) == RewriteAll(m, isTunnel)
  {
    ProcessReachesAfter(m, order, isTunnel);
    assert NameSet(order) == m.Keys;
  }

  // ---------------------------------------------------------------- a clash makes the order matter

  lemma {:induction false} OrderFor(names: set<string>) returns (order: seq<string>)
    ensures Enumerates(order, names)
    decreases |names|
  {
    if names == {} {
      order := [];
    } else {
      var n :| n in names;
      var rest := OrderFor(names - {n});
      order := rest + [n];
    }
  }

  lemma {:induction false} ProcessAppend(m: Routers, a: seq<string>, b: seq<string>, isTunnel: HostTest)
    ensures ProcessAll(m, a + b, isTunnel) == ProcessAll(ProcessAll(m, a, isTunnel), b, isTunnel)
    decreases |b|
  {
    if b == [] {
      assert a + b == a;
    } else {
      ProcessAppend(m, a, b[..|b| - 1], isTunnel);
      assert (a + b)[..|a + b| - 1] == a + b[..|b| - 1];
    }
  }

  /** `k` is neither visited nor the sibling name of a visited one. */
  predicate Spares(order: seq<string>, k: string) {
    forall n | n in order :: n != k && n + SUFFIX != k
  }

  /** A name that is neither visited nor the sibling of a visited name is left alone. */
  lemma {:induction false} ProcessLeaves(m: Routers, order: seq<string>, k: string, isTunnel: HostTest)
    requires Spares(order, k)
    ensures
      var m' := ProcessAll(m, order, isTunnel);
      (k in m' <==> k in m) && (k in m ==> m'[k] == m[k])
    decreases |order|
  {
    if order != [] {
      var front, last := order[..|order| - 1], order[|order| - 1];
      forall n | n in front
        ensures n != k && n + SUFFIX != k
      {
        assert n in order;
      }
      assert last in order;
      ProcessLeaves(m, front, k, isTunnel);
      hide Moves, Remainder, Sibling;
    }
  }

  /** Visiting the router first and its occupied sibling name next deletes that name. */
  lemma RouterFirst(m: Routers, n: string, isTunnel: HostTest)
    requires n in m && Moves(m[n], isTunnel)
    ensures n + SUFFIX !in ProcessOne(ProcessOne(m, n, isTunnel), n + SUFFIX, isTunnel)
  {
    SiblingMovesAgain(m[n], isTunnel);
    hide Moves, Remainder, Sibling;
  }

  /** The other way round the name survives with the new sibling. */
  lemma SiblingFirst(m: Routers, n: string, isTunnel: HostTest)
    requires n in m && Moves(m[n], isTunnel)
    ensures n + SUFFIX in ProcessOne(ProcessOne(m, n + SUFFIX, isTunnel), n, isTunnel)
  {
    var m1 := ProcessOne(m, n + SUFFIX, isTunnel);
    hide Moves, Remainder, Sibling;
    assert n in m1 && m1[n] == m[n];
  }

  /** Two orders with different results refute independence. */
  lemma Refuted(m: Routers, a: seq<string>, b: seq<string>, isTunnel: HostTest)
    requires Enumerates(a, m.Keys) && Enumerates(b, m.Keys)
    requires ProcessAll(m, a, isTunnel) != ProcessAll(m, b, isTunnel)
    ensures !OrderIndependent(m, isTunnel)
  {
    hide ProcessAll, Enumerates;
  }

  lemma OrdersDisagree(m: Routers, n: string, k: string, rest: seq<string>, isTunnel: HostTest)
    requires n in m && Moves(m[n], isTunnel) && k == n + SUFFIX && Spares(rest, k)
    ensures ProcessAll(m, [n, k] + rest, isTunnel) != ProcessAll(m, [k, n] + rest, isTunnel)
  {
    hide ProcessOne, ProcessAll, Moves, Spares;
    RouterFirst(m, n, isTunnel);
    SiblingFirst(m, n, isTunnel);
    ProcessPair(m, n, k, rest, k, isTunnel);
    ProcessPair(m, k, n, rest, k, isTunnel);
  }

  lemma OthersSpareSibling(order: seq<string>, names: set<string>, n: string)
    requires Enumerates(order, names - {n, n + SUFFIX})
    ensures Spares(order, n + SUFFIX)
  {
    SuffixInjective(order, n);
  }

  lemma ClashMatters(m: Routers, n: string, isTunnel: HostTest)
    requires n in m && Moves(m[n], isTunnel) && n + SUFFIX in m
    ensures !OrderIndependent(m, isTunnel)
  {
    hide Enumerates, ProcessAll, Moves, Spares, OrderIndependent;
    var k := n + SUFFIX;
    var rest := OrderFor(m.Keys - {n, k});
    OthersSpareSibling(rest, m.Keys, n);
    assert m.Keys - {k, n} == m.Keys - {n, k};
    PairFirst(n, k, rest, m.Keys);
    PairFirst(k, n, rest, m.Keys);
    OrdersDisagree(m, n, k, rest, isTunnel);
    Refuted(m, [n, k] + rest, [k, n] + rest, isTunnel);
  }

  lemma PairFirst(x: string, y: string, rest: seq<string>, names: set<string>)
    requires x in names && y in names && x != y && Enumerates(rest, names - {x, y})
    ensures Enumerates([x, y] + rest, names)
  {
    var order := [x, y] + rest;
    assert forall n :: n in order <==> n == x || n == y || n in rest;
    forall i, j | 0 <= i < j < |order|
      ensures order[i] != order[j]
    {
      if j >= 2 {
        assert order[j] == rest[j - 2] && rest[j - 2] in rest;
        if i >= 2 {
          assert order[i] == rest[i - 2];
        }
      }
    }
  }

  /** After the first two visits, the rest of the order does not touch `k`. */
  lemma ProcessPair(m: Routers, x: string, y: string, rest: seq<string>, k: string, isTunnel: HostTest)
    requires Spares(rest, k)
    ensures k in ProcessAll(m, [x, y] + rest, isTunnel) <==> k in ProcessOne(ProcessOne(m, x, isTunnel), y, isTunnel)
  {
    hide ProcessOne;
    ProcessAppend(m, [x, y], rest, isTunnel);
    ProcessTwo(m, x, y, isTunnel);
    hide ProcessAll;
    ProcessLeaves(ProcessAll(m, [x, y], isTunnel), rest, k, isTunnel);
  }

  lemma ProcessTwo(m: Routers, a: string, b: string, isTunnel: HostTest)
    ensures ProcessAll(m, [a, b], isTunnel) == ProcessOne(ProcessOne(m, a, isTunnel), b, isTunnel)
  {
    assert [a, b][..1] == [a];
    assert |[a][..0]| == 0;
    assert ProcessAll(m, [a], isTunnel) == ProcessOne(m, a, isTunnel);
  }

  lemma SuffixInjective(names: seq<string>, n: string)
    requires n !in names
    ensures forall x | x in names :: x + SUFFIX != n + SUFFIX
  {
    forall x | x in names
      ensures x + SUFFIX != n + SUFFIX
    {
      BaseNameOfSibling(x);
      BaseNameOfSibling(n);
    }
  }

  /** The result depends on the iteration order if and only if some sibling name is taken. */
  lemma OrderIndependentIffNoClash(m: Routers, isTunnel: HostTest)
    ensures OrderIndependent(m, isTunnel) <==> NoClash(m, isTunnel)
  {
    if NoClash(m, isTunnel) {
      forall a, b | Enumerates(a, m.Keys) && Enumerates(b, m.Keys)
        ensures ProcessAll(m, a, isTunnel) == ProcessAll(m, b, isTunnel)
      {
        RewriteIsOrderIndependent(m, a, isTunnel);
        RewriteIsOrderIndependent(m, b, isTunnel);
      }
    } else {
      var n :| n in m && Moves(m[n], isTunnel) && n + SUFFIX in m;
      ClashMatters(m, n, isTunnel);
    }
  }
}
