/**
 * Host ports reported by deploy agents: ambiguous reports are silenced in place before they are
 * sent, and the server folds what is left into the running deployments' rows, keyed by prefix.
 */
module HostPorts {
  datatype Status = Status(prefix: string, restarts: int, oom: bool, port: int)

  /** How many containers carry a prefix. */
  function Count(batch: seq<Status>, p: string): nat {
    if batch == [] then 0
    else Count(batch[..|batch| - 1], p) + if batch[|batch| - 1].prefix == p then 1 else 0
  }

  function Silenced(s: Status, times: nat): Status {
    if times > 1 then s.(port := 0) else s
  }

  function Suppressed(batch: seq<Status>): seq<Status> {
    seq(|batch|, i requires 0 <= i < |batch| => Silenced(batch[i], Count(batch, batch[i].prefix)))
  }

  // ---------------------------------------------------------------- the agent

  method CountPrefixes(a: array<Status>) returns (counts: map<string, nat>)
    ensures forall p :: (if p in counts then counts[p] else 0) == Count(a[..], p)
  {
    counts := map[];
    for i := 0 to a.Length
      invariant forall p :: (if p in counts then counts[p] else 0) == Count(a[..i], p)
    {
      var p := a[i].prefix;
      assert a[..i + 1][..i] == a[..i];
      counts := counts[p := (if p in counts then counts[p] else 0) + 1];
    }
    assert a[..a.Length] == a[..];
  }

  /** `suppressAmbiguousHostPorts` */
  method SuppressAmbiguousHostPorts(a: array<Status>)
    modifies a
    ensures a[..] == Suppressed(old(a[..]))
  {
    ghost var batch := a[..];
    var counts := CountPrefixes(a);
    for i := 0 to a.Length
      invariant forall j | 0 <= j < i :: a[j] == Suppressed(batch)[j]
      invariant forall j | i <= j < a.Length :: a[j] == batch[j]
    {
      var p := a[i].prefix;
      var times := if p in counts then counts[p] else 0;
      assert times == Count(batch, batch[i].prefix);
      if times > 1 {
        a[i] := a[i].(port := 0);
      }
    }
  }

  // ---------------------------------------------------------------- the server

  datatype Row = Row(restarts: int, oom: bool, port: int)

  /** The running deployment of each prefix; an update for any other prefix touches nothing. */
  type Rows = map<string, Row>

  function Applied(rows: Rows, s: Status): Rows {
    if s.prefix !in rows then rows
    else
      var row := rows[s.prefix].(restarts := s.restarts, oom := s.oom);
      rows[s.prefix := if s.port > 0 then row.(port := s.port) else row]
  }

  function Fold(rows: Rows, batch: seq<Status>): (after: Rows)
    ensures after.Keys == rows.Keys
  {
    if batch == [] then rows else Applied(Fold(rows, batch[..|batch| - 1]), batch[|batch| - 1])
  }

  class Deployments {
    var rows: Rows

    constructor (rows: Rows)
      ensures this.rows == rows
    {
      this.rows := rows;
    }

    method UpdateRuntimeStatus(p: string, restarts: int, oom: bool)
      modifies this
      ensures rows == if p in old(rows) then old(rows)[p := old(rows)[p].(restarts := restarts, oom := oom)] else old(rows)
    {
      if p in rows {
        rows := rows[p := rows[p].(restarts := restarts, oom := oom)];
      }
    }

    method UpdateHostPort(p: string, port: int)
      modifies this
      ensures rows == if p in old(rows) then old(rows)[p := old(rows)[p].(port := port)] else old(rows)
    {
      if p in rows {
        rows := rows[p := rows[p].(port := port)];
      }
    }

    method HandleContainerStatuses(batch: seq<Status>)
      modifies this
      ensures rows == Fold(old(rows), batch)
    {
      for i := 0 to |batch|
        invariant rows == Fold(old(rows), batch[..i])
      {
        var s := batch[i];
        assert batch[..i + 1][..i] == batch[..i];
        UpdateRuntimeStatus(s.prefix, s.restarts, s.oom);
        if s.port > 0 {
          UpdateHostPort(s.prefix, s.port);
        }
      }
      assert batch[..|batch|] == batch;
    }
  }

  // ---------------------------------------------------------------- which port ends up stored

  /** The last positive port reported for a prefix, if any. */
  function LastPort(batch: seq<Status>, p: string): int {
    if batch == [] then 0
    else
      var s := batch[|batch| - 1];
      if s.prefix == p && s.port > 0 then s.port else LastPort(batch[..|batch| - 1], p)
  }

  lemma {:induction false} FoldStoresLast(rows: Rows, batch: seq<Status>, p: string)
    requires p in rows
    ensures Fold(rows, batch)[p].port == if LastPort(batch, p) > 0 then LastPort(batch, p) else rows[p].port
  {
    if batch != [] {
      FoldStoresLast(rows, batch[..|batch| - 1], p);
    }
  }

  lemma {:induction false} CountFindsCarriers(batch: seq<Status>, p: string)
    ensures Count(batch, p) > 0 <==> exists s | s in batch :: s.prefix == p
  {
    if batch != [] {
      CountFindsCarriers(batch[..|batch| - 1], p);
      if s :| s in batch[..|batch| - 1] && s.prefix == p {
        assert s in batch;
      }
    }
  }

  /** One carrier only: every index holding the prefix is the same one. */
  lemma {:induction false} CarrierIsUnique(batch: seq<Status>, p: string, i: nat, j: nat)
    requires Count(batch, p) == 1 && i < j < |batch|
    ensures batch[i].prefix != p || batch[j].prefix != p
  {
    var front := batch[..|batch| - 1];
    if j == |batch| - 1 {
      CountFindsCarriers(front, p);
      assert front[i] == batch[i];
    } else {
      CountFindsCarriers(front, p);
      assert front[j] == batch[j] && front[i] == batch[i];
      if Count(front, p) == 1 {
        CarrierIsUnique(front, p, i, j);
      }
    }
  }

  lemma {:induction false} LastPortNone(batch: seq<Status>, p: string)
    requires forall s | s in batch :: s.prefix == p ==> s.port <= 0
    ensures LastPort(batch, p) == 0
  {
    if batch != [] {
      var front := batch[..|batch| - 1];
      assert forall s | s in front :: s in batch;
      LastPortNone(front, p);
    }
  }

  lemma {:induction false} LastPortOfUnique(batch: seq<Status>, p: string, k: nat)
    requires k < |batch| && batch[k].prefix == p && batch[k].port > 0
    requires forall i | 0 <= i < |batch| && i != k :: batch[i].prefix != p
    ensures LastPort(batch, p) == batch[k].port
    decreases |batch|
  {
    if k < |batch| - 1 {
      LastPortOfUnique(batch[..|batch| - 1], p, k);
    }
  }

  /** The one report that decides a prefix's port: the only carrier, with a positive port. */
  predicate Decides(batch: seq<Status>, p: string, s: Status) {
    s in batch && s.prefix == p && s.port > 0 && Count(batch, p) == 1
  }

  /**
   * After suppression, the stored port of a prefix becomes its reported port exactly when a single
   * container carries that prefix with a positive port; otherwise it stays.
   */
  lemma StoredPort(rows: Rows, batch: seq<Status>, p: string)
    requires p in rows
    ensures
      var port := Fold(rows, Suppressed(batch))[p].port;
      && (forall s | Decides(batch, p, s) :: port == s.port)
      && ((forall s :: !Decides(batch, p, s)) ==> port == rows[p].port)
  {
    var sent := Suppressed(batch);
    FoldStoresLast(rows, sent, p);
    forall s | Decides(batch, p, s)
      ensures LastPort(sent, p) == s.port
    {
      var k :| 0 <= k < |batch| && batch[k] == s;
      forall i | 0 <= i < |sent| && i != k
        ensures sent[i].prefix != p
      {
        CarrierIsUnique(batch, p, if i < k then i else k, if i < k then k else i);
      }
      LastPortOfUnique(sent, p, k);
    }
    if forall s :: !Decides(batch, p, s) {
      forall s | s in sent
        ensures s.prefix == p ==> s.port <= 0
      {
        var i :| 0 <= i < |sent| && sent[i] == s;
        CountFindsCarriers(batch, p);
        assert !Decides(batch, p, batch[i]);
      }
      LastPortNone(sent, p);
    }
    hide Fold, LastPort;
  }

  /** The last report of a prefix. */
  function LastReport(batch: seq<Status>, p: string, row: Row): (int, bool) {
    if batch == [] then (row.restarts, row.oom)
    else
      var s := batch[|batch| - 1];
      if s.prefix == p then (s.restarts, s.oom) else LastReport(batch[..|batch| - 1], p, row)
  }

  lemma {:induction false} FoldStoresRuntime(rows: Rows, batch: seq<Status>, p: string)
    requires p in rows
    ensures (Fold(rows, batch)[p].restarts, Fold(rows, batch)[p].oom) == LastReport(batch, p, rows[p])
  {
    if batch != [] {
      FoldStoresRuntime(rows, batch[..|batch| - 1], p);
    }
  }

  lemma {:induction false} SameReports(a: seq<Status>, b: seq<Status>, p: string, row: Row)
    requires |a| == |b|
    requires forall i | 0 <= i < |a| :: a[i].prefix == b[i].prefix && a[i].restarts == b[i].restarts && a[i].oom == b[i].oom
    ensures LastReport(a, p, row) == LastReport(b, p, row)
  {
    if a != [] {
      SameReports(a[..|a| - 1], b[..|b| - 1], p, row);
    }
  }

  /** Suppression touches ports only: restart count and out-of-memory flag are those of the last report made. */
  lemma SuppressionKeepsRuntime(rows: Rows, batch: seq<Status>, p: string)
    requires p in rows
    ensures
      var row := Fold(rows, Suppressed(batch))[p];
      (row.restarts, row.oom) == LastReport(batch, p, rows[p])
  {
    FoldStoresRuntime(rows, Suppressed(batch), p);
    SameReports(Suppressed(batch), batch, p, rows[p]);
  }

  // ---------------------------------------------------------------- order does not matter

  lemma {:induction false} CountWithout(batch: seq<Status>, k: nat, p: string)
    requires k < |batch|
    ensures Count(batch, p) == Count(batch[..k] + batch[k + 1..], p) + if batch[k].prefix == p then 1 else 0
    decreases |batch|
  {
    var front, rest := batch[..|batch| - 1], batch[..k] + batch[k + 1..];
    if k == |batch| - 1 {
      assert rest == front;
    } else {
      CountWithout(front, k, p);
      assert rest[..|rest| - 1] == front[..k] + front[k + 1..];
      assert rest[|rest| - 1] == batch[|batch| - 1];
    }
  }

  lemma {:induction false} CountOfPermutation(a: seq<Status>, b: seq<Status>, p: string)
    requires multiset(a) == multiset(b)
    ensures Count(a, p) == Count(b, p)
    decreases |a|
  {
    assert |multiset(a)| == |a| && |multiset(b)| == |b|;
    if a != [] {
      var front, last := a[..|a| - 1], a[|a| - 1];
      assert a == front + [last];
      assert last in multiset(b);
      var k :| 0 <= k < |b| && b[k] == last;
      var rest := b[..k] + b[k + 1..];
      assert b == b[..k] + [last] + b[k + 1..];
      assert multiset(rest) == multiset(b) - multiset{last};
      CountOfPermutation(front, rest, p);
      CountWithout(b, k, p);
    }
  }

  /** However a batch is ordered, suppression and fold leave the same ports. */
  lemma PortsIgnoreOrder(rows: Rows, a: seq<Status>, b: seq<Status>, p: string)
    requires p in rows && multiset(a) == multiset(b)
    ensures Fold(rows, Suppressed(a))[p].port == Fold(rows, Suppressed(b))[p].port
  {
    CountOfPermutation(a, b, p);
    forall s
      ensures Decides(a, p, s) <==> Decides(b, p, s)
    {
      assert s in a <==> s in multiset(a);
      assert s in b <==> s in multiset(b);
    }
    StoredPort(rows, a, p);
    StoredPort(rows, b, p);
    hide Decides, Fold, Suppressed;
    if s :| Decides(a, p, s) {
      assert Decides(b, p, s);
    }
  }

  /** Without suppression, two containers that share a prefix make the stored port depend on the order. */
  lemma UnsuppressedDependsOnOrder(rows: Rows, x: Status, y: Status)
    requires x.prefix == y.prefix && x.prefix in rows && x.port > 0 && y.port > 0 && x.port != y.port
    ensures Fold(rows, [x, y])[x.prefix].port != Fold(rows, [y, x])[x.prefix].port
    ensures Fold(rows, Suppressed([x, y]))[x.prefix].port == rows[x.prefix].port
  {
    FoldStoresLast(rows, [x, y], x.prefix);
    FoldStoresLast(rows, [y, x], x.prefix);
    assert [x, y][..1] == [x] && [x][..0] == [];
    assert Count([x], x.prefix) == 1 && Count([x, y], x.prefix) == 2;
    StoredPort(rows, [x, y], x.prefix);
  }

  /** Silencing twice is silencing once. */
  lemma SuppressionIsIdempotent(batch: seq<Status>)
    ensures Suppressed(Suppressed(batch)) == Suppressed(batch)
  {
    forall p {
      CountOfSuppressed(batch, p);
    }
  }

  lemma CountOfSuppressed(batch: seq<Status>, p: string)
    ensures Count(Suppressed(batch), p) == Count(batch, p)
  {
    SamePrefixesCount(Suppressed(batch), batch, p);
  }

  lemma {:induction false} SamePrefixesCount(a: seq<Status>, b: seq<Status>, p: string)
    requires |a| == |b| && forall i | 0 <= i < |a| :: a[i].prefix == b[i].prefix
    ensures Count(a, p) == Count(b, p)
  {
    if a != [] {
      SamePrefixesCount(a[..|a| - 1], b[..|b| - 1], p);
    }
  }
}
