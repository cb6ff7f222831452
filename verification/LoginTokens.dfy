/**
 * SDK sign-in tokens: created pending, turned into success or error by OAuth callbacks, consumed by
 * polls. A callback looks the entry up first and writes it after two provider calls, so the entry
 * may have left the map by then. A poll is one atomic step.
 */
module LoginTokens {
  import opened Wrappers

  const EXPIRY := 600
  const GRACE := 60

  datatype Status = Pending | Success | Error

  datatype User = User(email: string, userId: string, name: string, avatar: string, provider: string)

  const NOBODY := User("", "", "", "", "")

  datatype Entry = Entry(status: Status, error: string, user: User, expires: nat)

  /** An entry that was ever created; `stored` while it is in the map. */
  datatype Slot = Slot(stored: bool, entry: Entry)

  type Slots = map<string, Slot>

  datatype Answer = Expired | IsPending | IsError(message: string) | IsSuccess(user: User)

  // ---------------------------------------------------------------- the operations on entries

  function Created(m: Slots, t: string, now: nat): Slots {
    m[t := Slot(true, Entry(Pending, "", NOBODY, now + EXPIRY))]
  }

  predicate Stored(m: Slots, t: string) {
    t in m && m[t].stored
  }

  function Deleted(m: Slots, t: string): Slots {
    if t in m then m[t := m[t].(stored := false)] else m
  }

  function PollAnswer(m: Slots, t: string, now: nat): Answer {
    if !Stored(m, t) || now > m[t].entry.expires then Expired
    else
      match m[t].entry.status
      case Success => IsSuccess(m[t].entry.user)
      case Error => IsError(m[t].entry.error)
      case Pending => IsPending
  }

  /** Any answer but pending consumes the entry. */
  function Polled(m: Slots, t: string, now: nat): Slots {
    if PollAnswer(m, t, now).IsPending? then m else Deleted(m, t)
  }

  /** A callback starts: it keeps the entry unless that is gone or expired. */
  function Looked(m: Slots, t: string, now: nat): (Slots, bool) {
    if !Stored(m, t) then (m, false)
    else if now > m[t].entry.expires then (Deleted(m, t), false)
    else (m, true)
  }

  /** `markLoginTokenError` looks the token up again. */
  function Marked(m: Slots, t: string, message: string): Slots {
    if Stored(m, t) then m[t := m[t].(entry := m[t].entry.(status := Error, error := message))] else m
  }

  /** A successful callback writes through the entry it holds, in the map or not. */
  function Finished(m: Slots, t: string, user: User): Slots
    requires t in m
  {
    m[t := m[t].(entry := m[t].entry.(status := Success, user := user))]
  }

  // ---------------------------------------------------------------- the store in place

  class TokenEntry {
    var status: Status
    var error: string
    var user: User
    var expires: nat

    constructor (expires: nat)
      ensures Value() == Entry(Pending, "", NOBODY, expires)
    {
      status, error, user := Pending, "", NOBODY;
      this.expires := expires;
    }

    function Value(): Entry
      reads this
    {
      Entry(status, error, user, expires)
    }

    /** The last step of a callback: identity first, then the status the poll looks at. */
    method Finish(user: User)
      modifies this`user, this`status
      ensures Value() == old(Value()).(status := Success, user := user)
    {
      this.user := user;
      status := Success;
    }
  }

  class TokenStore {
    var tokens: map<string, TokenEntry>
    /** Every entry ever created, for the specification. */
    ghost var all: map<string, TokenEntry>

    constructor ()
      ensures Valid() && View() == map[]
    {
      tokens, all := map[], map[];
    }

    ghost function Entries(): set<TokenEntry>
      reads this
    {
      set t | t in all :: all[t]
    }

    ghost predicate Valid()
      reads this
    {
      && (forall t | t in tokens :: t in all && all[t] == tokens[t])
      && (forall t, u | t in all && u in all && t != u :: all[t] != all[u])
    }

    ghost function View(): Slots
      reads this, Entries()
    {
      map t | t in all :: Slot(t in tokens, all[t].Value())
    }

    method Create(t: string, now: nat)
      requires Valid() && t !in all
      modifies this
      ensures Valid() && View() == Created(old(View()), t, now)
    {
      var e := new TokenEntry(now + EXPIRY);
      tokens, all := tokens[t := e], all[t := e];
    }

    method Delete(t: string)
      requires Valid()
      modifies this`tokens
      ensures Valid() && View() == Deleted(old(View()), t)
    {
      tokens := tokens - {t};
    }

    method Poll(t: string, now: nat) returns (answer: Answer)
      requires Valid()
      modifies this`tokens
      ensures Valid() && View() == Polled(old(View()), t, now)
      ensures answer == PollAnswer(old(View()), t, now)
    {
      if t !in tokens {
        answer := Expired;
      } else {
        var e := tokens[t];
        if now > e.expires {
          answer := Expired;
        } else {
          match e.status
          case Success => answer := IsSuccess(e.user);
          case Error => answer := IsError(e.error);
          case Pending => answer := IsPending;
        }
      }
      ghost var m := View();
      assert answer == PollAnswer(m, t, now);
      if !answer.IsPending? {
        Delete(t);
      }
    }

    /** What a callback holds on to across the provider calls. */
    method Look(t: string, now: nat) returns (held: TokenEntry?)
      requires Valid()
      modifies this`tokens
      ensures Valid() && (View(), held != null) == Looked(old(View()), t, now)
      ensures held != null ==> t in all && held == all[t] && all == old(all)
    {
      if t !in tokens {
        return null;
      }
      if now > tokens[t].expires {
        Delete(t);
        return null;
      }
      held := tokens[t];
    }

    method MarkError(t: string, message: string)
      requires Valid()
      modifies if t in tokens then {tokens[t]} else {}
      ensures Valid() && View() == Marked(old(View()), t, message)
    {
      if t in tokens {
        tokens[t].status := Error;
        tokens[t].error := message;
      }
    }

    /** A callback's final write reaches the entry it holds even when the map has dropped it. */
    method FinishHeld(t: string, held: TokenEntry, user: User)
      requires Valid() && t in all && all[t] == held
      modifies held
      ensures Valid() && View() == Finished(old(View()), t, user)
    {
      held.Finish(user);
    }
  }

  // ---------------------------------------------------------------- runs

  datatype Answered = Answered(token: string, answer: Answer, at: nat, upserts: nat)

  /** How a callback completed. */
  datatype Outcome = Failed(message: string) | SignedIn(user: User)

  /**
   * `flights` are callbacks past their lookup. For the record: `done` are the identity upserts that completed
   * and `ends` all callbacks that did, in order, and `born` is when each token was created.
   */
  datatype State = State(now: nat, slots: Slots, flights: map<nat, string>, done: seq<(string, User)>, log: seq<Answered>,
                         ends: seq<(string, Outcome)>, born: map<string, nat>)

  const START := State(0, map[], map[], [], [], [], map[])

  datatype Event =
    | Tick(seconds: nat)
    | Create(t: string)
    | Begin(callback: nat, t: string)
    | Fail(callback: nat, message: string)
    | Finish(callback: nat, user: User)
    | Poll(t: string)
    | Collect(t: string)

  predicate Can(s: State, e: Event) {
    match e
    case Tick(_) => true
    case Create(t) => t !in s.slots
    case Begin(c, _) => c !in s.flights
    case Fail(c, _) => c in s.flights
    case Finish(c, _) => c in s.flights && s.flights[c] in s.slots
    case Poll(_) => true
    case Collect(t) => t in s.slots && s.now >= s.slots[t].entry.expires + GRACE
  }

  function Next(s: State, e: Event): State
    requires Can(s, e)
  {
    match e
    case Tick(n) => s.(now := s.now + n)
    case Create(t) => s.(slots := Created(s.slots, t, s.now), born := s.born[t := s.now])
    case Begin(c, t) =>
      var (slots, held) := Looked(s.slots, t, s.now);
      s.(slots := slots, flights := if held then s.flights[c := t] else s.flights)
    case Fail(c, message) =>
      var t := s.flights[c];
      s.(slots := Marked(s.slots, t, message), flights := s.flights - {c}, ends := s.ends + [(t, Failed(message))])
    case Finish(c, user) =>
      var t := s.flights[c];
      s.(slots := Finished(s.slots, t, user), flights := s.flights - {c}, done := s.done + [(t, user)],
         ends := s.ends + [(t, SignedIn(user))])
    case Poll(t) =>
      s.(slots := Polled(s.slots, t, s.now),
         log := s.log + [Answered(t, PollAnswer(s.slots, t, s.now), s.now, |s.done|)])
    case Collect(t) => s.(slots := Deleted(s.slots, t))
  }

  predicate Runs(s: State, es: seq<Event>)
    decreases |es|
  {
    es == [] || (Can(s, es[0]) && Runs(Next(s, es[0]), es[1..]))
  }

  function Run(s: State, es: seq<Event>): State
    requires Runs(s, es)
    decreases |es|
  {
    if es == [] then s else Run(Next(s, es[0]), es[1..])
  }

  // ---------------------------------------------------------------- what every run keeps

  predicate Final(a: Answer) {
    a.IsError? || a.IsSuccess?
  }

  /** The identity of the latest completed upsert for a token. */
  function LastUser(done: seq<(string, User)>, t: string): Option<User> {
    if done == [] then None
    else if done[|done| - 1].0 == t then Some(done[|done| - 1].1)
    else LastUser(done[..|done| - 1], t)
  }

  /** A final answer has consumed its token for good. */
  ghost predicate Consumes(s: State) {
    forall i | 0 <= i < |s.log| && Final(s.log[i].answer) ::
      s.log[i].token in s.slots && !s.slots[s.log[i].token].stored
  }

  ghost predicate OnceOnly(s: State) {
    forall i, j | 0 <= i < j < |s.log| && s.log[i].token == s.log[j].token && Final(s.log[i].answer) ::
      s.log[j].answer == Expired
  }

  /** A success entry carries the identity of the latest completed upsert. */
  ghost predicate Backed(s: State) {
    forall t | t in s.slots && s.slots[t].entry.status.Success? :: LastUser(s.done, t) == Some(s.slots[t].entry.user)
  }

  /** Success answers in the log: within the lifetime, with the identity upserted last at that moment. */
  ghost predicate Honest(s: State) {
    forall i | 0 <= i < |s.log| && s.log[i].answer.IsSuccess? ::
      var a := s.log[i];
      && a.upserts <= |s.done| && LastUser(s.done[..a.upserts], a.token) == Some(a.answer.user)
      && a.token in s.slots && a.at <= s.slots[a.token].entry.expires
  }

  /** An entry leaves the map only by a final answer or by expiry. */
  ghost predicate Kept(s: State) {
    forall t | t in s.slots && !s.slots[t].stored :: s.now > s.slots[t].entry.expires || AnsweredFinally(s, t)
  }

  ghost predicate AnsweredFinally(s: State, t: string) {
    exists i :: 0 <= i < |s.log| && s.log[i].token == t && Final(s.log[i].answer)
  }

  ghost predicate Inv(s: State) {
    && Consumes(s) && OnceOnly(s) && Backed(s) && Honest(s) && Kept(s)
    && forall c | c in s.flights :: s.flights[c] in s.slots
  }

  lemma FinallyStays(s: State, s': State, t: string)
    requires s.log <= s'.log
    ensures AnsweredFinally(s, t) ==> AnsweredFinally(s', t)
  {
    if i :| 0 <= i < |s.log| && s.log[i].token == t && Final(s.log[i].answer) {
      assert s'.log[i] == s.log[i];
    }
  }

  lemma PollKeeps(s: State, t: string)
    requires Inv(s)
    ensures Inv(Next(s, Poll(t)))
  {
    var s' := Next(s, Poll(t));
    assert s.done[..|s.done|] == s.done;
    forall i | 0 <= i < |s'.log| && Final(s'.log[i].answer)
      ensures s'.log[i].token in s'.slots && !s'.slots[s'.log[i].token].stored
    {
      if i < |s.log| {
        assert s'.log[i] == s.log[i];
      }
    }
    forall u | u in s'.slots && !s'.slots[u].stored
      ensures s'.now > s'.slots[u].entry.expires || AnsweredFinally(s', u)
    {
      if s.slots[u].stored {
        assert s'.log[|s.log|] == Answered(t, PollAnswer(s.slots, t, s.now), s.now, |s.done|);
      } else {
        FinallyStays(s, s', u);
      }
    }
    forall i, j | 0 <= i < j < |s'.log| && s'.log[i].token == s'.log[j].token && Final(s'.log[i].answer)
      ensures s'.log[j].answer == Expired
    {
      assert s'.log[i] == s.log[i];
      if j < |s.log| {
        assert s'.log[j] == s.log[j];
      }
    }
    hide LastUser;
  }

  lemma FinishKeeps(s: State, c: nat, user: User)
    requires Inv(s) && Can(s, Finish(c, user))
    ensures Inv(Next(s, Finish(c, user)))
  {
    var s' := Next(s, Finish(c, user));
    assert s'.done[..|s.done|] == s.done;
    forall i | 0 <= i < |s.log| && s.log[i].answer.IsSuccess?
      ensures s'.done[..s.log[i].upserts] == s.done[..s.log[i].upserts]
    {
    }
  }

  lemma OtherKeeps(s: State, e: Event)
    requires Inv(s) && Can(s, e) && !e.Poll? && !e.Finish?
    ensures Inv(Next(s, e))
  {
    hide LastUser;
  }

  lemma {:induction false} RunKeeps(s: State, es: seq<Event>)
    requires Inv(s) && Runs(s, es)
    ensures Inv(Run(s, es))
    decreases |es|
  {
    if es != [] {
      var e := es[0];
      if e.Poll? {
        PollKeeps(s, e.t);
      } else if e.Finish? {
        FinishKeeps(s, e.callback, e.user);
      } else {
        OtherKeeps(s, e);
      }
      hide Inv, Next;
      RunKeeps(Next(s, e), es[1..]);
    }
  }

  /** In every run, a token is answered success or error at most once, and expired ever after. */
  lemma SingleUse(es: seq<Event>, i: nat, j: nat)
    requires Runs(START, es) && i < j < |Run(START, es).log|
    requires Run(START, es).log[i].token == Run(START, es).log[j].token && Final(Run(START, es).log[i].answer)
    ensures Run(START, es).log[j].answer == Expired
  {
    RunKeeps(START, es);
    hide Run, Runs;
  }

  /**
   * In every run, a success answer comes no later than the token's expiry and carries the identity
   * of the callback that had last completed its upsert for that token by then.
   */
  lemma SuccessIsBacked(es: seq<Event>, i: nat)
    requires Runs(START, es) && i < |Run(START, es).log| && Run(START, es).log[i].answer.IsSuccess?
    ensures
      var s := Run(START, es);
      var a := s.log[i];
      && a.token in s.slots && a.at <= s.slots[a.token].entry.expires
      && a.upserts <= |s.done| && LastUser(s.done[..a.upserts], a.token) == Some(a.answer.user)
  {
    RunKeeps(START, es);
    hide Run, Runs;
  }

  /**
   * In every reachable state, a created token reads as expired if and only if its ten minutes are
   * over or it has been answered success or error before.
   */
  lemma ExpiredIff(es: seq<Event>, t: string)
    requires Runs(START, es) && t in Run(START, es).slots
    ensures
      var s := Run(START, es);
      PollAnswer(s.slots, t, s.now) == Expired <==> s.now > s.slots[t].entry.expires || AnsweredFinally(s, t)
  {
    RunKeeps(START, es);
    hide Run, Runs, OnceOnly, Backed, Honest;
  }

  /** A callback that finishes after its entry left the map changes no answer. */
  lemma LateFinishIsInvisible(m: Slots, t: string, user: User, u: string, now: nat)
    requires t in m && !m[t].stored
    ensures PollAnswer(Finished(m, t, user), u, now) == PollAnswer(m, u, now)
  {
  }

  /** Collection runs after expiry, so it changes no answer either. */
  lemma CollectIsInvisible(s: State, t: string, u: string)
    requires Can(s, Collect(t))
    ensures PollAnswer(Next(s, Collect(t)).slots, u, s.now) == PollAnswer(s.slots, u, s.now)
  {
  }

  // ---------------------------------------------------------------- every answer, from the history

  /** How the latest callback to complete for the token did. */
  function LastEnd(ends: seq<(string, Outcome)>, t: string): Option<Outcome> {
    if ends == [] then None
    else if ends[|ends| - 1].0 == t then Some(ends[|ends| - 1].1)
    else LastEnd(ends[..|ends| - 1], t)
  }

  lemma LastEndSnoc(ends: seq<(string, Outcome)>, x: (string, Outcome), t: string)
    ensures LastEnd(ends + [x], t) == if x.0 == t then Some(x.1) else LastEnd(ends, t)
  {
    assert (ends + [x])[..|ends|] == ends;
  }

  /** What an entry holds, by how its latest callback completed. */
  predicate Holds(e: Entry, end: Option<Outcome>) {
    match end
    case None => e.status == Pending
    case Some(Failed(m)) => e.status == Error && e.error == m
    case Some(SignedIn(u)) => e.status == Success && e.user == u
  }

  /** Tokens expire ten minutes after their creation, and stored ones follow their callbacks. */
  ghost predicate Follows(s: State) {
    && (forall t | t in s.slots :: t in s.born && s.slots[t].entry.expires == s.born[t] + 600)
    && (forall t | t in s.slots && s.slots[t].stored :: Holds(s.slots[t].entry, LastEnd(s.ends, t)))
    && (forall t | t !in s.slots :: LastEnd(s.ends, t) == None)
    && (forall c | c in s.flights :: s.flights[c] in s.slots)
  }

  lemma EndFollows(s: State, e: Event)
    requires Can(s, e) && Follows(s) && (e.Fail? || e.Finish?)
    ensures Follows(Next(s, e))
  {
    var s' := Next(s, e);
    var x := s'.ends[|s.ends|];
    assert s'.ends == s.ends + [x];
    forall t
      ensures LastEnd(s'.ends, t) == if x.0 == t then Some(x.1) else LastEnd(s.ends, t)
    {
      LastEndSnoc(s.ends, x, t);
    }
    hide LastEnd;
  }

  lemma QuietFollows(s: State, e: Event)
    requires Can(s, e) && Follows(s) && !e.Fail? && !e.Finish?
    ensures Follows(Next(s, e))
  {
    hide LastEnd, Holds, PollAnswer;
    if e.Create? {
      PendingHolds(e.t, s.now);
    }
  }

  lemma PendingHolds(t: string, now: nat)
    ensures Holds(Created(map[], t, now)[t].entry, None)
  {
  }

  lemma {:induction false} RunFollows(s: State, es: seq<Event>)
    requires Follows(s) && Runs(s, es)
    ensures Follows(Run(s, es))
    decreases |es|
  {
    if es != [] {
      if es[0].Fail? || es[0].Finish? {
        EndFollows(s, es[0]);
      } else {
        QuietFollows(s, es[0]);
      }
      hide Follows, Next, Can;
      RunFollows(Next(s, es[0]), es[1..]);
    }
  }

  /** The answer of a poll in this state, from the history alone. */
  ghost function Due(s: State, t: string): Answer
    requires t in s.born
  {
    if s.now > s.born[t] + 600 || AnsweredFinally(s, t) then Expired
    else
      match LastEnd(s.ends, t)
      case None => IsPending
      case Some(Failed(m)) => IsError(m)
      case Some(SignedIn(u)) => IsSuccess(u)
  }

  /**
   * In every reachable state a poll for a created token answers: expired after its ten minutes or once it was
   * answered success or error, and otherwise as the latest callback to complete for it did, or pending.
   */
  lemma PollIsDue(es: seq<Event>, t: string)
    requires Runs(START, es) && t in Run(START, es).slots
    ensures
      var s := Run(START, es);
      && t in s.born && Can(s, Poll(t))
      && Next(s, Poll(t)).log == s.log + [Answered(t, Due(s, t), s.now, |s.done|)]
  {
    RunFollows(START, es);
    RunKeeps(START, es);
    var s := Run(START, es);
    ExpiredIff(es, t);
    hide Run, Runs, LastEnd, AnsweredFinally, Consumes, OnceOnly, Backed, Honest, Kept;
  }

  /**
   * In every reachable state a callback gets past its lookup exactly when its token was created, is within its
   * ten minutes and has not been answered success or error.
   */
  lemma BeginTakesIff(es: seq<Event>, c: nat, t: string)
    requires Runs(START, es) && Can(Run(START, es), Begin(c, t))
    ensures
      var s := Run(START, es);
      c in Next(s, Begin(c, t)).flights <==>
        t in s.slots && t in s.born && s.now <= s.born[t] + 600 && !AnsweredFinally(s, t)
  {
    RunFollows(START, es);
    RunKeeps(START, es);
    if t in Run(START, es).slots {
      ExpiredIff(es, t);
    }
    hide Run, Runs, LastEnd, AnsweredFinally, Consumes, OnceOnly, Backed, Honest, Kept;
  }

  /** The seconds that pass in a run. */
  function Elapsed(es: seq<Event>): nat
    decreases |es|
  {
    if es == [] then 0 else (if es[0].Tick? then es[0].seconds else 0) + Elapsed(es[1..])
  }

  lemma {:induction false} ClockRuns(s: State, es: seq<Event>)
    requires Runs(s, es)
    ensures Run(s, es).now == s.now + Elapsed(es)
    decreases |es|
  {
    if es != [] {
      ClockRuns(Next(s, es[0]), es[1..]);
    }
  }

  /** A callback completes once: whichever way it does, it is in flight no more. */
  lemma CallbackCompletes(s: State, e: Event)
    requires Can(s, e) && (e.Fail? || e.Finish?)
    ensures e.callback in s.flights && Next(s, e).flights == s.flights - {e.callback}
    ensures Next(s, e).ends == s.ends + [(s.flights[e.callback], if e.Fail? then Failed(e.message) else SignedIn(e.user))]
  {
  }

  /** An expired token leaves the map when a callback or a poll meets it, and when it is collected. */
  lemma ExpiredIsDropped(s: State, e: Event, t: string)
    requires Can(s, e) && t in s.slots && s.now > s.slots[t].entry.expires
    requires (e.Begin? && e.t == t) || (e.Poll? && e.t == t) || (e.Collect? && e.t == t)
    ensures t in Next(s, e).slots && !Next(s, e).slots[t].stored
  {
  }

  /** Collection is due a minute after expiry. */
  lemma CollectableAfterAMinute(s: State, t: string)
    requires t in s.slots
    ensures Can(s, Collect(t)) <==> s.now >= s.slots[t].entry.expires + 60
  {
  }

  /** A token that was never created reads as expired. */
  lemma UnknownIsExpired(es: seq<Event>, t: string)
    requires Runs(START, es) && t !in Run(START, es).slots
    ensures
      var s := Run(START, es);
      Next(s, Poll(t)).log == s.log + [Answered(t, Expired, s.now, |s.done|)]
  {
    hide Run, Runs;
  }

  /** Signing in takes four steps: create, begin, finish, poll. */
  lemma SignInCompletes(t: string, u: User)
    ensures
      var es := [Create(t), Begin(0, t), Finish(0, u), Poll(t)];
      Runs(START, es) && Run(START, es).log == [Answered(t, IsSuccess(u), 0, 1)]
  {
    var s1 := Next(START, Create(t));
    var s2 := Next(s1, Begin(0, t));
    var s3 := Next(s2, Finish(0, u));
    var s4 := Next(s3, Poll(t));
    assert s4.log == [Answered(t, IsSuccess(u), 0, 1)];
    assert Can(START, Create(t)) && Can(s1, Begin(0, t)) && Can(s2, Finish(0, u)) && Can(s3, Poll(t));
    hide Next, Can;
    RunCons(s4, [], s3, Poll(t));
    assert [Poll(t)] + [] == [Poll(t)];
    RunCons(s3, [Poll(t)], s2, Finish(0, u));
    assert [Finish(0, u)] + [Poll(t)] == [Finish(0, u), Poll(t)];
    RunCons(s2, [Finish(0, u), Poll(t)], s1, Begin(0, t));
    assert [Begin(0, t)] + [Finish(0, u), Poll(t)] == [Begin(0, t), Finish(0, u), Poll(t)];
    RunCons(s1, [Begin(0, t), Finish(0, u), Poll(t)], START, Create(t));
    assert Run(s4, []) == s4;
    assert [Create(t)] + [Begin(0, t), Finish(0, u), Poll(t)] == [Create(t), Begin(0, t), Finish(0, u), Poll(t)];
  }

  lemma RunCons(next: State, es: seq<Event>, s: State, e: Event)
    requires Can(s, e) && next == Next(s, e) && Runs(next, es)
    ensures Runs(s, [e] + es) && Run(s, [e] + es) == Run(next, es)
  {
    assert ([e] + es)[1..] == es;
    hide Next, Can;
  }
}
