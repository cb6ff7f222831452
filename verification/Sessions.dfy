/**
 * Sliding forward-auth sessions in whole seconds: a cookie session is re-issued by an allowed
 * request once it is a day old, project-scoped and bearer sessions keep their expiry.
 */
module Sessions {
  import opened Wrappers

  const DAY := 86400
  const LIFETIME := 7 * DAY
  const RENEW_AFTER := DAY

  datatype Provider = Password | Phone | Roaming

  /** The claims that matter here; `keyed` tells whether an email or a user id is present. */
  datatype Session = Session(exp: int, provider: Provider, project: string, keyed: bool)

  /** One ForwardAuth call: its time, the project asked for, a bearer token, and what the access checks would say. */
  datatype Request = Request(at: int, project: string, bearer: Option<Session>, permitted: bool)

  datatype Answer = Allowed | Denied | Login

  predicate Valid(s: Session, now: int) {
    now < s.exp
  }

  function IssueRoaming(now: int, keyed: bool): Session {
    Session(now + LIFETIME, Roaming, "", keyed)
  }

  function IssueScoped(now: int, provider: Provider, project: string): Session {
    Session(now + LIFETIME, provider, project, true)
  }

  /** `resolveAuthClaims`: a valid cookie wins over a valid bearer token. */
  function Claims(cookie: Option<Session>, r: Request): Option<Session> {
    if cookie.Some? && Valid(cookie.value, r.at) then cookie
    else if r.bearer.Some? && Valid(r.bearer.value, r.at) then r.bearer
    else None
  }

  /** `renewSessionCookie` looks at the cookie only, whatever credential was used. */
  predicate Renews(cookie: Option<Session>, now: int) {
    && cookie.Some? && Valid(cookie.value, now) && cookie.value.project == ""
    && cookie.value.exp - now <= LIFETIME - RENEW_AFTER
  }

  function Renewed(cookie: Option<Session>, now: int): Option<Session> {
    if Renews(cookie, now) then Some(cookie.value.(exp := now + LIFETIME)) else cookie
  }

  /** `handleVerify` */
  function Verify(cookie: Option<Session>, r: Request): (Answer, Option<Session>) {
    var claims := Claims(cookie, r);
    if claims.None? then (Login, cookie)
    else if !claims.value.provider.Roaming? then
      (if r.project != "" && r.project == claims.value.project then Allowed else Login, cookie)
    else if !claims.value.keyed then (Login, cookie)
    else if !r.permitted then (Denied, cookie)
    else (Allowed, Renewed(cookie, r.at))
  }

  /** The browser's cookie slot. */
  class Browser {
    var cookie: Option<Session>

    constructor (cookie: Option<Session>)
      ensures this.cookie == cookie
    {
      this.cookie := cookie;
    }

    method RenewSessionCookie(now: int)
      modifies this
      ensures cookie == Renewed(old(cookie), now)
    {
      if cookie.None? || !Valid(cookie.value, now) || cookie.value.project != "" {
        return;
      }
      if cookie.value.exp - now > LIFETIME - RENEW_AFTER {
        return;
      }
      cookie := Some(cookie.value.(exp := now + LIFETIME));
    }

    method HandleVerify(r: Request) returns (answer: Answer)
      modifies this
      ensures (answer, cookie) == Verify(old(cookie), r)
    {
      var claims := Claims(cookie, r);
      if claims.None? {
        return Login;
      }
      if !claims.value.provider.Roaming? {
        if r.project != "" && r.project == claims.value.project {
          return Allowed;
        }
        return Login;
      }
      if !claims.value.keyed {
        return Login;
      }
      if !r.permitted {
        return Denied;
      }
      RenewSessionCookie(r.at);
      return Allowed;
    }
  }

  // ---------------------------------------------------------------- what an answer says

  /** The session is there and has not expired. */
  predicate Live(s: Option<Session>, at: int) {
    s.Some? && at < s.value.exp
  }

  /** What the session grants: scoped ones their own project, roaming ones whatever the access checks permit. */
  predicate Grants(s: Session, r: Request) {
    if s.provider == Roaming then s.keyed && r.permitted else r.project != "" && r.project == s.project
  }

  /** Known, but without access. */
  predicate Refuses(s: Session, r: Request) {
    s.provider == Roaming && s.keyed && !r.permitted
  }

  /**
   * Who gets in: a live cookie decides alone, a live bearer token only without one, and nobody with neither.
   * Scoped sessions are allowed exactly on their own project, roaming ones exactly when keyed and permitted;
   * whoever is neither allowed nor refused is sent to the login page.
   */
  lemma VerifyAnswers(cookie: Option<Session>, r: Request)
    ensures
      var answer := Verify(cookie, r).0;
      && (answer == Allowed <==>
            || (Live(cookie, r.at) && Grants(cookie.value, r))
            || (!Live(cookie, r.at) && Live(r.bearer, r.at) && Grants(r.bearer.value, r)))
      && (answer == Denied <==>
            || (Live(cookie, r.at) && Refuses(cookie.value, r))
            || (!Live(cookie, r.at) && Live(r.bearer, r.at) && Refuses(r.bearer.value, r)))
      && (!Live(cookie, r.at) && !Live(r.bearer, r.at) ==> answer == Login)
  {
  }

  /**
   * What happens to the cookie: an allowed request re-issues a live cookie that is bound to no project and has
   * six days or less to go, to seven days from then; anything else leaves it.
   */
  lemma VerifyRenews(cookie: Option<Session>, r: Request)
    ensures
      var (answer, after) := Verify(cookie, r);
      after ==
      if answer == Allowed && Live(cookie, r.at) && cookie.value.provider == Roaming && cookie.value.project == ""
         && cookie.value.exp - r.at <= 6 * 86400
      then Some(cookie.value.(exp := r.at + 7 * 86400)) else cookie
  {
  }

  // ---------------------------------------------------------------- runs

  function Answers(cookie: Option<Session>, rs: seq<Request>): seq<Answer>
    decreases |rs|
  {
    if rs == [] then [] else [Verify(cookie, rs[0]).0] + Answers(Verify(cookie, rs[0]).1, rs[1..])
  }

  function CookieAfter(cookie: Option<Session>, rs: seq<Request>): Option<Session>
    decreases |rs|
  {
    if rs == [] then cookie else CookieAfter(Verify(cookie, rs[0]).1, rs[1..])
  }

  /** When the cookie was re-issued. */
  function RenewalTimes(cookie: Option<Session>, rs: seq<Request>): seq<int>
    decreases |rs|
  {
    if rs == [] then []
    else (if Verify(cookie, rs[0]).1 != cookie then [rs[0].at] else []) + RenewalTimes(Verify(cookie, rs[0]).1, rs[1..])
  }

  /** Every request comes no earlier than `last` and within `gap` of the allowed request (or issue) before it. */
  predicate Frequent(rs: seq<Request>, last: int, gap: int)
    decreases |rs|
  {
    rs == [] || (last <= rs[0].at <= last + gap && Frequent(rs[1..], if rs[0].permitted then rs[0].at else last, gap))
  }

  predicate RoamingSession(s: Session) {
    s.provider.Roaming? && s.project == "" && s.keyed
  }

  // ---------------------------------------------------------------- a regular visitor never has to log in again

  /** After an allowed request the session is good for more than six days. */
  lemma AllowedLeavesSixDays(s: Session, r: Request)
    requires RoamingSession(s) && Valid(s, r.at) && r.permitted
    ensures
      var (answer, after) := Verify(Some(s), r);
      answer == Allowed && after.Some? && RoamingSession(after.value) && after.value.exp > r.at + LIFETIME - RENEW_AFTER
  {
  }

  /** No request of a roaming session is sent to the login page while allowed ones come at most six days apart. */
  lemma {:induction false} FrequentNeverLogsIn(s: Session, rs: seq<Request>, last: int)
    requires RoamingSession(s) && s.exp > last + LIFETIME - RENEW_AFTER
    requires Frequent(rs, last, LIFETIME - RENEW_AFTER)
    ensures |Answers(Some(s), rs)| == |rs|
    ensures forall i | 0 <= i < |rs| :: Answers(Some(s), rs)[i] == if rs[i].permitted then Allowed else Denied
    decreases |rs|
  {
    if rs != [] {
      var r := rs[0];
      if r.permitted {
        AllowedLeavesSixDays(s, r);
        FrequentNeverLogsIn(Verify(Some(s), r).1.value, rs[1..], r.at);
      } else {
        FrequentNeverLogsIn(s, rs[1..], last);
      }
    }
  }

  /** From the moment it is issued. */
  lemma RoamingNeverExpires(issued: int, rs: seq<Request>)
    requires Frequent(rs, issued, LIFETIME - RENEW_AFTER)
    ensures Login !in Answers(Some(IssueRoaming(issued, true)), rs)
  {
    FrequentNeverLogsIn(IssueRoaming(issued, true), rs, issued);
  }

  /** Six days is the exact bound: any longer gap can end a session that is in regular use. */
  lemma SixDaysIsTight(gap: int)
    requires gap >= 0
    ensures (forall issued, rs | Frequent(rs, issued, gap) :: Login !in Answers(Some(IssueRoaming(issued, true)), rs))
            <==> gap <= LIFETIME - RENEW_AFTER
  {
    if gap <= LIFETIME - RENEW_AFTER {
      forall issued, rs | Frequent(rs, issued, gap)
        ensures Login !in Answers(Some(IssueRoaming(issued, true)), rs)
      {
        FrequentWidens(rs, issued, gap, LIFETIME - RENEW_AFTER);
        RoamingNeverExpires(issued, rs);
      }
    } else {
      var rs := Lapse();
      LapseLogsIn();
      FrequentWidens(rs, 0, LIFETIME - RENEW_AFTER + 1, gap);
    }
  }

  /** One second short of a day old, the session is not renewed; six days and a second later it is gone. */
  function Lapse(): seq<Request> {
    [Request(RENEW_AFTER - 1, "", None, true), Request(LIFETIME, "", None, true)]
  }

  lemma LapseLogsIn()
    ensures Frequent(Lapse(), 0, LIFETIME - RENEW_AFTER + 1)
    ensures Login in Answers(Some(IssueRoaming(0, true)), Lapse())
  {
    var s, rs := Some(IssueRoaming(0, true)), Lapse();
    assert rs[1..] == [rs[1]] && rs[1..][1..] == [];
    assert Frequent(rs[1..][1..], LIFETIME, LIFETIME - RENEW_AFTER + 1);
    assert Frequent(rs[1..], RENEW_AFTER - 1, LIFETIME - RENEW_AFTER + 1);
    assert Verify(s, rs[0]) == (Allowed, s);
    assert Verify(s, rs[1]) == (Login, s);
    assert Answers(s, rs[1..]) == [Login] + Answers(s, rs[1..][1..]);
    assert Answers(s, rs) == [Allowed] + Answers(s, rs[1..]);
    assert Answers(s, rs)[1] == Login;
  }

  lemma {:induction false} FrequentWidens(rs: seq<Request>, last: int, gap: int, wider: int)
    requires Frequent(rs, last, gap) && gap <= wider
    ensures Frequent(rs, last, wider)
    decreases |rs|
  {
    if rs != [] {
      FrequentWidens(rs[1..], if rs[0].permitted then rs[0].at else last, gap, wider);
    }
  }

  // ---------------------------------------------------------------- renewals are rare

  predicate NotBefore(times: seq<int>, t: int) {
    forall i | 0 <= i < |times| :: times[i] >= t
  }

  predicate DayApart(times: seq<int>) {
    forall i, j | 0 <= i < j < |times| :: times[j] - times[i] >= RENEW_AFTER
  }

  lemma DayApartCons(t: int, rest: seq<int>)
    requires DayApart(rest) && NotBefore(rest, t + RENEW_AFTER)
    ensures DayApart([t] + rest) && NotBefore([t] + rest, t)
  {
    var times := [t] + rest;
    assert forall i | 0 < i < |times| :: times[i] == rest[i - 1];
  }

  /** The earliest moment a cookie can be renewed: a day into its lifetime. */
  function FirstRenewal(cookie: Option<Session>): int {
    if cookie.Some? then cookie.value.exp - LIFETIME + RENEW_AFTER else 0
  }

  /** Any two renewals of a cookie are at least a day apart, the first one at least a day after it was issued. */
  lemma {:induction false} RenewalsADayApart(cookie: Option<Session>, rs: seq<Request>)
    ensures DayApart(RenewalTimes(cookie, rs)) && NotBefore(RenewalTimes(cookie, rs), FirstRenewal(cookie))
    ensures cookie.None? ==> RenewalTimes(cookie, rs) == []
    decreases |rs|
  {
    if rs != [] {
      var after := Verify(cookie, rs[0]).1;
      var rest := RenewalTimes(after, rs[1..]);
      OnlyAllowedRenews(cookie, rs[0]);
      RenewalsADayApart(after, rs[1..]);
      assert after != cookie ==> FirstRenewal(after) == rs[0].at + RENEW_AFTER && rs[0].at >= FirstRenewal(cookie);
      hide Verify, DayApart;
      if after != cookie {
        DayApartCons(rs[0].at, rest);
        assert RenewalTimes(cookie, rs) == [rs[0].at] + rest;
      } else {
        assert RenewalTimes(cookie, rs) == [] + rest == rest;
      }
    }
  }

  // ---------------------------------------------------------------- what never slides

  /**
   * For seven days a project-scoped session admits exactly the requests for its own project, whatever
   * else they carry; from then on a bearer token decides, or nobody gets in.
   */
  lemma {:induction false} ScopedEndsAfterSevenDays(issued: int, provider: Provider, project: string, rs: seq<Request>)
    requires !provider.Roaming?
    ensures
      var s := Some(IssueScoped(issued, provider, project));
      && CookieAfter(s, rs) == s
      && |Answers(s, rs)| == |rs|
      && forall i | 0 <= i < |rs| ::
           Answers(s, rs)[i] ==
           if issued + LIFETIME <= rs[i].at then
             (if !Live(rs[i].bearer, rs[i].at) then Login
              else if Grants(rs[i].bearer.value, rs[i]) then Allowed
              else if Refuses(rs[i].bearer.value, rs[i]) then Denied
              else Login)
           else if rs[i].project != "" && rs[i].project == project then Allowed
           else Login
    decreases |rs|
  {
    if rs != [] {
      ScopedEndsAfterSevenDays(issued, provider, project, rs[1..]);
    }
  }

  /** A bearer token never leaves anything behind: without a cookie to slide there is none afterwards. */
  lemma {:induction false} BearerNeverSlides(rs: seq<Request>)
    ensures CookieAfter(None, rs) == None
    decreases |rs|
  {
    if rs != [] {
      BearerNeverSlides(rs[1..]);
    }
  }

  /** Only an allowed request re-issues, and only a roaming cookie. */
  lemma OnlyAllowedRenews(cookie: Option<Session>, r: Request)
    ensures Verify(cookie, r).1 != cookie ==>
              && Verify(cookie, r).0 == Allowed && r.permitted
              && cookie.Some? && cookie.value.project == ""
              && cookie.value.exp - r.at <= LIFETIME - RENEW_AFTER
              && Verify(cookie, r).1 == Some(cookie.value.(exp := r.at + LIFETIME))
  {
  }
}
