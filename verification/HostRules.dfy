/**
 * Traefik host rules as text: the printer used when routers are generated and the parser used
 * when they are split for Cloudflare Tunnel domains.
 */
module HostRules {
  import opened Wrappers

  const HOST := "Host(`"
  const HOST_SNI := "HostSNI(`"
  const CLOSE_TOKEN := "`)"
  const OR := " || "

  function Opening(sni: bool): string {
    if sni then HOST_SNI else HOST
  }

  // ---------------------------------------------------------------- printer

  function Token(host: string, sni: bool): string {
    Opening(sni) + host + CLOSE_TOKEN
  }

  /** The tokens joined by the OR separator. */
  function Alternatives(hosts: seq<string>, sni: bool): string
    requires hosts != []
  {
    if |hosts| == 1 then Token(hosts[0], sni) else Token(hosts[0], sni) + OR + Alternatives(hosts[1..], sni)
  }

  /** `hostMatchRule` and `sniMatchRule`: one host stands bare, any other number is parenthesised. */
  function MatchRule(hosts: seq<string>, sni: bool): string {
    if hosts == [] then "()"
    else if |hosts| == 1 then Alternatives(hosts, sni)
    else "(" + Alternatives(hosts, sni) + ")"
  }

  // ---------------------------------------------------------------- parser

  predicate HasPrefix(s: string, p: string) {
    |p| <= |s| && s[..|p|] == p
  }

  lemma PrefixCancel(p: string, a: string, b: string)
    ensures HasPrefix(p + a, p + b) <==> HasPrefix(a, b)
  {
    if |b| <= |a| {
      assert (p + a)[..|p + b|] == p + a[..|b|];
      assert (p + a[..|b|])[|p|..] == a[..|b|] && (p + b)[|p|..] == b;
    }
  }

  lemma PrefixShorten(s: string, a: string, b: string)
    ensures HasPrefix(s, a + b) ==> HasPrefix(s, a)
  {
    if |a + b| <= |s| {
      assert s[..|a + b|][..|a|] == s[..|a|];
      assert (a + b)[..|a|] == a;
    }
  }

  lemma PrefixAgrees(s: string, p: string, i: nat)
    requires i < |p| && i < |s|
    ensures HasPrefix(s, p) ==> s[i] == p[i]
  {
    if |p| <= |s| {
      assert s[..|p|][i] == s[i];
    }
  }

  /** Characters before the first backtick. */
  function Run(s: string): string {
    if s == "" || s[0] == '`' then "" else [s[0]] + Run(s[1..])
  }

  /** A host token right at the start: its host and its length. */
  function MatchAfter(s: string, skip: nat): Option<(string, nat)>
    requires skip <= |s|
  {
    var host := Run(s[skip..]);
    RunIsPrefix(s[skip..]);
    var end := skip + |host|;
    if host != "" && HasPrefix(s[end..], CLOSE_TOKEN) then Some((host, end + 2)) else None
  }

  function MatchToken(s: string): Option<(string, nat)> {
    if HasPrefix(s, HOST) then MatchAfter(s, |HOST|)
    else if HasPrefix(s, HOST_SNI) then MatchAfter(s, |HOST_SNI|)
    else None
  }

  lemma {:induction false} RunIsPrefix(s: string)
    ensures HasPrefix(s, Run(s)) && '`' !in Run(s)
    ensures |Run(s)| < |s| ==> s[|Run(s)|] == '`'
  {
    if s != "" && s[0] != '`' {
      RunIsPrefix(s[1..]);
      assert s[..|Run(s)|] == [s[0]] + s[1..][..|Run(s)| - 1];
    }
  }

  lemma MatchTokenShape(s: string)
    ensures MatchToken(s).Some? ==>
              var (host, n) := MatchToken(s).value;
              6 < n <= |s| && host != "" && '`' !in host
  {
    if HasPrefix(s, HOST) {
      RunIsPrefix(s[|HOST|..]);
    } else if HasPrefix(s, HOST_SNI) {
      RunIsPrefix(s[|HOST_SNI|..]);
    }
  }

  /** Every host token of a rule, leftmost first and without overlap. */
  function Hosts(s: string): seq<string>
    decreases |s|
  {
    if s == "" then []
    else
      MatchTokenShape(s);
      match MatchToken(s)
      case Some((host, n)) => [host] + Hosts(s[n..])
      case None => Hosts(s[1..])
  }

  /** `splitRule`: the hosts and what follows the host expression; None leaves the router alone. */
  function SplitRule(rule: string, sni: bool): Option<(seq<string>, string)> {
    var hosts := Hosts(rule);
    if hosts == [] then None
    else
      var prefix := MatchRule(hosts, sni);
      if HasPrefix(rule, prefix) then Some((hosts, rule[|prefix|..])) else None
  }

  // ---------------------------------------------------------------- the parser reads what the printer wrote

  predicate Printable(hosts: seq<string>) {
    && hosts != []
    && forall h | h in hosts :: h != "" && '`' !in h
  }

  lemma {:induction false} RunUpToBacktick(host: string, t: string)
    requires '`' !in host && t != "" && t[0] == '`'
    ensures Run(host + t) == host
    decreases |host|
  {
    if host == "" {
      assert host + t == t;
    } else {
      RunUpToBacktick(host[1..], t);
      assert (host + t)[1..] == host[1..] + t;
    }
  }

  lemma MatchPrinted(host: string, sni: bool, t: string)
    requires host != "" && '`' !in host
    ensures MatchToken(Token(host, sni) + t) == Some((host, |Token(host, sni)|))
  {
    var rest := host + (CLOSE_TOKEN + t);
    var s, skip := Opening(sni) + rest, |Opening(sni)|;
    assert Token(host, sni) + t == s;
    TokenLength(host, sni);
    hide MatchToken, MatchAfter, Token;
    OpeningFound(sni, rest);
    assert s[skip..] == rest;
    MatchAfterPrinted(s, skip, host, t);
  }

  lemma OpeningFound(sni: bool, rest: string)
    ensures MatchToken(Opening(sni) + rest) == MatchAfter(Opening(sni) + rest, |Opening(sni)|)
  {
    hide HasPrefix, MatchAfter;
    var s := Opening(sni) + rest;
    PrefixOfSum(Opening(sni), rest);
    if sni {
      assert s[4] == HOST_SNI[4];
      PrefixAgrees(s, HOST, 4);
    }
  }

  lemma PrefixOfSum(p: string, t: string)
    ensures HasPrefix(p + t, p)
  {
    assert (p + t)[..|p|] == p;
  }

  lemma TokenLength(host: string, sni: bool)
    ensures |Token(host, sni)| == |Opening(sni)| + |host| + 2
  {
  }

  lemma MatchAfterPrinted(s: string, skip: nat, host: string, t: string)
    requires skip <= |s| && s[skip..] == host + (CLOSE_TOKEN + t) && host != "" && '`' !in host
    ensures MatchAfter(s, skip) == Some((host, skip + |host| + 2))
  {
    RunUpToBacktick(host, CLOSE_TOKEN + t);
    hide Run;
    var end := skip + |host|;
    assert s[end..] == s[skip..][|host|..] == CLOSE_TOKEN + t;
    assert s[end..][..2] == CLOSE_TOKEN;
  }

  lemma HostsPrinted(host: string, sni: bool, t: string)
    requires host != "" && '`' !in host
    ensures Hosts(Token(host, sni) + t) == [host] + Hosts(t)
  {
    MatchPrinted(host, sni, t);
    assert (Token(host, sni) + t)[|Token(host, sni)|..] == t;
  }

  /** Text before the next 'H' holds no token. */
  lemma {:induction false} HostsSkip(pre: string, t: string)
    requires 'H' !in pre
    ensures Hosts(pre + t) == Hosts(t)
    decreases |pre|
  {
    if pre == "" {
      assert pre + t == t;
    } else {
      var s := pre + t;
      assert s[0] != 'H';
      assert !HasPrefix(s, HOST) && !HasPrefix(s, HOST_SNI) by {
        assert HOST[0] == 'H' && HOST_SNI[0] == 'H';
      }
      assert s[1..] == pre[1..] + t;
      HostsSkip(pre[1..], t);
    }
  }

  lemma {:induction false} HostsOfAlternatives(hosts: seq<string>, sni: bool, t: string)
    requires Printable(hosts)
    ensures Hosts(Alternatives(hosts, sni) + t) == hosts + Hosts(t)
    decreases |hosts|
  {
    hide Hosts, Token;
    assert hosts[0] in hosts;
    if |hosts| == 1 {
      HostsPrinted(hosts[0], sni, t);
      assert hosts == [hosts[0]];
    } else {
      assert forall h | h in hosts[1..] :: h in hosts;
      var tail := Alternatives(hosts[1..], sni) + t;
      HostsOfAlternatives(hosts[1..], sni, t);
      HostsSkip(OR, tail);
      HostsPrinted(hosts[0], sni, OR + tail);
      assert Alternatives(hosts, sni) + t == Token(hosts[0], sni) + (OR + tail);
      assert hosts == [hosts[0]] + hosts[1..];
      assert [hosts[0]] + (hosts[1..] + Hosts(t)) == hosts + Hosts(t);
    }
  }

  lemma HostsOfRule(hosts: seq<string>, sni: bool, rest: string)
    requires Printable(hosts)
    ensures Hosts(MatchRule(hosts, sni) + rest) == hosts + Hosts(rest)
  {
    hide Hosts, Alternatives;
    if |hosts| == 1 {
      HostsOfAlternatives(hosts, sni, rest);
    } else {
      var tail := ")" + rest;
      HostsOfAlternatives(hosts, sni, tail);
      HostsSkip(")", rest);
      HostsSkip("(", Alternatives(hosts, sni) + tail);
      assert MatchRule(hosts, sni) + rest == "(" + (Alternatives(hosts, sni) + tail);
    }
  }

  /** Printing more hosts does not extend a printed rule: the two differ right after the old hosts. */
  lemma {:induction false} AlternativesDiverge(hosts: seq<string>, more: seq<string>, sni: bool, t: string)
    requires hosts != [] && more != []
    ensures !HasPrefix(Alternatives(hosts, sni) + ")" + t, Alternatives(hosts + more, sni))
    decreases |hosts|
  {
    var a, b := Alternatives(hosts, sni) + ")" + t, Alternatives(hosts + more, sni);
    var tok := Token(hosts[0], sni);
    assert (hosts + more)[0] == hosts[0];
    if |hosts| == 1 {
      assert (hosts + more)[1..] == more;
      assert b == tok + (OR + Alternatives(more, sni));
      assert a[|tok|] == ')' && b[|tok|] == ' ';
      PrefixAgrees(a, b, |tok|);
    } else {
      assert (hosts + more)[1..] == hosts[1..] + more;
      AlternativesDiverge(hosts[1..], more, sni, t);
      var a', b' := Alternatives(hosts[1..], sni) + ")" + t, Alternatives(hosts[1..] + more, sni);
      assert a == (tok + OR) + a' && b == (tok + OR) + b';
      PrefixCancel(tok + OR, a', b');
    }
  }

  lemma {:induction false} StartsWithHost(hosts: seq<string>, sni: bool)
    requires hosts != []
    ensures Alternatives(hosts, sni) != "" && Alternatives(hosts, sni)[0] == 'H'
  {
    assert Token(hosts[0], sni)[0] == 'H';
  }

  /**
   * Round trip: a generated rule splits into exactly the hosts it was printed from and the text
   * after them, if and only if that text holds no host token of its own. When it does, the rule
   * is reported as foreign and the router is left alone.
   */
  lemma SplitPrinted(hosts: seq<string>, sni: bool, rest: string)
    requires Printable(hosts)
    ensures SplitRule(MatchRule(hosts, sni) + rest, sni) == if Hosts(rest) == [] then Some((hosts, rest)) else None
  {
    hide Hosts, MatchRule;
    var prefix, more := MatchRule(hosts, sni), Hosts(rest);
    HostsOfRule(hosts, sni, rest);
    if more == [] {
      assert hosts + more == hosts;
      assert (prefix + rest)[..|prefix|] == prefix;
      assert (prefix + rest)[|prefix|..] == rest;
    } else {
      RulesDiverge(hosts, more, sni, rest);
    }
  }

  /** A printed rule never starts with the print of its hosts plus some more. */
  lemma RulesDiverge(hosts: seq<string>, more: seq<string>, sni: bool, rest: string)
    requires hosts != [] && more != []
    ensures !HasPrefix(MatchRule(hosts, sni) + rest, MatchRule(hosts + more, sni))
  {
    hide Alternatives;
    var rule := MatchRule(hosts, sni) + rest;
    if |hosts| == 1 {
      StartsWithHost(hosts, sni);
      PrefixAgrees(rule, MatchRule(hosts + more, sni), 0);
    } else {
      AlternativesDiverge(hosts, more, sni, rest);
      var a, b := Alternatives(hosts, sni) + ")" + rest, Alternatives(hosts + more, sni);
      assert rule == "(" + a;
      assert MatchRule(hosts + more, sni) == "(" + (b + ")");
      PrefixCancel("(", a, b + ")");
      PrefixShorten(a, b, ")");
    }
  }

  /** What a successful split says: printable hosts, and a rule that is their print plus the rest. */
  lemma SplitSound(rule: string, sni: bool)
    requires SplitRule(rule, sni).Some?
    ensures
      var (hosts, rest) := SplitRule(rule, sni).value;
      Printable(hosts) && rule == MatchRule(hosts, sni) + rest && Hosts(rest) == []
  {
    var (hosts, rest) := SplitRule(rule, sni).value;
    hide Hosts, MatchRule;
    HostsArePrintable(rule);
    assert rule == MatchRule(hosts, sni) + rest;
    HostsOfRule(hosts, sni, rest);
    assert |hosts + Hosts(rest)| == |hosts|;
  }

  lemma {:induction false} HostsArePrintable(s: string)
    ensures forall h | h in Hosts(s) :: h != "" && '`' !in h
    decreases |s|
  {
    if s != "" {
      MatchTokenShape(s);
      match MatchToken(s)
      case Some((host, n)) => HostsArePrintable(s[n..]);
      case None => HostsArePrintable(s[1..]);
    }
  }

  /** A rule of one kind is never split as the other: HTTP and TCP routers do not mix. */
  lemma KindsDoNotMix(hosts: seq<string>, rest: string)
    requires Printable(hosts)
    ensures SplitRule(MatchRule(hosts, true) + rest, false) == None
    ensures SplitRule(MatchRule(hosts, false) + rest, true) == None
  {
    KindDiffers(hosts, rest, true);
    KindDiffers(hosts, rest, false);
  }

  lemma KindDiffers(hosts: seq<string>, rest: string, sni: bool)
    requires Printable(hosts)
    ensures SplitRule(MatchRule(hosts, sni) + rest, !sni) == None
  {
    hide Hosts, Alternatives;
    HostsOfRule(hosts, sni, rest);
    var all := hosts + Hosts(rest);
    FifthChar(hosts, sni);
    FifthChar(all, !sni);
    StartsWithHost(hosts, sni);
    StartsWithHost(all, !sni);
    var rule, prefix := MatchRule(hosts, sni) + rest, MatchRule(all, !sni);
    PrefixAgrees(rule, prefix, 0);
    PrefixAgrees(rule, prefix, 4);
    PrefixAgrees(rule, prefix, 5);
  }

  lemma FifthChar(hosts: seq<string>, sni: bool)
    requires hosts != []
    ensures |Alternatives(hosts, sni)| > 5 && Alternatives(hosts, sni)[4] == if sni then 'S' else '('
  {
    var tok := Token(hosts[0], sni);
    assert tok[4] == Opening(sni)[4];
    assert Alternatives(hosts, sni)[4] == tok[4];
  }
}
