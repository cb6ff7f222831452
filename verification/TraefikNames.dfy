/**
 * The names of generated routers as text: which ones one deployment writes, and which ones can
 * coincide with a name of another deployment.
 */
module TraefikNames {
  import opened Wrappers
  import opened TextTools
  import opened HostRules
  import opened CfTunnel
  import opened TraefikConfig

  // ---------------------------------------------------------------- names with a number at the end

  const ALIAS := "-alias-"
  const BYPASS := "-bypass-"

  predicate IsDigit(c: char) {
    '0' <= c <= '9'
  }

  /** The text without its trailing digits. */
  function Stem(s: string): string {
    if s != "" && IsDigit(s[|s| - 1]) then Stem(s[..|s| - 1]) else s
  }

  function Numbered(stem: string, i: nat): string {
    stem + Digits(i)
  }

  lemma {:induction false} DigitsAreDigits(n: nat)
    ensures Digits(n) != "" && forall i | 0 <= i < |Digits(n)| :: IsDigit(Digits(n)[i])
  {
    if n >= 10 {
      DigitsAreDigits(n / 10);
    }
  }

  lemma {:induction false} DigitsInjective(n: nat, m: nat)
    ensures Digits(n) == Digits(m) ==> n == m
  {
    DigitsAreDigits(n / 10);
    DigitsAreDigits(m / 10);
    if Digits(n) == Digits(m) {
      var d := Digits(n);
      assert d[|d| - 1] == ('0' as int + n % 10) as char;
      assert d[|d| - 1] == ('0' as int + m % 10) as char;
      assert n % 10 == m % 10;
      if n >= 10 && m >= 10 {
        assert d[..|d| - 1] == Digits(n / 10) && d[..|d| - 1] == Digits(m / 10);
        DigitsInjective(n / 10, m / 10);
      }
    }
  }

  lemma {:induction false} StemDropsDigits(x: string, ds: string)
    requires forall i | 0 <= i < |ds| :: IsDigit(ds[i])
    ensures Stem(x + ds) == Stem(x)
    decreases |ds|
  {
    if ds == "" {
      assert x + ds == x;
    } else {
      assert (x + ds)[..|x + ds| - 1] == x + ds[..|ds| - 1];
      StemDropsDigits(x, ds[..|ds| - 1]);
    }
  }

  /** A stem that ends in no digit can be read back, and so can the number. */
  lemma NumberedReads(stem: string, i: nat)
    requires stem != "" && !IsDigit(stem[|stem| - 1])
    ensures Stem(Numbered(stem, i)) == stem
    ensures IsDigit(Numbered(stem, i)[|Numbered(stem, i)| - 1])
  {
    DigitsAreDigits(i);
    StemDropsDigits(stem, Digits(i));
  }

  lemma NumberedInjective(a: string, i: nat, b: string, j: nat)
    requires a != "" && b != "" && !IsDigit(a[|a| - 1]) && !IsDigit(b[|b| - 1])
    ensures Numbered(a, i) == Numbered(b, j) ==> a == b && i == j
  {
    NumberedReads(a, i);
    NumberedReads(b, j);
    if Numbered(a, i) == Numbered(b, j) {
      assert Numbered(a, i)[|a|..] == Digits(i);
      assert Numbered(b, j)[|b|..] == Digits(j);
      DigitsInjective(i, j);
    }
  }

  // ---------------------------------------------------------------- groups of one deployment

  /** Group 0 is the default hosts, group a + 1 the alias number a. */
  predicate IsGroup(d: Deployed, g: nat) {
    g <= |d.aliases|
  }

  function GroupName(d: Deployed, g: nat): string {
    if g == 0 then d.prefix else AliasName(d, g - 1)
  }

  function GroupHosts(d: Deployed, g: nat, bases: seq<string>): seq<string>
    requires IsGroup(d, g)
  {
    if g == 0 then HostsForPrefix(d.prefix, bases) else [d.aliases[g - 1]]
  }

  function BypassName(name: string, i: nat): string {
    name + "-bypass-" + Digits(i)
  }

  /** Line `i` of the bypass paths makes a router in every group. */
  predicate BypassLine(d: Deployed, i: nat) {
    var lines := Split(d.bypass, '\n');
    d.needsAuth && d.bypass != "" && i < |lines| && Trim(lines[i]) != ""
  }

  function BypassPath(d: Deployed, i: nat): string
    requires BypassLine(d, i)
  {
    Trim(Split(d.bypass, '\n')[i])
  }

  function FacingOf(d: Deployed, g: nat, bases: seq<string>): Emission
    requires IsGroup(d, g)
  {
    Facing(GroupName(d, g), GroupHosts(d, g, bases), d)
  }

  function FlowOf(d: Deployed, g: nat, bases: seq<string>): Emission
    requires IsGroup(d, g)
  {
    var hosts := GroupHosts(d, g, bases);
    DeviceFlow(GroupName(d, g), hosts, Certified(hosts), d.project)
  }

  function BypassOf(d: Deployed, g: nat, i: nat, bases: seq<string>): Emission
    requires IsGroup(d, g) && BypassLine(d, i)
  {
    var hosts := GroupHosts(d, g, bases);
    Emission(BypassName(GroupName(d, g), i),
             BypassRouter(GroupName(d, g), hosts, Certified(hosts), BypassPath(d, i)), d.project)
  }

  /** `e` is one of the routers of group `g`. */
  predicate InGroupOf(e: Emission, d: Deployed, g: nat, bases: seq<string>)
    requires IsGroup(d, g)
  {
    || e == FacingOf(d, g, bases)
    || e == FlowOf(d, g, bases)
    || exists i: nat | i < |Split(d.bypass, '\n')| :: BypassLine(d, i) && e == BypassOf(d, g, i, bases)
  }

  predicate BypassAt(
      name: string, hosts: seq<string>, tls: Option<Tls>, lines: seq<string>, owner: nat, j: nat, e: Emission)
  {
    && j < |lines| && Trim(lines[j]) != ""
    && e == Emission(BypassName(name, j), BypassRouter(name, hosts, tls, Trim(lines[j])), owner)
  }

  lemma BypassStep(
      name: string, hosts: seq<string>, tls: Option<Tls>, lines: seq<string>, i: nat, owner: nat, e: Emission)
    requires i < |lines|
    ensures e in BypassFrom(name, hosts, tls, lines, i, owner) <==>
            BypassAt(name, hosts, tls, lines, owner, i, e) || e in BypassFrom(name, hosts, tls, lines, i + 1, owner)
  {
    hide BypassRouter, Trim, Digits;
  }

  lemma BypassEnd(name: string, hosts: seq<string>, tls: Option<Tls>, lines: seq<string>, owner: nat)
    ensures BypassFrom(name, hosts, tls, lines, |lines|, owner) == []
  {
    hide BypassRouter, Trim, Digits;
  }

  lemma {:induction false} BypassFromIs(
      name: string, hosts: seq<string>, tls: Option<Tls>, lines: seq<string>, i: nat, owner: nat, e: Emission)
    requires i <= |lines|
    ensures e in BypassFrom(name, hosts, tls, lines, i, owner) <==>
            exists j: nat | i <= j < |lines| :: BypassAt(name, hosts, tls, lines, owner, j, e)
    decreases |lines| - i
  {
    hide *;
    if i == |lines| {
      BypassEnd(name, hosts, tls, lines, owner);
    } else {
      BypassStep(name, hosts, tls, lines, i, owner, e);
      BypassFromIs(name, hosts, tls, lines, i + 1, owner, e);
    }
  }

  lemma GroupHas(name: string, hosts: seq<string>, d: Deployed, e: Emission)
    ensures e in Group(name, hosts, d) <==>
            || e == Facing(name, hosts, d)
            || e == DeviceFlow(name, hosts, Certified(hosts), d.project)
            || e in Bypass(name, hosts, Certified(hosts), d)
  {
    hide Bypass, Facing, DeviceFlow;
  }

  lemma BypassIs(d: Deployed, g: nat, bases: seq<string>, e: Emission)
    requires IsGroup(d, g)
    ensures
      var hosts := GroupHosts(d, g, bases);
      e in Bypass(GroupName(d, g), hosts, Certified(hosts), d) <==>
      exists i: nat | i < |Split(d.bypass, '\n')| :: BypassLine(d, i) && e == BypassOf(d, g, i, bases)
  {
    var hosts, lines := GroupHosts(d, g, bases), Split(d.bypass, '\n');
    BypassFromIs(GroupName(d, g), hosts, Certified(hosts), lines, 0, d.project, e);
    forall i: nat | i < |lines| && d.needsAuth && d.bypass != ""
      ensures BypassAt(GroupName(d, g), hosts, Certified(hosts), lines, d.project, i, e) <==>
              BypassLine(d, i) && e == BypassOf(d, g, i, bases)
    {
    }
    hide BypassFrom, Split, BypassAt, BypassOf, GroupHosts, GroupName;
  }

  lemma GroupIs(d: Deployed, g: nat, bases: seq<string>, e: Emission)
    requires IsGroup(d, g)
    ensures e in Group(GroupName(d, g), GroupHosts(d, g, bases), d) <==> InGroupOf(e, d, g, bases)
  {
    GroupHas(GroupName(d, g), GroupHosts(d, g, bases), d, e);
    BypassIs(d, g, bases, e);
    hide Bypass, Split, GroupHosts, GroupName, Facing, DeviceFlow, Group, BypassLine, BypassOf;
  }

  lemma {:induction false} AliasesAre(d: Deployed, i: nat, e: Emission)
    requires i <= |d.aliases|
    ensures e in AliasesFrom(d, i) <==>
            exists a: nat | i <= a < |d.aliases| :: e in Group(AliasName(d, a), [d.aliases[a]], d)
    decreases |d.aliases| - i
  {
    hide Group, AliasName;
    if i < |d.aliases| {
      AliasesAre(d, i + 1, e);
    }
  }

  /** What a deployment writes is exactly its groups' routers. */
  lemma EmitIs(d: Deployed, bases: seq<string>, e: Emission)
    ensures e in Emit(d, bases) <==> exists g: nat | IsGroup(d, g) :: InGroupOf(e, d, g, bases)
  {
    AliasesAre(d, 0, e);
    forall g: nat | IsGroup(d, g)
      ensures e in Group(GroupName(d, g), GroupHosts(d, g, bases), d) <==> InGroupOf(e, d, g, bases)
    {
      GroupIs(d, g, bases, e);
    }
    hide Group, AliasName, InGroupOf, HostsForPrefix, AliasesFrom;
    if e in Group(d.prefix, HostsForPrefix(d.prefix, bases), d) {
      assert InGroupOf(e, d, 0, bases);
    }
    if a: nat :| a < |d.aliases| && e in Group(AliasName(d, a), [d.aliases[a]], d) {
      assert InGroupOf(e, d, a + 1, bases);
    }
    if g: nat :| IsGroup(d, g) && InGroupOf(e, d, g, bases) {
      assert e in Group(GroupName(d, g), GroupHosts(d, g, bases), d);
      if g > 0 {
        assert e in Group(AliasName(d, g - 1), [d.aliases[g - 1]], d);
      }
    }
  }

  // ---------------------------------------------------------------- names that cannot coincide

  lemma LastChar(a: string, b: string)
    requires b != ""
    ensures (a + b)[|a + b| - 1] == b[|b| - 1]
  {
  }

  /** An alias name determines its prefix and its number. */
  lemma AliasInjective(p: string, a: nat, q: string, b: nat)
    ensures p + ALIAS + Digits(a) == q + ALIAS + Digits(b) ==> p == q && a == b
  {
    LastChar(p, ALIAS);
    LastChar(q, ALIAS);
    NumberedInjective(p + ALIAS, a, q + ALIAS, b);
    assert (p + ALIAS)[..|p + ALIAS| - |ALIAS|] == p;
    assert (q + ALIAS)[..|q + ALIAS| - |ALIAS|] == q;
  }

  lemma BypassInjective(p: string, i: nat, q: string, j: nat)
    ensures BypassName(p, i) == BypassName(q, j) ==> p == q && i == j
  {
    LastChar(p, BYPASS);
    LastChar(q, BYPASS);
    NumberedInjective(p + BYPASS, i, q + BYPASS, j);
    assert (p + BYPASS)[..|p + BYPASS| - |BYPASS|] == p;
    assert (q + BYPASS)[..|q + BYPASS| - |BYPASS|] == q;
  }

  lemma FlowInjective(p: string, q: string)
    ensures p + DEVICE_FLOW == q + DEVICE_FLOW ==> p == q
  {
    assert (p + DEVICE_FLOW)[..|p + DEVICE_FLOW| - |DEVICE_FLOW|] == p;
    assert (q + DEVICE_FLOW)[..|q + DEVICE_FLOW| - |DEVICE_FLOW|] == q;
  }

  /** An alias name ends in `s-` and a number with an `a` before it, a bypass name with an `s`. */
  lemma AliasNotBypass(p: string, a: nat, q: string, i: nat)
    ensures p + ALIAS + Digits(a) != BypassName(q, i)
  {
    LastChar(p, ALIAS);
    LastChar(q, BYPASS);
    NumberedInjective(p + ALIAS, a, q + BYPASS, i);
    assert (p + ALIAS)[|p + ALIAS| - 3] == 'a';
    assert (q + BYPASS)[|q + BYPASS| - 3] == 's';
  }

  lemma NumberNotFlow(stem: string, a: nat, q: string)
    ensures stem + Digits(a) != q + DEVICE_FLOW
  {
    DigitsAreDigits(a);
    LastChar(stem, Digits(a));
    LastChar(q, DEVICE_FLOW);
    assert DEVICE_FLOW[|DEVICE_FLOW| - 1] == 'w';
  }

  lemma AliasNameIs(d: Deployed, a: nat)
    ensures AliasName(d, a) == d.prefix + ALIAS + Digits(a)
    ensures |AliasName(d, a)| > |d.prefix|
  {
  }

  /** The groups of a deployment have distinct names. */
  lemma GroupNamesDistinct(d: Deployed, g: nat, k: nat)
    ensures GroupName(d, g) == GroupName(d, k) ==> g == k
    ensures |GroupName(d, g)| >= |d.prefix|
  {
    if g > 0 {
      AliasNameIs(d, g - 1);
    }
    if k > 0 {
      AliasNameIs(d, k - 1);
    }
    if g > 0 && k > 0 {
      AliasInjective(d.prefix, g - 1, d.prefix, k - 1);
    }
    hide AliasName;
  }

  /** Sign-in and bypass routers of group `g`. */
  predicate SideOf(d: Deployed, g: nat, n: string) {
    || n == GroupName(d, g) + DEVICE_FLOW
    || exists i: nat | i < |Split(d.bypass, '\n')| :: BypassLine(d, i) && n == BypassName(GroupName(d, g), i)
  }

  ghost predicate SideName(d: Deployed, n: string) {
    exists g: nat | IsGroup(d, g) :: SideOf(d, g, n)
  }

  /** A deployment writes the names of its groups and their side names, nothing else. */
  ghost predicate Emits(d: Deployed, n: string) {
    (exists g: nat | IsGroup(d, g) :: n == GroupName(d, g)) || SideName(d, n)
  }

  /** No side name of any deployment is an alias name. */
  lemma SideNotAlias(d: Deployed, g: nat, p: string, a: nat)
    ensures !SideOf(d, g, p + ALIAS + Digits(a))
  {
    NumberNotFlow(p + ALIAS, a, GroupName(d, g));
    forall i: nat
      ensures p + ALIAS + Digits(a) != BypassName(GroupName(d, g), i)
    {
      AliasNotBypass(p, a, GroupName(d, g), i);
    }
    hide GroupName, BypassName, Digits, Split, BypassLine;
  }

  /** No side name of a deployment is one of its group names. */
  lemma SideNotGroup(d: Deployed, g: nat, k: nat)
    ensures !SideOf(d, g, GroupName(d, k))
  {
    if k == 0 {
      GroupNamesDistinct(d, g, k);
      assert GroupName(d, k) == d.prefix;
      hide GroupName, Digits, Split, BypassLine;
    } else {
      AliasNameIs(d, k - 1);
      SideNotAlias(d, g, d.prefix, k - 1);
      hide SideOf;
    }
  }

  /**
   * Which names of other deployments can take a group's name: for an alias only a prefix that spells
   * it out, for the default group any other name.
   */
  lemma TakesGroupName(d: Deployed, g: nat, o: Deployed)
    requires IsGroup(d, g) && o.prefix != d.prefix
    ensures Emits(o, GroupName(d, g)) <==>
            if g == 0 then SideName(o, d.prefix) || exists a: nat | a < |o.aliases| :: d.prefix == AliasName(o, a)
            else o.prefix == GroupName(d, g)
  {
    if g == 0 {
      assert GroupName(d, 0) == d.prefix;
      hide GroupName, SideName, AliasName;
      GroupZero(o);
      forall k: nat | 0 < k && IsGroup(o, k)
        ensures GroupName(o, k) == AliasName(o, k - 1)
      {
        GroupPositive(o, k);
      }
      if a: nat :| a < |o.aliases| && d.prefix == AliasName(o, a) {
        assert d.prefix == GroupName(o, a + 1);
      }
    } else {
      AliasNameIs(d, g - 1);
      forall k: nat | IsGroup(o, k)
        ensures !SideOf(o, k, GroupName(d, g))
        ensures GroupName(o, k) == GroupName(d, g) ==> k == 0
      {
        SideNotAlias(o, k, d.prefix, g - 1);
        if k > 0 {
          AliasNameIs(o, k - 1);
          AliasInjective(o.prefix, k - 1, d.prefix, g - 1);
        }
      }
      hide AliasName, SideOf;
      assert IsGroup(o, 0) && GroupName(o, 0) == o.prefix;
    }
  }

  lemma GroupZero(d: Deployed)
    ensures GroupName(d, 0) == d.prefix && IsGroup(d, 0)
  {
  }

  lemma GroupPositive(d: Deployed, g: nat)
    requires g > 0
    ensures GroupName(d, g) == AliasName(d, g - 1)
  {
  }
}
