/**
 * Comma-separated whitelists: how the handlers canonicalise them before storing, and that reading
 * the canonical text back means what the administrator wrote.
 */
module Whitelists {
  import opened Wrappers
  import opened TextTools

  /** A token as it is compared: trimmed and lower-cased. */
  function Name(tok: string): string {
    Lower(Trim(tok))
  }

  /** A name that survives being written into a list and read back. */
  predicate Clean(s: string) {
    s != "" && Trimmed(s) && Lower(s) == s && ',' !in s
  }

  predicate AllClean(names: seq<string>) {
    forall n | n in names :: Clean(n)
  }

  predicate Distinct(names: seq<string>) {
    forall i, j | 0 <= i < j < |names| :: names[i] != names[j]
  }

  /** The names of all tokens, blank ones left out. */
  function NamesOf(parts: seq<string>): set<string> {
    set t | t in parts && Name(t) != "" :: Name(t)
  }

  function Names(raw: string): set<string> {
    NamesOf(Split(raw, ','))
  }

  predicate Blank(raw: string) {
    Trim(raw) == ""
  }

  // ---------------------------------------------------------------- text facts

  lemma {:induction false} TrimRightOnlySpaces(s: string)
    requires TrimRight(s) == ""
    ensures forall c | c in s :: IsSpace(c)
    decreases |s|
  {
    if s != "" {
      TrimRightOnlySpaces(s[..|s| - 1]);
      assert s == s[..|s| - 1] + [s[|s| - 1]];
    }
  }

  lemma {:induction false} TrimLeftDropsSpaces(s: string)
    ensures forall c | c in s :: IsSpace(c) || c in TrimLeft(s)
    ensures forall c | c in TrimLeft(s) :: c in s
    decreases |s|
  {
    if s != "" && IsSpace(s[0]) {
      TrimLeftDropsSpaces(s[1..]);
      assert s == [s[0]] + s[1..];
    }
  }

  lemma {:induction false} TrimRightKeepsChars(s: string)
    ensures forall c | c in TrimRight(s) :: c in s
    decreases |s|
  {
    if s != "" && IsSpace(s[|s| - 1]) {
      TrimRightKeepsChars(s[..|s| - 1]);
    }
  }

  /** A blank text is one blank token. */
  lemma BlankHasNoNames(raw: string)
    requires Blank(raw)
    ensures Names(raw) == {}
  {
    TrimRightOnlySpaces(TrimLeft(raw));
    TrimLeftDropsSpaces(raw);
    assert ',' !in raw;
    SplitPlain(raw, ',');
  }

  /** Tokens hold no comma, so their names are clean. */
  lemma NamesAreClean(raw: string)
    ensures forall n | n in Names(raw) :: Clean(n)
  {
    SplitCovers(raw, ',');
    forall t | t in Split(raw, ',') && Name(t) != ""
      ensures Clean(Name(t))
    {
      TokenIsClean(t);
    }
  }

  lemma TokenIsClean(t: string)
    requires ',' !in t && Name(t) != ""
    ensures Clean(Name(t))
  {
    TrimIsTrimmed(t);
    LowerKeepsTrimmed(Trim(t));
    LowerAgain(Trim(t));
    TrimLeftDropsSpaces(t);
    TrimRightKeepsChars(TrimLeft(t));
    assert ',' !in Trim(t);
    forall i | 0 <= i < |Trim(t)|
      ensures Lower(Trim(t))[i] != ','
    {
      assert Trim(t)[i] in Trim(t);
    }
  }

  lemma CleanIsItsName(n: string)
    requires Clean(n)
    ensures Name(n) == n
  {
    TrimmedStays(n);
  }

  /** Joining clean names loses nothing. */
  lemma {:induction false} JoinedNames(names: seq<string>)
    requires names != [] && AllClean(names)
    ensures Split(Join(names, ','), ',') == names
    ensures Names(Join(names, ',')) == set n | n in names
    ensures Trim(Join(names, ',')) == Join(names, ',') != ""
    ensures Lower(Join(names, ',')) == Join(names, ',')
  {
    SplitJoin(names, ',');
    forall n | n in names
      ensures Name(n) == n && n != ""
    {
      CleanIsItsName(n);
    }
    JoinIsTrimmed(names);
    TrimmedStays(Join(names, ','));
    assert forall x | x in NamesOf(names) :: x in names;
    assert forall n | n in names :: Name(n) in NamesOf(names);
    hide Split, Name, Join;
  }

  lemma {:induction false} JoinIsTrimmed(names: seq<string>)
    requires names != [] && AllClean(names)
    ensures var s := Join(names, ','); s != "" && Trimmed(s) && Lower(s) == s
    decreases |names|
  {
    assert Clean(names[0]);
    if |names| > 1 {
      var tail := Join(names[1..], ',');
      assert forall n | n in names[1..] :: n in names;
      JoinIsTrimmed(names[1..]);
      var s := names[0] + [','] + tail;
      assert s == Join(names, ',');
      LowerOfSum(names[0], tail);
      assert s[0] == names[0][0] && s[|s| - 1] == tail[|tail| - 1];
    }
  }

  lemma LowerOfSum(a: string, b: string)
    requires Lower(a) == a && Lower(b) == b
    ensures Lower(a + [','] + b) == a + [','] + b
  {
    var s := a + [','] + b;
    forall i | 0 <= i < |s|
      ensures LowerChar(s[i]) == s[i]
    {
      if i < |a| {
        assert s[i] == Lower(a)[i];
      } else if i > |a| {
        assert s[i] == Lower(b)[i - |a| - 1];
      }
    }
  }

  // ---------------------------------------------------------------- project types

  /** Every known project type, in the order lists are written. */
  const PROJECT_TYPES := ["deployment", "compose", "image", "build", "domain_only"]

  datatype TypesError = UnknownType | NoTypeNamed

  /** The names of `known` that were asked for, in the order of `known`. */
  function Pick(known: seq<string>, wanted: set<string>): seq<string> {
    if known == [] then []
    else (if known[0] in wanted then [known[0]] else []) + Pick(known[1..], wanted)
  }

  /** `normaliseEnabledProjectTypes` */
  function NormaliseTypes(raw: string, known: seq<string>): Result<string, TypesError> {
    if Blank(raw) then Ok("")
    else if exists n | n in Names(raw) :: n !in known then Err(UnknownType)
    else if Names(raw) == {} then Err(NoTypeNamed)
    else Ok(Join(Pick(known, Names(raw)), ','))
  }

  /** `parseEnabledProjectTypes`: the permissive reading of a stored list. */
  function ParseTypes(raw: string, known: seq<string>): seq<string> {
    var picked := Pick(known, Names(raw));
    if picked == [] then known else picked
  }

  lemma {:induction false} PickFacts(known: seq<string>, wanted: set<string>)
    ensures forall n :: n in Pick(known, wanted) <==> n in known && n in wanted
  {
    if known != [] {
      PickFacts(known[1..], wanted);
      assert known == [known[0]] + known[1..];
    }
  }

  /** Picking by what was picked changes nothing. */
  lemma {:induction false} PickAgain(known: seq<string>, wanted: set<string>, other: set<string>)
    requires forall n | n in known :: n in wanted <==> n in other
    ensures Pick(known, wanted) == Pick(known, other)
  {
    if known != [] {
      assert forall n | n in known[1..] :: n in known;
      PickAgain(known[1..], wanted, other);
    }
  }

  method CollectNames(raw: string) returns (seen: set<string>)
    ensures seen == Names(raw)
  {
    seen := {};
    var parts := Split(raw, ',');
    hide Name, Split;
    for i := 0 to |parts|
      invariant seen == NamesOf(parts[..i])
    {
      var n := Name(parts[i]);
      assert parts[..i + 1] == parts[..i] + [parts[i]];
      if n != "" {
        seen := seen + {n};
      }
    }
    assert parts[..|parts|] == parts;
  }

  method NormaliseEnabledProjectTypes(raw: string, known: seq<string>) returns (r: Result<string, TypesError>)
    ensures r == NormaliseTypes(raw, known)
  {
    if Trim(raw) == "" {
      return Ok("");
    }
    var seen := {};
    var parts := Split(raw, ',');
    hide Name, Split, Trim;
    for i := 0 to |parts|
      invariant seen == NamesOf(parts[..i])
      invariant forall n | n in seen :: n in known
    {
      var n := Name(parts[i]);
      assert parts[..i + 1] == parts[..i] + [parts[i]];
      if n != "" {
        if n !in known {
          assert n in Names(raw);
          return Err(UnknownType);
        }
        seen := seen + {n};
      }
    }
    assert parts[..|parts|] == parts;
    if seen == {} {
      return Err(NoTypeNamed);
    }
    var out := PickLoop(known, seen);
    return Ok(Join(out, ','));
  }

  method PickLoop(known: seq<string>, seen: set<string>) returns (out: seq<string>)
    ensures out == Pick(known, seen)
  {
    out := [];
    for i := 0 to |known|
      invariant Pick(known, seen) == out + Pick(known[i..], seen)
    {
      assert known[i..][1..] == known[i + 1..];
      if known[i] in seen {
        out := out + [known[i]];
      }
    }
  }

  method ParseEnabledProjectTypes(raw: string, known: seq<string>) returns (out: seq<string>)
    ensures out == ParseTypes(raw, known)
  {
    var names := CollectNames(raw);
    out := PickLoop(known, names);
    if out == [] {
      out := known;
    }
  }

  /** The shape the canonical list has: not blank, and naming exactly what was asked for. */
  lemma NormalisedTypes(raw: string, known: seq<string>)
    requires AllClean(known) && NormaliseTypes(raw, known).Ok? && !Blank(raw)
    ensures
      var v := NormaliseTypes(raw, known).value;
      !Blank(v) && Names(v) == Names(raw) != {}
  {
    var picked := Pick(known, Names(raw));
    PickFacts(known, Names(raw));
    var n :| n in Names(raw);
    assert n in picked;
    assert AllClean(picked);
    JoinedNames(picked);
    hide Names, Join, Pick;
    assert (set x | x in picked) == Names(raw);
  }

  /** Canonicalising twice is canonicalising once, and the canonical list allows what the raw one did. */
  lemma TypesKeepMeaning(raw: string, known: seq<string>)
    requires AllClean(known) && NormaliseTypes(raw, known).Ok?
    ensures
      var v := NormaliseTypes(raw, known).value;
      NormaliseTypes(v, known) == Ok(v) && ParseTypes(v, known) == ParseTypes(raw, known)
  {
    if Blank(raw) {
      BlankHasNoNames(raw);
      assert Trim("") == "";
      BlankHasNoNames("");
    } else {
      NormalisedTypes(raw, known);
      hide Names, Join, Pick, Blank;
    }
  }

  /** Only an empty list lifts the restriction: an accepted one that names nothing does not exist. */
  lemma AcceptedTypesRestrict(raw: string, known: seq<string>)
    requires AllClean(known) && NormaliseTypes(raw, known).Ok?
    ensures forall t | t in known :: t in ParseTypes(raw, known) <==> Blank(raw) || t in Names(raw)
  {
    var picked := Pick(known, Names(raw));
    PickFacts(known, Names(raw));
    assert picked != [] ==> picked[0] in picked;
    if Blank(raw) {
      BlankHasNoNames(raw);
    } else {
      var n :| n in Names(raw);
      assert n in Pick(known, Names(raw));
    }
    hide Names, Pick, Blank;
  }

  /**
   * What is accepted: a blank text, and lists that name something and nothing unknown. A list without any
   * name is refused, so that "nothing" is never stored as "everything".
   */
  lemma TypesAcceptedIff(raw: string, known: seq<string>)
    ensures
      var r := NormaliseTypes(raw, known);
      && (r.Ok? <==> Blank(raw) || (Names(raw) != {} && forall n | n in Names(raw) :: n in known))
      && (r == Err(UnknownType) <==> !Blank(raw) && exists n | n in Names(raw) :: n !in known)
      && (r == Err(NoTypeNamed) <==> !Blank(raw) && Names(raw) == {})
      && (Blank(raw) ==> r == Ok(""))
  {
    hide Names, Blank, Pick, Join;
  }

  /** The reading of a stored list: the known types it names, or all of them when it names none. */
  lemma ParsedTypes(raw: string, known: seq<string>, t: string)
    ensures t in ParseTypes(raw, known) <==>
            t in known && (t in Names(raw) || forall n | n in known :: n !in Names(raw))
  {
    var picked := Pick(known, Names(raw));
    PickFacts(known, Names(raw));
    assert picked != [] ==> picked[0] in picked;
    assert t in picked ==> picked != [];
    forall n | n in known && n in Names(raw)
      ensures picked != []
    {
      assert n in picked;
    }
    hide Names, Pick;
  }

  lemma ProjectTypesAreClean()
    ensures AllClean(PROJECT_TYPES)
  {
    forall n | n in PROJECT_TYPES
      ensures Clean(n)
    {
      LowerLetters(n);
    }
  }

  lemma LowerLetters(n: string)
    requires n != "" && forall c | c in n :: 'a' <= c <= 'z' || c == '_'
    ensures Clean(n)
  {
    assert n[0] in n && n[|n| - 1] in n;
    assert forall i | 0 <= i < |n| :: n[i] in n;
    assert Lower(n) == n;
  }

  // ---------------------------------------------------------------- sign-in providers

  const NONE := "none"

  predicate SaysNone(raw: string) {
    Lower(Trim(raw)) == NONE
  }

  /** First occurrences of the non-blank names, in order. */
  function Dedup(parts: seq<string>): seq<string> {
    if parts == [] then []
    else
      var before, n := Dedup(parts[..|parts| - 1]), Name(parts[|parts| - 1]);
      if n == "" || n in before then before else before + [n]
  }

  /** Byte order, shorter first on a tie. */
  predicate Leq(a: string, b: string) {
    if a == "" then true
    else if b == "" then false
    else if a[0] != b[0] then a[0] < b[0]
    else Leq(a[1..], b[1..])
  }

  function Insert(x: string, s: seq<string>): seq<string> {
    if s == [] || Leq(x, s[0]) then [x] + s else [s[0]] + Insert(x, s[1..])
  }

  function Sort(s: seq<string>): seq<string> {
    if s == [] then [] else Insert(s[0], Sort(s[1..]))
  }

  predicate Sorted(s: seq<string>) {
    forall i | 0 <= i < |s| - 1 :: Leq(s[i], s[i + 1])
  }

  /** `normaliseEnabledProviders`; None stands for an unknown provider. */
  function NormaliseProviders(raw: string, known: set<string>): Option<string> {
    if Blank(raw) then Some("")
    else if SaysNone(raw) then Some(NONE)
    else if exists n | n in Names(raw) :: n !in known then None
    else Some(Join(Sort(Dedup(Split(raw, ','))), ','))
  }

  method NormaliseEnabledProviders(raw: string, known: set<string>) returns (r: Option<string>)
    ensures r == NormaliseProviders(raw, known)
  {
    if Trim(raw) == "" {
      return Some("");
    }
    if Lower(Trim(raw)) == NONE {
      return Some(NONE);
    }
    var names := [];
    var parts := Split(raw, ',');
    hide Name, Split, Trim, Lower, Sort;
    for i := 0 to |parts|
      invariant names == Dedup(parts[..i])
      invariant forall n | n in NamesOf(parts[..i]) :: n in known
    {
      var n := Name(parts[i]);
      assert parts[..i + 1] == parts[..i] + [parts[i]];
      assert parts[..i + 1][..i] == parts[..i];
      if n != "" {
        if n !in known {
          assert n in Names(raw);
          return None;
        }
        if n !in names {
          names := names + [n];
        }
      }
    }
    assert parts[..|parts|] == parts;
    return Some(Join(Sort(names), ','));
  }

  /** `projectEnabledFwdProviders` as a set: which of the loaded providers a project shows. */
  function Shown(raw: string, loaded: set<string>): set<string> {
    if SaysNone(raw) then {}
    else if Blank(raw) then loaded
    else loaded * Names(raw)
  }

  /** The display order starts with the built-in ones; the rest follow in any order. */
  const DISPLAY_ORDER := ["google", "feishu", "wecom", "dingtalk"]

  method ProjectEnabledProviders(raw: string, loaded: set<string>) returns (out: seq<string>)
    ensures (forall p :: p in out <==> p in Shown(raw, loaded)) && Distinct(out)
    ensures Pick(DISPLAY_ORDER, Shown(raw, loaded)) <= out
  {
    if Lower(Trim(raw)) == NONE {
      PickNothing(DISPLAY_ORDER);
      return [];
    }
    var allowed := loaded;
    if Trim(raw) != "" {
      var wanted := CollectNames(raw);
      allowed := loaded * wanted;
    }
    assert allowed == Shown(raw, loaded);
    hide Names, Trim, Lower, Shown;
    DisplayOrderDistinct();
    PickDistinct(DISPLAY_ORDER, allowed);
    PickFacts(DISPLAY_ORDER, allowed);
    hide Pick;
    var first := PickLoop(DISPLAY_ORDER, allowed);
    out := AppendRest(first, allowed);
  }

  /** What is not listed yet follows, in whatever order the map yields it. */
  method AppendRest(first: seq<string>, allowed: set<string>) returns (out: seq<string>)
    requires Distinct(first) && forall p | p in first :: p in allowed
    ensures first <= out && Distinct(out) && forall p :: p in out <==> p in allowed
  {
    out := first;
    var rest := set p | p in allowed && p !in first;
    while rest != {}
      invariant first <= out && Distinct(out)
      invariant forall p :: p in rest ==> p !in out && p in allowed
      invariant forall p :: p in out || p in rest <==> p in allowed
      decreases |rest|
    {
      var p :| p in rest;
      rest := rest - {p};
      out := out + [p];
    }
  }

  lemma DisplayOrderDistinct()
    ensures Distinct(DISPLAY_ORDER)
  {
    assert DISPLAY_ORDER[0][0] == 'g' && DISPLAY_ORDER[1][0] == 'f' && DISPLAY_ORDER[2][0] == 'w' && DISPLAY_ORDER[3][0] == 'd';
  }

  lemma PickNothing(known: seq<string>)
    ensures Pick(known, {}) == []
  {
    PickFacts(known, {});
    assert Pick(known, {}) != [] ==> Pick(known, {})[0] in Pick(known, {});
  }

  lemma {:induction false} PickDistinct(known: seq<string>, wanted: set<string>)
    requires Distinct(known)
    ensures Distinct(Pick(known, wanted))
  {
    if known != [] {
      PickDistinct(known[1..], wanted);
      PickFacts(known[1..], wanted);
    }
  }

  // ---------------------------------------------------------------- sorting and removing duplicates

  lemma {:induction false} DedupFacts(parts: seq<string>)
    ensures (forall n :: n in Dedup(parts) <==> n in NamesOf(parts)) && Distinct(Dedup(parts))
    ensures NamesOf(parts) == {} ==> Dedup(parts) == []
  {
    hide Name;
    if parts != [] {
      var front, last := parts[..|parts| - 1], parts[|parts| - 1];
      DedupFacts(front);
      assert parts == front + [last];
      assert NamesOf(parts) == NamesOf(front) + if Name(last) != "" then {Name(last)} else {};
    }
  }

  lemma {:induction false} DedupOfClean(names: seq<string>)
    requires AllClean(names) && Distinct(names)
    ensures Dedup(names) == names
    decreases |names|
  {
    if names != [] {
      var front, last := names[..|names| - 1], names[|names| - 1];
      assert names == front + [last];
      assert forall n | n in front :: n in names;
      DedupOfClean(front);
      CleanIsItsName(last);
      hide Name, Clean;
    }
  }

  lemma {:induction false} LeqTotal(a: string, b: string)
    ensures Leq(a, b) || Leq(b, a)
  {
    if a != "" && b != "" && a[0] == b[0] {
      LeqTotal(a[1..], b[1..]);
    }
  }

  /** Equal in this order means equal. */
  lemma {:induction false} LeqAntisymmetric(a: string, b: string)
    ensures Leq(a, b) && Leq(b, a) <==> a == b
    decreases |a|
  {
    if a != [] && b != [] && a[0] == b[0] {
      LeqAntisymmetric(a[1..], b[1..]);
      assert a == [a[0]] + a[1..] && b == [b[0]] + b[1..];
    }
  }

  lemma SortedTail(s: seq<string>)
    requires Sorted(s) && s != []
    ensures Sorted(s[1..])
  {
    forall i | 0 <= i < |s[1..]| - 1
      ensures Leq(s[1..][i], s[1..][i + 1])
    {
      assert Leq(s[i + 1], s[i + 1 + 1]);
    }
  }

  lemma SortedCons(x: string, s: seq<string>)
    requires Sorted(s) && (s != [] ==> Leq(x, s[0]))
    ensures Sorted([x] + s)
  {
    var all := [x] + s;
    forall i | 0 <= i < |all| - 1
      ensures Leq(all[i], all[i + 1])
    {
      if i > 0 {
        assert Leq(s[i - 1], s[i - 1 + 1]);
      }
    }
  }

  lemma {:induction false} InsertSorts(x: string, s: seq<string>)
    requires Sorted(s)
    ensures Sorted(Insert(x, s)) && Insert(x, s) != []
    ensures Insert(x, s)[0] == x || (s != [] && Insert(x, s)[0] == s[0])
  {
    hide Leq, Sorted;
    if s == [] || Leq(x, s[0]) {
      SortedCons(x, s);
    } else {
      SortedTail(s);
      InsertSorts(x, s[1..]);
      LeqTotal(x, s[0]);
      if |s| > 1 {
        SortedHead(s);
      }
      SortedCons(s[0], Insert(x, s[1..]));
    }
  }

  lemma SortedHead(s: seq<string>)
    requires Sorted(s) && |s| > 1
    ensures Leq(s[0], s[1])
  {
    assert Leq(s[0], s[0 + 1]);
  }

  lemma {:induction false} InsertMembers(x: string, s: seq<string>)
    ensures forall n :: n in Insert(x, s) <==> n == x || n in s
    ensures x !in s && Distinct(s) ==> Distinct(Insert(x, s))
  {
    hide Leq;
    if s == [] || Leq(x, s[0]) {
      DistinctCons(x, s);
    } else {
      InsertMembers(x, s[1..]);
      assert s == [s[0]] + s[1..];
      DistinctCons(s[0], Insert(x, s[1..]));
    }
  }

  lemma DistinctCons(x: string, s: seq<string>)
    ensures x !in s && Distinct(s) ==> Distinct([x] + s)
  {
  }

  lemma {:induction false} SortFacts(s: seq<string>)
    ensures Sorted(Sort(s)) && (forall n :: n in Sort(s) <==> n in s)
    ensures Distinct(s) ==> Distinct(Sort(s))
  {
    hide Leq, Insert;
    if s != [] {
      SortFacts(s[1..]);
      InsertSorts(s[0], Sort(s[1..]));
      InsertMembers(s[0], Sort(s[1..]));
      assert s == [s[0]] + s[1..];
    }
  }

  lemma {:induction false} SortOfSorted(s: seq<string>)
    requires Sorted(s)
    ensures Sort(s) == s
  {
    hide Leq;
    if s != [] {
      SortedTail(s);
      SortOfSorted(s[1..]);
      if |s| > 1 {
        SortedHead(s);
      }
      assert s == [s[0]] + s[1..];
    }
  }

  // ---------------------------------------------------------------- what the canonical provider list means

  /** A list that names something is stored as exactly its names. */
  lemma NormalisedProviders(raw: string, known: set<string>)
    requires NormaliseProviders(raw, known).Some? && !Blank(raw) && !SaysNone(raw) && Names(raw) != {} && NONE !in known
    ensures
      var v := NormaliseProviders(raw, known).value;
      && !Blank(v) && !SaysNone(v) && Names(v) == Names(raw)
      && NormaliseProviders(v, known) == Some(v)
  {
    var parts := Split(raw, ',');
    var dedup := Dedup(parts);
    var names := Sort(dedup);
    DedupFacts(parts);
    SortFacts(dedup);
    NamesAreClean(raw);
    var some :| some in Names(raw);
    assert some in names;
    hide Dedup, Sort, Leq, Clean, Split, Name;
    assert AllClean(names);
    JoinedNames(names);
    DedupOfClean(names);
    SortOfSorted(names);
    hide Join, Distinct, Sorted, AllClean;
    var v := Join(names, ',');
    assert Names(v) == Names(raw);
    if SaysNone(v) {
      NoneNamesItself();
      assert false;
    }
  }

  lemma NoneNamesItself()
    ensures NONE in Names(NONE)
  {
    LowerLetters(NONE);
    JoinedNames([NONE]);
  }

  /** Canonicalising twice is canonicalising once. */
  lemma ProvidersIdempotent(raw: string, known: set<string>)
    requires NormaliseProviders(raw, known).Some? && NONE !in known
    ensures NormaliseProviders(NormaliseProviders(raw, known).value, known) == NormaliseProviders(raw, known)
  {
    NoneIsCanonical(known);
    if !Blank(raw) && !SaysNone(raw) {
      if Names(raw) != {} {
        NormalisedProviders(raw, known);
      } else {
        NamelessBecomesEmpty(raw, known);
      }
    }
    hide Names, Split, Dedup, Sort, Join, SaysNone;
  }

  /** Accepted are a blank text, `none`, and lists that name nothing unknown. */
  lemma ProvidersAcceptedIff(raw: string, known: set<string>)
    ensures NormaliseProviders(raw, known).Some? <==> Blank(raw) || SaysNone(raw) || Names(raw) <= known
    ensures Blank(raw) ==> NormaliseProviders(raw, known) == Some("")
    ensures !Blank(raw) && SaysNone(raw) ==> NormaliseProviders(raw, known) == Some(NONE)
  {
    hide Names, Split, Dedup, Sort, Join, Blank, SaysNone;
  }

  /** A stored list is sorted and names each provider once. */
  lemma ProvidersSorted(raw: string, known: set<string>)
    requires NormaliseProviders(raw, known).Some? && !Blank(raw) && !SaysNone(raw) && Names(raw) != {}
    ensures
      var names := Split(NormaliseProviders(raw, known).value, ',');
      && Sorted(names) && Distinct(names) && forall n :: n in names <==> n in Names(raw)
  {
    var parts := Split(raw, ',');
    var dedup := Dedup(parts);
    var names := Sort(dedup);
    DedupFacts(parts);
    SortFacts(dedup);
    NamesAreClean(raw);
    var some :| some in Names(raw);
    assert some in names;
    hide Dedup, Sort, Leq, Clean, Name;
    assert AllClean(names);
    hide Split;
    JoinedNames(names);
  }

  lemma NoneIsCanonical(known: set<string>)
    ensures NormaliseProviders("", known) == Some("")
    ensures !Blank(NONE) && SaysNone(NONE) && NormaliseProviders(NONE, known) == Some(NONE)
  {
    LowerLetters(NONE);
    TrimmedStays(NONE);
    assert Trim("") == "";
    hide Names, Split, Dedup, Sort, Join;
  }

  /** A list of separators only is stored as the empty list, which means the opposite. */
  lemma NamelessBecomesEmpty(raw: string, known: set<string>)
    requires !Blank(raw) && !SaysNone(raw) && Names(raw) == {}
    ensures NormaliseProviders(raw, known) == Some("")
  {
    DedupFacts(Split(raw, ','));
    assert Dedup(Split(raw, ',')) == [];
    assert Join(Sort([]), ',') == "";
    hide Names, Split, Blank, SaysNone;
  }

  /** What is shown for the stored list is what the administrator's text shows, whatever is loaded. */
  ghost predicate ShowsTheSame(raw: string, stored: string) {
    forall loaded :: Shown(stored, loaded) == Shown(raw, loaded)
  }

  /**
   * Storing keeps the meaning if and only if the text is blank, says none, or names at least one
   * provider; a text of separators only would show nothing but is stored as "show everything".
   */
  lemma ProvidersKeepMeaningIff(raw: string, known: set<string>)
    requires NormaliseProviders(raw, known).Some? && NONE !in known
    ensures ShowsTheSame(raw, NormaliseProviders(raw, known).value) <==> Blank(raw) || SaysNone(raw) || Names(raw) != {}
  {
    NoneIsCanonical(known);
    var v := NormaliseProviders(raw, known).value;
    if Blank(raw) || SaysNone(raw) {
      EmptyIsBlank();
    } else if Names(raw) != {} {
      NormalisedProviders(raw, known);
    } else {
      NamelessBecomesEmpty(raw, known);
      EmptyIsBlank();
      var loaded := {"google"};
      assert Shown(raw, loaded) == {} && Shown(v, loaded) == loaded;
    }
    hide Names, Split, Dedup, Sort, Join, NormaliseProviders;
  }

  lemma EmptyIsBlank()
    ensures Blank("") && !SaysNone("")
  {
    assert Trim("") == "" && Lower("") == "";
  }

  /** Such a text exists: a single comma. */
  lemma SeparatorsOnly(raw: string)
    requires raw == [',']
    ensures !Blank(raw) && !SaysNone(raw) && Names(raw) == {}
  {
    assert Trimmed(raw);
    TrimmedStays(raw);
    assert |NONE| == 4 && |Lower(Trim(raw))| == 1;
    var parts := Split(raw, ',');
    assert raw[1..] == "" && Split(raw[1..], ',') == [""];
    assert parts == [""] + [""];
    assert Name("") == "";
    assert forall t | t in parts :: t == "";
  }
}
