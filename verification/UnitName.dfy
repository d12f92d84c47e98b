/** Recognising systemd unit names. */
module UnitName {
  import opened Std

  const SUFFIXES := {"service", "socket", "device", "mount", "automount", "swap", "target", "path", "timer",
                     "slice", "scope"}

  const MAX_LENGTH := 255

  predicate IsAllowed(c: char) {
    'A' <= c <= 'Z' || 'a' <= c <= 'z' || '0' <= c <= '9' || c == ':' || c == '_' || c == '.' || c == '\\' || c == '-'
  }

  /** One or more allowed characters. */
  predicate IsPart(s: string) {
    s != "" && forall c <- s :: IsAllowed(c)
  }

  /** What the pattern with its end anchor accepts: the anchor also matches in
      front of a final newline. */
  predicate MatchesPattern(s: string) {
    IsPart(s) || (s != "" && s[|s| - 1] == '\n' && IsPart(s[..|s| - 1]))
  }

  function First(s: string, c: char): (r: Option<nat>)
    ensures r.Some? ==> r.value < |s| && s[r.value] == c && c !in s[..r.value]
    ensures r.None? ==> c !in s
  {
    if s == "" then None
    else if s[0] == c then Some(0)
    else match First(s[1..], c)
      case None => None
      case Some(i) =>
        assert s[..i + 1] == [s[0]] + s[1..][..i];
        Some(i + 1)
  }

  function Last(s: string, c: char): (r: Option<nat>)
    ensures r.Some? ==> r.value < |s| && s[r.value] == c && c !in s[r.value + 1..]
    ensures r.None? ==> c !in s
  {
    if s == "" then None
    else if s[|s| - 1] == c then Some(|s| - 1)
    else
      var r := Last(s[..|s| - 1], c);
      assert r.Some? ==> s[r.value + 1..] == s[..|s| - 1][r.value + 1..] + [s[|s| - 1]];
      r
  }

  predicate IsValid(name: string) {
    if name == "" || |name| > MAX_LENGTH || '.' !in name then false
    else
      var dot := Last(name, '.').value;
      var base, suffix := name[..dot], name[dot + 1..];
      if suffix !in SUFFIXES || base == "" then false
      else if '@' in base then
        var at := First(base, '@').value;
        var template, instance := base[..at], base[at + 1..];
        if template == "" || instance == "" then false
        else MatchesPattern(template) && MatchesPattern(instance)
      else MatchesPattern(base)
  }

  // ----- the grammar -----

  /** A unit name taken apart. */
  datatype Unit =
    | Simple(base: string, suffix: string)
    | Instance(template: string, instance: string, suffix: string)

  function Print(u: Unit): string {
    Base(u) + "." + u.suffix
  }

  function Base(u: Unit): string {
    match u
    case Simple(base, _) => base
    case Instance(template, instance, _) => template + "@" + instance
  }

  /** The unit names of systemd.unit(5), "Description". */
  predicate WellFormed(u: Unit) {
    u.suffix in SUFFIXES && if u.Simple? then IsPart(u.base) else IsPart(u.template) && IsPart(u.instance)
  }

  /** The same, with a newline allowed at the end of each part. */
  predicate Tolerated(u: Unit) {
    && u.suffix in SUFFIXES
    && if u.Simple? then MatchesPattern(u.base) else MatchesPattern(u.template) && MatchesPattern(u.instance)
  }

  lemma PartCharacters(s: string)
    requires MatchesPattern(s)
    ensures s != "" && '@' !in s
    ensures IsPart(s) <==> '\n' !in s
  {
    assert forall i | 0 <= i < |s| - 1 :: s[..|s| - 1][i] == s[i];
    if IsPart(s) {
      assert forall c <- s :: IsAllowed(c);
    } else {
      assert s[|s| - 1] in s;
      assert forall c <- s[..|s| - 1] :: IsAllowed(c);
      assert s == s[..|s| - 1] + ['\n'];
    }
  }

  lemma SuffixCharacters(s: string)
    requires s in SUFFIXES
    ensures s != "" && '.' !in s && '@' !in s && '\n' !in s
  {
  }

  /** A tolerated unit is found again by looking for the last dot and the first
      at sign. */
  lemma Located(u: Unit)
    requires Tolerated(u)
    ensures Last(Print(u), '.') == Some(|Base(u)|)
    ensures Base(u) != "" && ('@' in Base(u) <==> u.Instance?)
    ensures u.Instance? ==> First(Base(u), '@') == Some(|u.template|)
  {
    var name, b := Print(u), Base(u);
    SuffixCharacters(u.suffix);
    LastAt(name, '.', |b|);
    match u {
      case Simple(base, _) =>
        PartCharacters(base);
      case Instance(template, instance, _) =>
        PartCharacters(template);
        PartCharacters(instance);
        assert b[|template|] == '@' && b[..|template|] == template;
        FirstAt(b, '@', |template|);
    }
  }

  lemma LastAt(s: string, c: char, i: nat)
    requires i < |s| && s[i] == c && c !in s[i + 1..]
    ensures Last(s, c) == Some(i)
  {
  }

  lemma FirstAt(s: string, c: char, i: nat)
    requires i < |s| && s[i] == c && c !in s[..i]
    ensures First(s, c) == Some(i)
  {
  }

  /** The reading of an accepted name. */
  lemma Reading(name: string) returns (u: Unit)
    requires IsValid(name)
    ensures Tolerated(u) && Print(u) == name
  {
    var dot := Last(name, '.').value;
    var base, suffix := name[..dot], name[dot + 1..];
    if '@' in base {
      var at := First(base, '@').value;
      u := Instance(base[..at], base[at + 1..], suffix);
      Rejoin(base, at);
    } else {
      u := Simple(base, suffix);
    }
    Rejoin(name, dot);
  }

  lemma Rejoin(s: string, i: nat)
    requires i < |s|
    ensures s == s[..i] + [s[i]] + s[i + 1..]
  {
  }

  lemma PrintedIsValid(u: Unit)
    requires Tolerated(u) && |Print(u)| <= MAX_LENGTH
    ensures IsValid(Print(u))
  {
    var name, b := Print(u), Base(u);
    Located(u);
    SplitAt(b, ".", u.suffix);
    assert name[|b|] == '.';
    hide Last, First;
    if u.Instance? {
      SplitAt(u.template, "@", u.instance);
      PartCharacters(u.template);
      PartCharacters(u.instance);
    }
  }

  /** A name is accepted iff it is short enough and prints a tolerated unit. */
  lemma AcceptedIff(name: string)
    ensures IsValid(name) <==> |name| <= MAX_LENGTH && exists u :: Tolerated(u) && Print(u) == name
  {
    if IsValid(name) {
      var u := Reading(name);
      assert Tolerated(u) && Print(u) == name;
    }
    if |name| <= MAX_LENGTH && exists u :: Tolerated(u) && Print(u) == name {
      var u :| Tolerated(u) && Print(u) == name;
      PrintedIsValid(u);
    }
  }

  /** There is only one such unit. */
  lemma ReadingIsUnique(u: Unit, w: Unit)
    requires Tolerated(u) && Tolerated(w) && Print(u) == Print(w)
    ensures u == w
  {
    Located(u);
    Located(w);
    SplitAt(Base(u), ".", u.suffix);
    SplitAt(Base(w), ".", w.suffix);
    if u.Instance? {
      SplitAt(u.template, "@", u.instance);
      SplitAt(w.template, "@", w.instance);
    }
  }

  lemma SplitAt(a: string, c: string, b: string)
    requires |c| == 1
    ensures (a + c + b)[..|a|] == a && (a + c + b)[|a| + 1..] == b
  {
  }

  /** The accepted names without a newline are exactly the short enough names of
      the grammar; the ones with a newline are the recogniser's own. */
  lemma GrammarIff(name: string)
    ensures IsValid(name) && '\n' !in name
            <==> |name| <= MAX_LENGTH && exists u :: WellFormed(u) && Print(u) == name
  {
    AcceptedIff(name);
    if IsValid(name) && '\n' !in name {
      var u := Reading(name);
      NewlineInPrint(u);
      assert WellFormed(u) && Print(u) == name;
    }
    if exists u :: WellFormed(u) && Print(u) == name {
      var u :| WellFormed(u) && Print(u) == name;
      assert Tolerated(u);
      NewlineInPrint(u);
    }
  }

  /** One or more letters, digits and ":-_.\\" characters. */
  predicate Spelled(s: string) {
    s != "" && forall c <- s ::
      ('A' <= c && c <= 'Z') || ('a' <= c && c <= 'z') || ('0' <= c && c <= '9')
      || c == ':' || c == '-' || c == '_' || c == '.' || c == '\\'
  }

  predicate UnitType(s: string) {
    || s == "service" || s == "socket" || s == "device" || s == "mount" || s == "automount" || s == "swap"
    || s == "target" || s == "path" || s == "timer" || s == "slice" || s == "scope"
  }

  /** Which names without a newline are accepted, spelled out. */
  lemma SimpleNameIff(base: string, suffix: string)
    requires '@' !in base && '\n' !in base && '.' !in suffix
    ensures IsValid(base + "." + suffix) <==> Spelled(base) && UnitType(suffix) && |base| + 1 + |suffix| <= 255
  {
    SpelledIff(base);
    hide Spelled, MatchesPattern, First, Last;
    LastDot(base, suffix);
    KnownType(suffix);
  }

  lemma InstanceNameIff(template: string, instance: string, suffix: string)
    requires '@' !in template && '\n' !in template && '\n' !in instance && '.' !in suffix
    ensures IsValid(template + "@" + instance + "." + suffix)
            <==> && Spelled(template) && Spelled(instance) && UnitType(suffix)
                 && |template| + |instance| + |suffix| + 2 <= 255
  {
    var base := template + "@" + instance;
    SplitAt(template, "@", instance);
    FirstAt(base, '@', |template|);
    SpelledIff(template);
    SpelledIff(instance);
    assert base[|template|] == '@';
    hide Spelled, MatchesPattern, First, Last;
    LastDot(base, suffix);
    KnownType(suffix);
  }

  /** Taking a name apart at its last dot. */
  lemma LastDot(base: string, suffix: string)
    requires '.' !in suffix
    ensures var name := base + "." + suffix;
            && '.' in name && Last(name, '.') == Some(|base|)
            && name[..|base|] == base && name[|base| + 1..] == suffix
  {
    var name := base + "." + suffix;
    SplitAt(base, ".", suffix);
    LastAt(name, '.', |base|);
    assert name[|base|] == '.';
  }

  lemma KnownType(suffix: string)
    ensures suffix in SUFFIXES <==> UnitType(suffix)
  {
  }

  lemma SpelledIff(s: string)
    requires '\n' !in s
    ensures MatchesPattern(s) <==> Spelled(s)
    ensures Spelled(s) ==> s != ""
  {
  }

  lemma NewlineInPrint(u: Unit)
    requires Tolerated(u)
    ensures WellFormed(u) <==> '\n' !in Print(u)
  {
    SuffixCharacters(u.suffix);
    match u {
      case Simple(base, _) =>
        PartCharacters(base);
      case Instance(template, instance, _) =>
        PartCharacters(template);
        PartCharacters(instance);
    }
  }

  /** The recogniser accepts names outside the grammar. */
  lemma NewlineAccepted()
    ensures IsValid("sshd\n.service") && !exists u :: WellFormed(u) && Print(u) == "sshd\n.service"
  {
    var u := Simple("sshd\n", "service");
    assert "sshd\n"[..4] == "sshd";
    assert IsPart("sshd");
    assert Print(u) == "sshd\n.service";
    PrintedIsValid(u);
    assert "sshd\n.service"[4] == '\n';
    GrammarIff("sshd\n.service");
  }

  /** An accepted name has at most one at sign. */
  lemma OneAtSign(name: string, i: nat, j: nat)
    requires IsValid(name) && i < |name| && j < |name| && name[i] == '@' && name[j] == '@'
    ensures i == j
  {
    var u := Reading(name);
    SuffixCharacters(u.suffix);
    match u {
      case Simple(base, _) =>
        PartCharacters(base);
      case Instance(template, instance, _) =>
        PartCharacters(template);
        PartCharacters(instance);
        AtSignOf(template, instance, u.suffix, i);
        AtSignOf(template, instance, u.suffix, j);
    }
  }

  lemma AtSignOf(template: string, instance: string, suffix: string, i: nat)
    requires '@' !in template && '@' !in instance && '@' !in suffix
    requires var name := template + "@" + instance + "." + suffix; i < |name| && name[i] == '@'
    ensures i == |template|
  {
  }
}
