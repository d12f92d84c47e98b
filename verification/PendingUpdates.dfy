/** Parsing what the update queries and the package manifest print. */
module PendingUpdates {
  import opened Std
  import opened Text

  datatype PackageUpdate = PackageUpdate(name: string, oldVersion: string, newVersion: string)

  const ARROW := " -> "

  /** One line: `name old -> new`, or not an update. */
  function ParseLine(line: string): Option<PackageUpdate> {
    var text := Strip(line);
    match Find(text, ARROW)
    case None => None
    case Some(i) =>
      var fields := Fields(text[..i]);
      if |fields| != 2 then None
      else Some(PackageUpdate(fields[0], fields[1], Strip(text[i + |ARROW|..])))
  }

  function Kept(u: Option<PackageUpdate>): seq<PackageUpdate> {
    if u.Some? then [u.value] else []
  }

  function ParseLines(lines: seq<string>): seq<PackageUpdate> {
    if lines == [] then []
    else ParseLines(lines[..|lines| - 1]) + Kept(ParseLine(lines[|lines| - 1]))
  }

  function Parse(stdout: string): seq<PackageUpdate> {
    ParseLines(SplitLines(stdout))
  }

  method ParsePendingUpdates(stdout: string) returns (updates: seq<PackageUpdate>)
    ensures updates == Parse(stdout)
  {
    updates := [];
    var lines := SplitLines(stdout);
    for i := 0 to |lines|
      invariant updates == ParseLines(lines[..i])
    {
      assert lines[..i + 1][..i] == lines[..i];
      var text := Strip(lines[i]);
      var arrow := Find(text, ARROW);
      if arrow.None? { continue; }
      var fields := Fields(text[..arrow.value]);
      if |fields| != 2 { continue; }
      updates := updates + [PackageUpdate(fields[0], fields[1], Strip(text[arrow.value + |ARROW|..]))];
    }
    assert lines[..|lines|] == lines;
  }

  // ----- what a parsed update looks like -----

  /** The updates that survive being printed and parsed. */
  predicate Printable(u: PackageUpdate) {
    && IsField(u.name)
    && IsField(u.oldVersion) && u.oldVersion != "->"
    && u.newVersion != "" && Stripped(u.newVersion) && OneLine(u.newVersion)
  }

  function Print(u: PackageUpdate): string {
    u.name + " " + u.oldVersion + " -> " + u.newVersion
  }

  /** Printing then parsing gives the update back iff it is printable. */
  lemma RoundTripIff(u: PackageUpdate)
    ensures Parse(Print(u)) == [u] <==> Printable(u)
  {
    if Printable(u) {
      var fs := [u.name, u.oldVersion];
      assert fs[1..] == [u.oldVersion] && Spaced(fs) == u.name + " " + Spaced([u.oldVersion]);
      FieldCountIff(fs, u.newVersion);
    }
    if Parse(Print(u)) == [u] {
      var line := FromSomeLine(SplitLines(Print(u)), u);
      ParsedShape(line, u);
      if u.oldVersion == "->" {
        NoArrowField(u);
      }
    }
  }

  lemma OneParsedLine(line: string)
    ensures ParseLines([line]) == Kept(ParseLine(line))
  {
  }

  /** Fields with single spaces between them. */
  function Spaced(fs: seq<string>): string
    requires fs != []
  {
    if |fs| == 1 then fs[0] else fs[0] + " " + Spaced(fs[1..])
  }

  /** The fields in front of an arrow, and a version behind it. */
  predicate Arrowed(fs: seq<string>, v: string) {
    && fs != [] && (forall i | 0 <= i < |fs| :: IsField(fs[i])) && (forall i | 0 < i < |fs| :: fs[i] != "->")
    && v != "" && Stripped(v) && OneLine(v)
  }

  /** A line with any number of fields in front of its arrow is an update iff
      there are exactly two of them. */
  lemma FieldCountIff(fs: seq<string>, v: string)
    requires Arrowed(fs, v)
    ensures Parse(Spaced(fs) + " -> " + v) == if |fs| == 2 then [PackageUpdate(fs[0], fs[1], v)] else []
  {
    hide Strip, Fields, Find;
    var head, t := Spaced(fs), Spaced(fs) + " -> " + v;
    SpacedFields(fs);
    ArrowBehind(fs, v);
    assert t[..|head|] == head && t[|head| + |ARROW|..] == v;
    StrippedStays(t);
    StrippedStays(v);
    LinesOfOne(t);
    OneParsedLine(t);
  }

  lemma {:induction false} SpacedFields(fs: seq<string>)
    requires fs != [] && forall i | 0 <= i < |fs| :: IsField(fs[i])
    ensures Fields(Spaced(fs)) == fs && OneLine(Spaced(fs))
    ensures Spaced(fs) != "" && !IsSpace(Spaced(fs)[0])
  {
    hide Fields;
    FieldIsOneLine(fs[0]);
    if |fs| == 1 {
      FieldsOfOne(fs[0]);
    } else {
      SpacedFields(fs[1..]);
      FieldsOfMore(fs[0], Spaced(fs[1..]));
    }
  }

  /** The first arrow of the line is the one behind the fields. */
  lemma ArrowBehind(fs: seq<string>, v: string)
    requires Arrowed(fs, v)
    ensures Find(Spaced(fs) + " -> " + v, ARROW) == Some(|Spaced(fs)|)
  {
    hide Find;
    forall j | 0 <= j < |Spaced(fs)|
      ensures !MatchesAt(Spaced(fs) + " -> " + v, ARROW, j)
    {
      NoEarlierArrow(fs, v, j);
    }
    FindAt(Spaced(fs) + " -> " + v, ARROW, |Spaced(fs)|);
  }

  lemma {:induction false} NoEarlierArrow(fs: seq<string>, v: string, j: nat)
    requires Arrowed(fs, v) && j < |Spaced(fs)|
    ensures !MatchesAt(Spaced(fs) + " -> " + v, ARROW, j)
  {
    var t, n := Spaced(fs) + " -> " + v, |fs[0]|;
    if j < n {
      assert t[j] == fs[0][j] && fs[0][j] in fs[0] && ARROW[0] == ' ';
    } else {
      var tail := Spaced(fs[1..]) + " -> " + v;
      assert t == fs[0] + " " + tail;
      if j > n {
        NoEarlierArrow(fs[1..], v, j - n - 1);
        assert t[j..] == tail[j - n - 1..];
        SameMatch(t, j, tail, j - n - 1);
      } else {
        FieldInFront(fs[1..], v);
        NoArrowAtField(fs[1], tail);
        assert t[n + 1..] == tail;
        assert ARROW[1] == '-' && ARROW[2] == '>' && ARROW[3] == ' ';
        assert forall k | 0 <= k < |tail| :: t[n + 1 ..][k] == tail[k];
      }
    }
  }

  lemma SameMatch(s: string, i: nat, t: string, j: nat)
    requires i <= |s| && j <= |t| && s[i..] == t[j..]
    ensures MatchesAt(s, ARROW, i) == MatchesAt(t, ARROW, j)
  {
    assert forall k | 0 <= k < |s| - i :: s[i + k] == s[i..][k] && t[j + k] == t[j..][k];
  }

  lemma FieldInFront(fs: seq<string>, v: string)
    requires fs != []
    ensures fs[0] + " " <= Spaced(fs) + " -> " + v
  {
  }

  /** A field that is not the bare arrow does not start one. */
  lemma NoArrowAtField(f: string, t: string)
    requires IsField(f) && f != "->" && f + " " <= t
    ensures |t| >= 3 ==> !(t[0] == '-' && t[1] == '>' && t[2] == ' ')
  {
    assert t[|f|] == ' ' && forall k | 0 <= k < |f| :: t[k] == f[k] && f[k] in f;
    if |f| == 2 { assert f == [f[0], f[1]]; }
  }

  lemma PrintedEnds(u: PackageUpdate)
    requires IsField(u.name) && u.newVersion != "" && Stripped(u.newVersion)
    ensures Strip(Print(u)) == Print(u)
  {
  }

  lemma {:induction false} FromSomeLine(lines: seq<string>, u: PackageUpdate) returns (line: string)
    requires u in ParseLines(lines)
    ensures line in lines && ParseLine(line) == Some(u)
  {
    line := lines[|lines| - 1];
    if ParseLine(line) != Some(u) {
      line := FromSomeLine(lines[..|lines| - 1], u);
    }
  }

  /** Every parsed update has whitespace-free fields and a non-empty new version
      without whitespace at its ends. */
  lemma ParsedShape(line: string, u: PackageUpdate)
    requires ParseLine(line) == Some(u)
    ensures IsField(u.name) && IsField(u.oldVersion)
    ensures u.newVersion != "" && Stripped(u.newVersion)
    ensures OneLine(line) ==> OneLine(u.newVersion)
  {
    hide Strip, Fields, Find;
    var text := Strip(line);
    var i := Find(text, ARROW).value;
    var fields := Fields(text[..i]);
    assert IsField(fields[0]) && IsField(fields[1]);
    var tail := text[i + |ARROW|..];
    var l, r := StripCuts(line);
    var l', r' := StripCuts(tail);
    SomethingAfterArrow(text, i);
    assert tail == l' + Strip(tail) + r';
    InnerLine(l, text, r);
    assert text == text[..i + |ARROW|] + tail;
    InnerLine(text[..i + |ARROW|], tail, "");
    InnerLine(l', Strip(tail), r');
  }

  lemma SomethingAfterArrow(text: string, i: nat)
    requires Stripped(text) && MatchesAt(text, ARROW, i)
    ensures !Blank(text[i + |ARROW|..])
  {
    assert text[i + 3] == ARROW[3];
    assert !IsSpace(text[|text| - 1]);
    var tail := text[i + |ARROW|..];
    assert tail[|tail| - 1] == text[|text| - 1];
  }

  lemma InnerLine(l: string, t: string, r: string)
    ensures OneLine(l + t + r) ==> OneLine(t)
  {
  }

  /** An update whose old version is the bare arrow is lost: its name is cut off
      by the first arrow. */
  lemma NoArrowField(u: PackageUpdate)
    requires IsField(u.name) && u.oldVersion == "->"
    requires u.newVersion != "" && Stripped(u.newVersion) && OneLine(u.newVersion)
    ensures Parse(Print(u)) == []
  {
    hide Strip, Fields, Find;
    var t, n := Print(u), |u.name|;
    PrintedEnds(u);
    forall j | 0 <= j < n
      ensures !MatchesAt(t, ARROW, j)
    {
      assert t[j] == u.name[j] && !IsSpace(u.name[j]) && ARROW[0] == ' ';
    }
    assert t[n] == ' ' && t[n + 1] == '-' && t[n + 2] == '>' && t[n + 3] == ' ';
    FindAt(t, ARROW, n);
    assert t[..n] == u.name;
    FieldsOfOne(u.name);
    FieldIsOneLine(u.name);
    LinesOfOne(t);
    OneParsedLine(t);
  }

  /** A parsed update survives another round trip iff its old version is not the
      bare arrow, which only other whitespace than spaces lets through. */
  lemma ReparsedIff(stdout: string, u: PackageUpdate)
    requires u in Parse(stdout)
    ensures Parse(Print(u)) == [u] <==> u.oldVersion != "->"
  {
    var line := FromSomeLine(SplitLines(stdout), u);
    ParsedShape(line, u);
    RoundTripIff(u);
  }

  // ----- whole texts -----

  lemma {:induction false} ParseLinesOfTwo(a: seq<string>, b: seq<string>)
    ensures ParseLines(a + b) == ParseLines(a) + ParseLines(b)
  {
    if b == [] {
      assert a + b == a;
    } else {
      assert (a + b)[..|a + b| - 1] == a + b[..|b| - 1];
      ParseLinesOfTwo(a, b[..|b| - 1]);
    }
  }

  /** Two texts with a newline between them parse to the concatenation. */
  lemma ParseOfTwo(a: string, b: string)
    ensures Parse(a + "\n" + b) == Parse(a) + Parse(b)
  {
    hide SplitLines, ParseLines, ParseLine;
    LinesOfTwo(a, b);
    BlankParsesToNothing();
    var gap := Gap(a);
    ParseLinesOfTwo(SplitLines(a) + gap, SplitLines(b));
    ParseLinesOfTwo(SplitLines(a), gap);
  }

  lemma BlankParsesToNothing()
    ensures ParseLines([]) == ParseLines([""]) == []
  {
  }

  /** A line of query output: an update, or banner and warning text. */
  datatype Line = Update(u: PackageUpdate) | Noise(text: string)

  predicate Expected(l: Line) {
    match l
    case Update(u) => Printable(u)
    case Noise(text) => OneLine(text) && Find(text, ARROW) == None
  }

  function Shown(l: Line): string {
    match l
    case Update(u) => Print(u)
    case Noise(text) => text
  }

  function Joined(ls: seq<Line>): string {
    if ls == [] then "" else if |ls| == 1 then Shown(ls[0]) else Shown(ls[0]) + "\n" + Joined(ls[1..])
  }

  function UpdatesOf(ls: seq<Line>): seq<PackageUpdate> {
    if ls == [] then []
    else (if ls[0].Update? then [ls[0].u] else []) + UpdatesOf(ls[1..])
  }

  /** The updates come back whole and in order, whatever is printed between them. */
  lemma {:induction false} NoiseChangesNothing(ls: seq<Line>)
    requires forall l <- ls :: Expected(l)
    ensures Parse(Joined(ls)) == UpdatesOf(ls)
  {
    if ls != [] {
      ShownParses(ls[0]);
      if |ls| > 1 {
        NoiseChangesNothing(ls[1..]);
        ParseOfTwo(Shown(ls[0]), Joined(ls[1..]));
      }
    }
  }

  lemma ShownParses(l: Line)
    requires Expected(l)
    ensures Parse(Shown(l)) == UpdatesOf([l])
  {
    match l {
      case Update(u) =>
        RoundTripIff(u);
      case Noise(text) =>
        NoiseLine(text);
        if text != "" {
          LinesOfOne(text);
          OneParsedLine(text);
        }
    }
  }

  lemma NoiseLine(text: string)
    requires Find(text, ARROW) == None
    ensures ParseLine(text) == None
  {
    hide Find, Strip, Stripped, Blank, Fields;
    var l, r := StripCuts(text);
    var t := Strip(text);
    if Find(t, ARROW).Some? {
      FindIsFirst(text, ARROW, |l| + Find(t, ARROW).value);
    }
  }

  // ----- manifests -----

  /** The first field of every line that has one. */
  function Names(lines: seq<string>): set<string> {
    if lines == [] then {}
    else
      var fields := Fields(lines[|lines| - 1]);
      Names(lines[..|lines| - 1]) + (if fields != [] then {fields[0]} else {})
  }

  method ReadManifestNames(manifest: string) returns (names: set<string>)
    ensures names == Names(SplitLines(manifest))
  {
    names := {};
    var lines := SplitLines(manifest);
    for i := 0 to |lines|
      invariant names == Names(lines[..i])
    {
      assert lines[..i + 1][..i] == lines[..i];
      var fields := Fields(lines[i]);
      if fields != [] { names := names + {fields[0]}; }
    }
    assert lines[..|lines|] == lines;
  }

  method DiffManifests(before: string, after: string) returns (removed: set<string>)
    ensures removed == Names(SplitLines(before)) - Names(SplitLines(after))
  {
    var had := ReadManifestNames(before);
    var has := ReadManifestNames(after);
    removed := had - has;
  }

  /** An installed package, as the package database lists it. */
  datatype Installed = Installed(name: string, version: string)

  predicate Listable(p: Installed) {
    IsField(p.name) && OneLine(p.version)
  }

  function Manifest(ps: seq<Installed>): string {
    if ps == [] then "" else ps[0].name + " " + ps[0].version + "\n" + Manifest(ps[1..])
  }

  function NamesOf(ps: seq<Installed>): set<string> {
    set p <- ps :: p.name
  }

  /** Of two manifests, the difference is the packages that went, whatever
      happened to the versions of the others. */
  lemma ManifestDiff(before: seq<Installed>, after: seq<Installed>)
    requires forall p <- before + after :: Listable(p)
    ensures Names(SplitLines(Manifest(before))) - Names(SplitLines(Manifest(after)))
            == NamesOf(before) - NamesOf(after)
  {
    assert forall p <- before :: p in before + after;
    assert forall p <- after :: p in before + after;
    ManifestNames(before);
    ManifestNames(after);
  }

  lemma {:induction false} ManifestNames(ps: seq<Installed>)
    requires forall p <- ps :: Listable(p)
    ensures Names(SplitLines(Manifest(ps))) == NamesOf(ps)
  {
    if ps != [] {
      assert Listable(ps[0]);
      ManifestNames(ps[1..]);
      FirstManifestName(ps[0], Manifest(ps[1..]));
      assert ps == [ps[0]] + ps[1..];
    }
  }

  lemma FirstManifestName(p: Installed, rest: string)
    requires Listable(p)
    ensures Names(SplitLines(p.name + " " + p.version + "\n" + rest)) == {p.name} + Names(SplitLines(rest))
  {
    hide SplitLines, Names;
    FieldIsOneLine(p.name);
    LinesOfFirst(p.name + " " + p.version, rest);
    NamesOfTwo([p.name + " " + p.version], SplitLines(rest));
    NameOfLine(p.name, p.version);
  }

  lemma NameOfLine(name: string, version: string)
    requires IsField(name)
    ensures Names([name + " " + version]) == {name}
  {
    FieldsOfMore(name, version);
    assert [name + " " + version][..0] == [];
  }

  lemma {:induction false} NamesOfTwo(a: seq<string>, b: seq<string>)
    ensures Names(a + b) == Names(a) + Names(b)
  {
    if b == [] {
      assert a + b == a;
    } else {
      assert (a + b)[..|a + b| - 1] == a + b[..|b| - 1];
      NamesOfTwo(a, b[..|b| - 1]);
    }
  }
}
