/** Reading and validating a pacman mirrorlist file. */
module MirrorlistFile {
  import opened Std
  import opened Text

  const PREFIX := "Server = "

  /** A text file with its modification time. */
  datatype File = File(text: string, mtime: int)

  datatype Protocol = HTTPS | HTTP | RSYNC

  datatype Info = Info(totalMirrors: nat, protocols: set<Protocol>, lastModified: Option<int>)

  const NO_INFO := Info(0, {}, None)

  /** A validation: valid with a count of mirrors, or the reason it is not. */
  datatype Validation = Valid(mirrors: nat) | Missing | Unreadable(error: string) | Empty | NoMirrors

  predicate IsServer(line: string) {
    MatchesAt(Strip(line), PREFIX, 0)
  }

  /** The stripped server lines. */
  function Servers(lines: seq<string>): seq<string> {
    if lines == [] then []
    else
      var last := lines[|lines| - 1];
      Servers(lines[..|lines| - 1]) + (if IsServer(last) then [Strip(last)] else [])
  }

  function Mirrors(text: string): seq<string> {
    Servers(SplitLines(text))
  }

  /** `file` is the file, when there is one; `read` is how reading it ends. */
  method ValidateMirrorlist(file: Option<File>, read: Reply<()>) returns (v: Validation)
    ensures v.Valid? <==> file.Some? && read.Returns? && Mirrors(file.value.text) != []
    ensures v.Valid? ==> v.mirrors == |Mirrors(file.value.text)|
    ensures v == Missing <==> file.None?
    ensures v.Unreadable? <==> file.Some? && read.Raises?
    ensures v == Empty <==> file.Some? && read.Returns? && Strip(file.value.text) == ""
  {
    if file.None? { return Missing; }
    if read.Raises? { return Unreadable(read.error); }
    var content := file.value.text;
    if Strip(content) == "" {
      BlankHasNoMirrors(content);
      return Empty;
    }
    var mirrorCount, lines := 0, SplitLines(content);
    for i := 0 to |lines|
      invariant mirrorCount == |Servers(lines[..i])|
    {
      assert lines[..i + 1][..i] == lines[..i];
      if MatchesAt(Strip(lines[i]), PREFIX, 0) { mirrorCount := mirrorCount + 1; }
    }
    assert lines[..|lines|] == lines;
    return if mirrorCount == 0 then NoMirrors else Valid(mirrorCount);
  }

  function ProtocolOf(mirror: string): Option<Protocol> {
    if Find(mirror, "https://").Some? then Some(HTTPS)
    else if Find(mirror, "http://").Some? then Some(HTTP)
    else if Find(mirror, "rsync://").Some? then Some(RSYNC)
    else None
  }

  /** Which protocol a mirror counts for, also when it names several. */
  lemma ProtocolIff(mirror: string, protocol: Protocol)
    ensures var s, h, r := Mentions(mirror, "https://"), Mentions(mirror, "http://"), Mentions(mirror, "rsync://");
            ProtocolOf(mirror) == Some(protocol) <==>
              match protocol
              case HTTPS => s
              case HTTP => !s && h
              case RSYNC => !s && !h && r
  {
    MentionedIff(mirror, "https://");
    MentionedIff(mirror, "http://");
    MentionedIff(mirror, "rsync://");
  }

  predicate Mentions(s: string, part: string) {
    exists i | 0 <= i <= |s| :: MatchesAt(s, part, i)
  }

  lemma MentionedIff(s: string, part: string)
    ensures Mentions(s, part) <==> Find(s, part).Some?
  {
    if Mentions(s, part) {
      var i :| 0 <= i <= |s| && MatchesAt(s, part, i);
      FindIsFirst(s, part, i);
    }
  }

  function ProtocolsOf(mirrors: seq<string>): set<Protocol> {
    set m | m in mirrors && ProtocolOf(m).Some? :: ProtocolOf(m).value
  }

  function InfoOf(f: File): Info {
    Info(|Mirrors(f.text)|, ProtocolsOf(Mirrors(f.text)), Some(f.mtime))
  }

  /** The metadata of a file; `read` and `stat` are how reading its text and its
      time end. */
  method GetMirrorlistInfo(file: Option<File>, read: Reply<()>, stat: Reply<()>) returns (r: Reply<Info>)
    ensures file.None? ==> r == Returns(NO_INFO)
    ensures file.Some? ==> (r.Returns? <==> read.Returns? && stat.Returns?)
    ensures file.Some? && r.Raises? ==> r.error == if read.Raises? then read.error else stat.error
    ensures file.Some? && r.Returns? ==> r.value == InfoOf(file.value)
  {
    if file.None? { return Returns(NO_INFO); }
    if read.Raises? { return Raises(read.error); }
    var mirrors, lines := [], SplitLines(file.value.text);
    for i := 0 to |lines|
      invariant mirrors == Servers(lines[..i])
    {
      assert lines[..i + 1][..i] == lines[..i];
      var stripped := Strip(lines[i]);
      if MatchesAt(stripped, PREFIX, 0) { mirrors := mirrors + [stripped]; }
    }
    assert lines[..|lines|] == lines;
    var protocols := {};
    for i := 0 to |mirrors|
      invariant protocols == ProtocolsOf(mirrors[..i])
    {
      assert mirrors[..i + 1] == mirrors[..i] + [mirrors[i]];
      var p := ProtocolOf(mirrors[i]);
      if p.Some? { protocols := protocols + {p.value}; }
    }
    assert mirrors[..|mirrors|] == mirrors;
    if stat.Raises? { return Raises(stat.error); }
    return Returns(Info(|mirrors|, protocols, Some(file.value.mtime)));
  }

  // ----- what counts as a mirror -----

  /** A file of nothing but whitespace lists no mirror, so refusing it early
      refuses nothing else. */
  lemma BlankHasNoMirrors(text: string)
    requires Strip(text) == ""
    ensures Mirrors(text) == []
  {
    var l, r := StripCuts(text);
    assert Blank(text);
    BlankLines(text);
    BlankServers(SplitLines(text));
  }

  lemma {:induction false} BlankLines(s: string)
    requires Blank(s)
    ensures forall line <- SplitLines(s) :: Blank(line)
  {
    if s != "" {
      var n := LineEnd(s);
      var rest := s[if n < |s| then n + 1 else n..];
      assert forall c <- s[..n] :: c in s;
      assert forall c <- rest :: c in s;
      BlankLines(rest);
    }
  }

  lemma {:induction false} BlankServers(lines: seq<string>)
    requires forall line <- lines :: Blank(line)
    ensures Servers(lines) == []
  {
    if lines != [] {
      var last := lines[|lines| - 1];
      BlankServers(lines[..|lines| - 1]);
      assert Blank(last);
      StripOf(last, "", "");
      assert last + "" + "" == last;
    }
  }

  /** A printed mirror is listed as itself, whatever whitespace is around it, iff
      its address is not empty and ends without whitespace. */
  lemma PrintedMirrorIff(l: string, url: string, r: string)
    requires Blank(l) && Blank(r)
    ensures Servers([l + "Server = " + url + r]) == ["Server = " + url]
            <==> url != "" && !IsSpace(url[|url| - 1])
  {
    var line := l + PREFIX + url + r;
    var a, b := StripCuts(line);
    OneServer(line);
    if url != "" && !IsSpace(url[|url| - 1]) {
      assert line == l + (PREFIX + url) + r;
      assert Stripped(PREFIX + url);
      StripOf(l, PREFIX + url, r);
    }
    if Servers([line]) == [PREFIX + url] {
      assert Stripped(PREFIX + url);
    }
  }

  lemma OneServer(line: string)
    ensures Servers([line]) == if IsServer(line) then [Strip(line)] else []
  {
  }

  /** A commented line lists nothing. */
  lemma CommentListsNothing(l: string, rest: string)
    requires Blank(l)
    ensures Servers([l + "#" + rest]) == []
  {
    var line := l + "#" + rest;
    OneServer(line);
    StripLeftOf(l, "#" + rest);
    assert line == l + ("#" + rest);
    var r := StripRightCuts("#" + rest);
    if Strip(line) != "" { assert Strip(line)[0] == '#' && PREFIX[0] == 'S'; }
  }

  /** Mirrors are listed in file order. */
  lemma MirrorsOfTwo(a: string, b: string)
    ensures Mirrors(a + "\n" + b) == Mirrors(a) + Mirrors(b)
  {
    hide SplitLines, Servers;
    LinesOfTwo(a, b);
    ServersOfTwo(SplitLines(a) + Gap(a), SplitLines(b));
    ServersOfTwo(SplitLines(a), Gap(a));
    NothingInGap(a);
  }

  lemma NothingInGap(a: string)
    ensures Servers(Gap(a)) == []
  {
  }

  lemma {:induction false} ServersOfTwo(a: seq<string>, b: seq<string>)
    ensures Servers(a + b) == Servers(a) + Servers(b)
  {
    if b == [] {
      assert a + b == a;
    } else {
      assert (a + b)[..|a + b| - 1] == a + b[..|b| - 1];
      ServersOfTwo(a, b[..|b| - 1]);
    }
  }
}
