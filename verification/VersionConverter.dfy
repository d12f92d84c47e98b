/** The version converter of the release build: PEP 440 strings to four dotted
    numbers whose order should be the order of the versions. */
module VersionConverter {
  import opened Std

  // ----- decimal numbers -----

  predicate IsDigit(c: char) {
    '0' <= c <= '9'
  }

  /** How many digits a text starts with. */
  function DigitRun(s: string): (n: nat)
    ensures n <= |s| && (forall i | 0 <= i < n :: IsDigit(s[i])) && (n < |s| ==> !IsDigit(s[n]))
  {
    if s == "" || !IsDigit(s[0]) then 0 else 1 + DigitRun(s[1..])
  }

  function DigitValue(c: char): nat
    requires IsDigit(c)
  {
    c as int - '0' as int
  }

  function ToInt(digits: string): nat
    requires forall c <- digits :: IsDigit(c)
  {
    if digits == "" then 0
    else ToInt(digits[..|digits| - 1]) * 10 + DigitValue(digits[|digits| - 1])
  }

  function Decimal(n: nat): (s: string)
    ensures s != "" && forall c <- s :: IsDigit(c)
  {
    (if n < 10 then "" else Decimal(n / 10)) + [('0' as int + n % 10) as char]
  }

  lemma {:induction false} DecimalReads(n: nat)
    ensures ToInt(Decimal(n)) == n
  {
    var s := Decimal(n);
    assert s[..|s| - 1] == if n < 10 then "" else Decimal(n / 10);
    if n >= 10 { DecimalReads(n / 10); }
  }

  // ----- the conversion -----

  /** The numbers of the leading release part, as text. */
  function BaseParts(s: string): seq<string> {
    var n := DigitRun(s);
    if n == 0 then [] else [s[..n]] + MoreParts(s[n..])
  }

  function MoreParts(s: string): seq<string> {
    if s != "" && s[0] == '.' && DigitRun(s[1..]) > 0
    then
      var n := DigitRun(s[1..]);
      [s[1..][..n]] + MoreParts(s[1..][n..])
    else []
  }

  predicate StartsWith(s: string, w: string) {
    |w| <= |s| && forall i | 0 <= i < |w| :: s[i] == w[i]
  }

  datatype Tag = Tag(word: string, number: nat)

  /** One of the words with digits behind it, at the start of the text. */
  function TagHere(s: string, words: seq<string>): Option<Tag> {
    if words == [] then None
    else if StartsWith(s, words[0]) && DigitRun(s[|words[0]|..]) > 0
    then
      var rest := s[|words[0]|..];
      Some(Tag(words[0], ToInt(rest[..DigitRun(rest)])))
    else TagHere(s, words[1..])
  }

  /** The leftmost such place. */
  function Search(s: string, words: seq<string>): Option<Tag> {
    if s == "" then None
    else if TagHere(s, words).Some? then TagHere(s, words)
    else Search(s[1..], words)
  }

  const POST_WORDS := ["post", "rev"]
  const PHASE_WORDS := ["dev", "a", "b", "rc"]
  const POST_OFFSET := 9000
  const STABLE_BUILD := 9000

  function PhaseOffset(word: string): nat {
    if word == "dev" then 1000 else if word == "a" then 3000 else if word == "b" then 5000 else 7000
  }

  function Build(s: string): nat {
    var post := Search(s, POST_WORDS);
    if post.Some? then POST_OFFSET + post.value.number
    else
      var phase := Search(s, PHASE_WORDS);
      if phase.Some? then PhaseOffset(phase.value.word) + phase.value.number
      else STABLE_BUILD
  }

  function Padded(parts: seq<string>): seq<string>
    decreases 3 - |parts|
  {
    if |parts| < 3 then Padded(parts + ["0"]) else parts
  }

  lemma {:induction false} PaddedLength(parts: seq<string>)
    ensures |Padded(parts)| >= 3 && parts <= Padded(parts)
    ensures forall i | |parts| <= i < |Padded(parts)| :: Padded(parts)[i] == "0"
    decreases 3 - |parts|
  {
    if |parts| < 3 { PaddedLength(parts + ["0"]); }
  }

  function Converted(s: string): Reply<string> {
    if BaseParts(s) == [] then Raises("Cannot parse version: " + s)
    else
      PaddedLength(BaseParts(s));
      var p := Padded(BaseParts(s));
      Returns(p[0] + "." + p[1] + "." + p[2] + "." + Decimal(Build(s)))
  }

  method Convert(s: string) returns (r: Reply<string>)
    ensures r == Converted(s)
  {
    var parts := BaseParts(s);
    if parts == [] { return Raises("Cannot parse version: " + s); }
    PaddedLength(parts);
    while |parts| < 3
      invariant Padded(parts) == Padded(BaseParts(s)) && parts != []
      decreases 3 - |parts|
    {
      parts := parts + ["0"];
    }
    var build := Build(s);
    return Returns(parts[0] + "." + parts[1] + "." + parts[2] + "." + Decimal(build));
  }

  /** Only a text without a leading digit is refused. */
  lemma RefusedIff(s: string)
    ensures Converted(s).Raises? <==> s == "" || !IsDigit(s[0])
  {
  }

  // ----- PEP 440 versions -----

  datatype Suffix = Dev(n: nat) | A(n: nat) | B(n: nat) | Rc(n: nat) | Final | Post(n: nat, rev: bool)

  /** A version with at most one suffix; the release part is not empty. */
  datatype Version = Version(release: seq<nat>, suffix: Suffix)

  function PrintSuffix(x: Suffix): string {
    match x
    case Dev(n) => ".dev" + Decimal(n)
    case A(n) => "a" + Decimal(n)
    case B(n) => "b" + Decimal(n)
    case Rc(n) => "rc" + Decimal(n)
    case Final => ""
    case Post(n, rev) => (if rev then ".rev" else ".post") + Decimal(n)
  }

  function PrintRelease(r: seq<nat>): string
    requires r != []
  {
    if |r| == 1 then Decimal(r[0]) else Decimal(r[0]) + "." + PrintRelease(r[1..])
  }

  function Print(v: Version): string
    requires v.release != []
  {
    PrintRelease(v.release) + PrintSuffix(v.suffix)
  }

  /** The release number at a position; a shorter release reads as zeros. */
  function Number(v: Version, i: nat): nat {
    if i < |v.release| then v.release[i] else 0
  }

  /** Phase before number: dev, alpha, beta, candidate, final, post. */
  function Phase(x: Suffix): nat {
    match x
    case Dev(_) => 0
    case A(_) => 1
    case B(_) => 2
    case Rc(_) => 3
    case Final => 4
    case Post(_, _) => 5
  }

  function Count(x: Suffix): nat {
    if x.Final? then 0 else x.n
  }

  predicate SuffixLess(x: Suffix, y: Suffix) {
    Phase(x) < Phase(y) || (Phase(x) == Phase(y) && Count(x) < Count(y))
  }

  ghost predicate SameRelease(v: Version, w: Version) {
    forall i: nat :: Number(v, i) == Number(w, i)
  }

  ghost predicate ReleaseLess(v: Version, w: Version) {
    exists i: nat :: Number(v, i) < Number(w, i) && forall j: nat | j < i :: Number(v, j) == Number(w, j)
  }

  /** The PEP 440 order, "Summary of permitted suffixes and relative ordering". */
  ghost predicate Precedes(v: Version, w: Version) {
    ReleaseLess(v, w) || (SameRelease(v, w) && SuffixLess(v.suffix, w.suffix))
  }

  // ----- what the converter makes of them -----

  function BuildOf(x: Suffix): nat {
    match x
    case Dev(n) => 1000 + n
    case A(n) => 3000 + n
    case B(n) => 5000 + n
    case Rc(n) => 7000 + n
    case Final => 9000
    case Post(n, _) => 9000 + n
  }

  function Encode(v: Version): seq<nat> {
    [Number(v, 0), Number(v, 1), Number(v, 2), BuildOf(v.suffix)]
  }

  ghost predicate LexLess(a: seq<nat>, b: seq<nat>)
    requires |a| == |b|
  {
    exists i | 0 <= i < |a| :: a[i] < b[i] && a[..i] == b[..i]
  }

  /** Every printed version converts to its encoding, printed. */
  lemma ConvertPrinted(v: Version)
    requires v.release != []
    ensures Converted(Print(v)) == Returns(PrintRelease(Encode(v)))
  {
    hide Build, Search;
    ReleaseParts(v.release, PrintSuffix(v.suffix));
    SuffixStart(v.suffix);
    BuildOfPrinted(v);
    PaddedRelease(v);
    var e := Encode(v);
    PrintFour(e[0], e[1], e[2], e[3]);
  }

  lemma PrintFour(a: nat, b: nat, c: nat, d: nat)
    ensures PrintRelease([a, b, c, d]) == Decimal(a) + "." + Decimal(b) + "." + Decimal(c) + "." + Decimal(d)
  {
    hide Decimal;
    assert [a, b, c, d][1..] == [b, c, d] && [b, c, d][1..] == [c, d] && [c, d][1..] == [d];
    assert PrintRelease([c, d]) == Decimal(c) + "." + Decimal(d);
    assert PrintRelease([b, c, d]) == Decimal(b) + "." + PrintRelease([c, d]);
    assert PrintRelease([a, b, c, d]) == Decimal(a) + "." + PrintRelease([b, c, d]);
    FourDotted(Decimal(a), Decimal(b), Decimal(c), Decimal(d));
  }

  lemma FourDotted(a: string, b: string, c: string, d: string)
    ensures a + "." + (b + "." + (c + "." + d)) == a + "." + b + "." + c + "." + d
  {
  }

  function Decimals(r: seq<nat>): seq<string> {
    seq(|r|, i requires 0 <= i < |r| => Decimal(r[i]))
  }

  lemma PaddedRelease(v: Version)
    requires v.release != []
    ensures var p := Padded(Decimals(v.release));
            |p| >= 3 && p[0] == Decimal(Number(v, 0)) && p[1] == Decimal(Number(v, 1)) && p[2] == Decimal(Number(v, 2))
  {
    PaddedLength(Decimals(v.release));
    assert Decimal(0) == "0";
  }

  /** A suffix starts with something that ends the release part. */
  lemma SuffixStart(x: Suffix)
    ensures EndsRelease(PrintSuffix(x))
  {
  }

  predicate EndsRelease(s: string) {
    s == "" || (!IsDigit(s[0]) && (s[0] == '.' ==> |s| > 1 && !IsDigit(s[1])))
  }

  lemma {:induction false} DigitRunOf(digits: string, rest: string)
    requires (forall c <- digits :: IsDigit(c)) && (rest == "" || !IsDigit(rest[0]))
    ensures DigitRun(digits + rest) == |digits|
  {
    if digits == "" {
      assert digits + rest == rest;
    } else {
      assert digits[0] in digits && (digits + rest)[1..] == digits[1..] + rest;
      DigitRunOf(digits[1..], rest);
    }
  }

  lemma {:induction false} ReleaseParts(r: seq<nat>, rest: string)
    requires r != [] && EndsRelease(rest)
    ensures BaseParts(PrintRelease(r) + rest) == Decimals(r)
  {
    hide Decimal, BaseParts;
    if |r| == 1 {
      LastPart(r[0], rest);
    } else {
      var tail := PrintRelease(r[1..]) + rest;
      ReleaseParts(r[1..], rest);
      FirstPart(r[0], tail);
      MoreRelease(r, rest);
    }
  }

  lemma MoreRelease(r: seq<nat>, rest: string)
    requires |r| > 1
    ensures PrintRelease(r) + rest == Decimal(r[0]) + ("." + (PrintRelease(r[1..]) + rest))
    ensures Decimals(r) == [Decimal(r[0])] + Decimals(r[1..])
  {
    hide Decimal, Decimals;
    DotBehind(Decimal(r[0]), PrintRelease(r[1..]), rest);
    MoreDecimals(r);
  }

  lemma DotBehind(d: string, t: string, rest: string)
    ensures d + "." + t + rest == d + ("." + (t + rest))
  {
  }

  lemma MoreDecimals(r: seq<nat>)
    requires r != []
    ensures Decimals(r) == [Decimal(r[0])] + Decimals(r[1..])
  {
  }

  lemma LastPart(n: nat, rest: string)
    requires EndsRelease(rest)
    ensures BaseParts(Decimal(n) + rest) == [Decimal(n)]
  {
    hide Decimal;
    var d := Decimal(n);
    DigitRunOf(d, rest);
    assert (d + rest)[..|d|] == d && (d + rest)[|d|..] == rest;
    assert rest != "" && rest[0] == '.' ==> rest[1..][0] == rest[1];
  }

  lemma FirstPart(n: nat, tail: string)
    requires DigitRun(tail) > 0
    ensures BaseParts(Decimal(n) + ("." + tail)) == [Decimal(n)] + BaseParts(tail)
  {
    hide Decimal;
    var d := Decimal(n);
    DigitRunOf(d, "." + tail);
    assert (d + ("." + tail))[..|d|] == d && (d + ("." + tail))[|d|..] == "." + tail;
    assert ("." + tail)[1..] == tail;
  }

  predicate Numeric(s: string) {
    forall c <- s :: IsDigit(c) || c == '.'
  }

  predicate Wordy(words: seq<string>) {
    forall w <- words :: w != "" && !IsDigit(w[0]) && w[0] != '.'
  }

  lemma {:induction false} NothingAtNumeric(s: string, words: seq<string>)
    requires Wordy(words) && s != "" && (IsDigit(s[0]) || s[0] == '.')
    ensures TagHere(s, words) == None
  {
    if words != [] {
      assert words[0] in words;
      assert forall w <- words[1..] :: w in words;
      NothingAtNumeric(s, words[1..]);
    }
  }

  lemma {:induction false} SearchSkipsNumbers(s: string, rest: string, words: seq<string>)
    requires Numeric(s) && Wordy(words)
    ensures Search(s + rest, words) == Search(rest, words)
  {
    if s == "" {
      assert s + rest == rest;
    } else {
      var t := s + rest;
      assert s[0] in s && t[0] == s[0] && t[1..] == s[1..] + rest;
      NothingAtNumeric(t, words);
      SearchSkipsNumbers(s[1..], rest, words);
    }
  }

  lemma {:induction false} ReleaseIsNumeric(r: seq<nat>)
    requires r != []
    ensures Numeric(PrintRelease(r))
  {
    if |r| > 1 { ReleaseIsNumeric(r[1..]); }
  }

  lemma NumbersHoldNoTag(digits: string, words: seq<string>)
    requires Numeric(digits) && Wordy(words)
    ensures Search(digits, words) == None
  {
    SearchSkipsNumbers(digits, "", words);
    assert digits + "" == digits;
  }

  lemma BuildOfPrinted(v: Version)
    requires v.release != []
    ensures Build(Print(v)) == BuildOf(v.suffix)
  {
    ReleaseIsNumeric(v.release);
    SearchSkipsNumbers(PrintRelease(v.release), PrintSuffix(v.suffix), POST_WORDS);
    SearchSkipsNumbers(PrintRelease(v.release), PrintSuffix(v.suffix), PHASE_WORDS);
    SuffixTags(v.suffix);
  }

  /** The tags found in a printed suffix. */
  lemma SuffixTags(x: Suffix)
    ensures Search(PrintSuffix(x), POST_WORDS)
            == if x.Post? then Some(Tag(if x.rev then "rev" else "post", x.n)) else None
    ensures !x.Post? && !x.Final? ==> Search(PrintSuffix(x), PHASE_WORDS) == Some(Tag(PHASE_WORDS[Phase(x)], x.n))
    ensures x.Final? ==> Search(PrintSuffix(x), PHASE_WORDS) == None
  {
    match x
    case Dev(n) => DevTags(n);
    case A(n) => LetterTags('a', n);
    case B(n) => LetterTags('b', n);
    case Rc(n) => RcTags(n);
    case Final =>
    case Post(n, rev) => PostTags(n, rev);
  }

  /** A word with its number is found where the words before it do not match. */
  lemma Tagged(word: string, n: nat, words: seq<string>, k: nat)
    requires k < |words| && words[k] == word && word != ""
    requires NoneStartsWith(words[..k], word[0])
    ensures Search(word + Decimal(n), words) == Some(Tag(word, n))
  {
    TagAt(word, n, words, k);
  }

  lemma {:induction false} TagAt(word: string, n: nat, words: seq<string>, k: nat)
    requires k < |words| && words[k] == word && word != ""
    requires NoneStartsWith(words[..k], word[0])
    ensures TagHere(word + Decimal(n), words) == Some(Tag(word, n))
  {
    var d := Decimal(n);
    if k == 0 {
      DigitRunOf(d, "");
      assert (word + d)[|word|..] == d == d + "" && d[..|d|] == d;
      DecimalReads(n);
    } else {
      assert (word + d)[0] == word[0];
      assert words[..k][0] == words[0] && words[1..][..k - 1] == words[..k][1..];
      assert forall w <- words[..k][1..] :: w in words[..k];
      TagAt(word, n, words[1..], k - 1);
    }
  }

  lemma {:induction false} NoTag(s: string, words: seq<string>)
    requires forall w <- words :: !StartsWith(s, w)
    ensures TagHere(s, words) == None
  {
    if words != [] {
      assert words[0] in words;
      assert forall w <- words[1..] :: w in words;
      NoTag(s, words[1..]);
    }
  }

  predicate NoneStartsWith(words: seq<string>, c: char) {
    forall w <- words :: w != "" && w[0] != c
  }

  /** A letter that starts no word is passed over. */
  lemma Skip(c: char, s: string, words: seq<string>)
    requires NoneStartsWith(words, c)
    ensures Search([c] + s, words) == Search(s, words)
  {
    assert ([c] + s)[0] == c;
    NoTag([c] + s, words);
    assert ([c] + s)[1..] == s;
  }

  lemma DevTags(n: nat)
    ensures Search(".dev" + Decimal(n), POST_WORDS) == None
    ensures Search(".dev" + Decimal(n), PHASE_WORDS) == Some(Tag("dev", n))
  {
    hide Search, TagHere, Decimal;
    var d := Decimal(n);
    assert ".dev" + d == ['.'] + (['d'] + (['e'] + (['v'] + d)));
    Skip('.', ['d'] + (['e'] + (['v'] + d)), POST_WORDS);
    Skip('d', ['e'] + (['v'] + d), POST_WORDS);
    Skip('e', ['v'] + d, POST_WORDS);
    Skip('v', d, POST_WORDS);
    NumbersHoldNoTag(d, POST_WORDS);
    assert ".dev" + d == ['.'] + ("dev" + d);
    Skip('.', "dev" + d, PHASE_WORDS);
    Tagged("dev", n, PHASE_WORDS, 0);
  }

  lemma LetterTags(c: char, n: nat)
    requires c == 'a' || c == 'b'
    ensures Search([c] + Decimal(n), POST_WORDS) == None
    ensures Search([c] + Decimal(n), PHASE_WORDS) == Some(Tag([c], n))
  {
    hide Search, TagHere, Decimal;
    Skip(c, Decimal(n), POST_WORDS);
    NumbersHoldNoTag(Decimal(n), POST_WORDS);
    Tagged([c], n, PHASE_WORDS, if c == 'a' then 1 else 2);
  }

  lemma NotRev(d: string)
    ensures Search("rc" + d, POST_WORDS) == Search(['c'] + d, POST_WORDS)
  {
    var s := "rc" + d;
    assert s[0] == 'r' && s[1] == 'c' && "post"[0] == 'p' && "rev"[1] == 'e';
    NoTag(s, POST_WORDS);
    assert s[1..] == ['c'] + d;
  }

  lemma RcTags(n: nat)
    ensures Search("rc" + Decimal(n), POST_WORDS) == None
    ensures Search("rc" + Decimal(n), PHASE_WORDS) == Some(Tag("rc", n))
  {
    hide Search, TagHere, Decimal;
    var d := Decimal(n);
    NotRev(d);
    Skip('c', d, POST_WORDS);
    NumbersHoldNoTag(d, POST_WORDS);
    Tagged("rc", n, PHASE_WORDS, 3);
  }

  lemma PostTags(n: nat, rev: bool)
    ensures Search((if rev then ".rev" else ".post") + Decimal(n), POST_WORDS)
            == Some(Tag(if rev then "rev" else "post", n))
  {
    hide Search, TagHere, Decimal;
    var word := if rev then "rev" else "post";
    assert (if rev then ".rev" else ".post") + Decimal(n) == ['.'] + (word + Decimal(n));
    Skip('.', word + Decimal(n), POST_WORDS);
    Tagged(word, n, POST_WORDS, if rev then 1 else 0);
  }

  // ----- a post-release of a pre-release -----

  /** A post-release number decides alone: what it is a post-release of is not
      encoded. */
  lemma PostWins(v: Version, n: nat)
    requires v.release != [] && !v.suffix.Post?
    ensures Converted(Print(v) + (".post" + Decimal(n)))
            == Returns(PrintRelease([Number(v, 0), Number(v, 1), Number(v, 2), 9000 + n]))
  {
    hide Search, TagHere, Decimal;
    var rest := PrintSuffix(v.suffix) + (".post" + Decimal(n));
    assert Print(v) + (".post" + Decimal(n)) == PrintRelease(v.release) + rest;
    ReleaseParts(v.release, rest);
    ReleaseIsNumeric(v.release);
    SearchSkipsNumbers(PrintRelease(v.release), rest, POST_WORDS);
    PostFound(v.suffix, n);
    PaddedRelease(v);
    PrintFour(Number(v, 0), Number(v, 1), Number(v, 2), 9000 + n);
  }

  /** So the post-release 0 of an alpha, which comes before the final release, is
      converted like the final release itself. */
  lemma PostOfAlphaCollides(r: seq<nat>, k: nat)
    requires r != []
    ensures Converted(Print(Version(r, A(k))) + ".post0") == Converted(Print(Version(r, Final)))
  {
    hide Converted;
    assert Decimal(0) == "0" && ".post" + "0" == ".post0";
    PostWins(Version(r, A(k)), 0);
    ConvertPrinted(Version(r, Final));
  }

  lemma PostFound(x: Suffix, n: nat)
    requires !x.Post?
    ensures Search(PrintSuffix(x) + (".post" + Decimal(n)), POST_WORDS) == Some(Tag("post", n))
  {
    hide Search, TagHere, Decimal;
    var post := "post" + Decimal(n);
    var tail := ['.'] + post;
    assert ".post" + Decimal(n) == tail;
    Skip('.', post, POST_WORDS);
    Tagged("post", n, POST_WORDS, 0);
    match x {
      case Final =>
        assert "" + tail == tail;
      case A(k) =>
        LetterAndNumber('a', k, tail);
      case B(k) =>
        LetterAndNumber('b', k, tail);
      case Dev(k) =>
        DevAndNumber(k, tail);
      case Rc(k) =>
        RcAndNumber(k, tail);
    }
  }

  lemma DevAndNumber(k: nat, tail: string)
    ensures Search(".dev" + Decimal(k) + tail, POST_WORDS) == Search(tail, POST_WORDS)
  {
    hide Search, TagHere, Decimal;
    var last := ['v'] + Decimal(k) + tail;
    assert ".dev" + Decimal(k) + tail == ['.'] + (['d'] + (['e'] + last));
    Skip('.', ['d'] + (['e'] + last), POST_WORDS);
    Skip('d', ['e'] + last, POST_WORDS);
    Skip('e', last, POST_WORDS);
    LetterAndNumber('v', k, tail);
  }

  lemma RcAndNumber(k: nat, tail: string)
    ensures Search("rc" + Decimal(k) + tail, POST_WORDS) == Search(tail, POST_WORDS)
  {
    hide Search, TagHere, Decimal;
    assert "rc" + Decimal(k) + tail == "rc" + (Decimal(k) + tail);
    NotRev(Decimal(k) + tail);
    assert ['c'] + (Decimal(k) + tail) == ['c'] + Decimal(k) + tail;
    LetterAndNumber('c', k, tail);
  }

  lemma LetterAndNumber(c: char, k: nat, tail: string)
    requires NoneStartsWith(POST_WORDS, c)
    ensures Search([c] + Decimal(k) + tail, POST_WORDS) == Search(tail, POST_WORDS)
  {
    hide Search, TagHere, Decimal;
    assert [c] + Decimal(k) + tail == [c] + (Decimal(k) + tail);
    Skip(c, Decimal(k) + tail, POST_WORDS);
    SearchSkipsNumbers(Decimal(k), tail, POST_WORDS);
  }

  // ----- the order -----

  /** The numbers of a converted version. */
  function Numbers(s: string): seq<nat>
  {
    var parts := BaseParts(s);
    seq(|parts|, i requires 0 <= i < |parts| =>
      if forall c <- parts[i] :: IsDigit(c) then ToInt(parts[i]) else 0)
  }

  /** The printed encoding reads back as the encoding. */
  lemma PrintedNumbers(r: seq<nat>)
    requires r != []
    ensures Numbers(PrintRelease(r)) == r
  {
    ReleaseParts(r, "");
    assert PrintRelease(r) + "" == PrintRelease(r);
    forall i | 0 <= i < |r|
      ensures Numbers(PrintRelease(r))[i] == r[i]
    {
      DecimalReads(r[i]);
    }
  }

  /** Versions with at most `k` release numbers and pre-release numbers below
      `limit`. */
  predicate InScope(v: Version, limit: nat, k: nat) {
    1 <= |v.release| <= k && (Phase(v.suffix) < 4 ==> Count(v.suffix) < limit)
  }

  /** A final release and its post-release number 0 get the same encoding. */
  ghost predicate FinalThenPostZero(v: Version, w: Version) {
    SameRelease(v, w) && v.suffix.Final? && w.suffix.Post? && w.suffix.n == 0
  }

  /** The converter keeps the order of this pair, up to that one coincidence. */
  ghost predicate KeepsOrder(v: Version, w: Version)
    requires v.release != [] && w.release != []
  {
    ConvertPrinted(v);
    ConvertPrinted(w);
    PrintedNumbers(Encode(v));
    PrintedNumbers(Encode(w));
    LexLess(Numbers(Converted(Print(v)).value), Numbers(Converted(Print(w)).value))
    <==> Precedes(v, w) && !FinalThenPostZero(v, w)
  }

  /** The converter is an order embedding on exactly the scopes with at most
      three release numbers and pre-release numbers below 2000. */
  lemma OrderEmbeddingIff(limit: nat, k: nat)
    requires k >= 1
    ensures (forall v, w | InScope(v, limit, k) && InScope(w, limit, k) :: KeepsOrder(v, w))
            <==> limit <= 2000 && k <= 3
  {
    hide KeepsOrder, Precedes;
    if limit <= 2000 && k <= 3 {
      forall v, w | InScope(v, limit, k) && InScope(w, limit, k)
        ensures KeepsOrder(v, w)
      {
        Embeds(v, w);
      }
    } else if k > 3 {
      FourthNumberDropped();
    } else {
      PhasesCollide();
    }
  }

  /** Keeping the order is a matter of the encodings. */
  lemma OrderOfEncodings(v: Version, w: Version)
    requires v.release != [] && w.release != []
    ensures KeepsOrder(v, w)
            <==> (LexLess(Encode(v), Encode(w)) <==> Precedes(v, w) && !FinalThenPostZero(v, w))
  {
    hide Converted, Numbers, LexLess, Precedes, FinalThenPostZero, Print;
    ConvertPrinted(v);
    ConvertPrinted(w);
    PrintedNumbers(Encode(v));
    PrintedNumbers(Encode(w));
  }

  lemma Embeds(v: Version, w: Version)
    requires InScope(v, 2000, 3) && InScope(w, 2000, 3)
    ensures KeepsOrder(v, w)
  {
    hide KeepsOrder, LexLess, ReleaseLess, SameRelease;
    OrderOfEncodings(v, w);
    LexLessFour(Encode(v), Encode(w));
    ShortReleases(v, w);
    BuildsKeepOrder(v.suffix, w.suffix);
  }

  lemma BuildsKeepOrder(x: Suffix, y: Suffix)
    requires Phase(x) < 4 ==> Count(x) < 2000
    requires Phase(y) < 4 ==> Count(y) < 2000
    ensures BuildOf(x) < BuildOf(y) <==> SuffixLess(x, y) && !(x.Final? && y.Post? && y.n == 0)
  {
  }

  lemma LexLessFour(a: seq<nat>, b: seq<nat>)
    requires |a| == |b| == 4
    ensures LexLess(a, b)
            <==> || a[0] < b[0]
                 || (a[0] == b[0] && (a[1] < b[1] || (a[1] == b[1] && (a[2] < b[2] || (a[2] == b[2] && a[3] < b[3])))))
  {
  }

  lemma ShortReleases(v: Version, w: Version)
    requires |v.release| <= 3 && |w.release| <= 3
    ensures SameRelease(v, w)
            <==> Number(v, 0) == Number(w, 0) && Number(v, 1) == Number(w, 1) && Number(v, 2) == Number(w, 2)
    ensures ReleaseLess(v, w)
            <==> || Number(v, 0) < Number(w, 0)
                 || (Number(v, 0) == Number(w, 0)
                     && (Number(v, 1) < Number(w, 1) || (Number(v, 1) == Number(w, 1) && Number(v, 2) < Number(w, 2))))
  {
  }

  /** Alpha 2000 is encoded like beta 0. */
  lemma PhasesCollide()
    ensures var v, w := Version([0], A(2000)), Version([0], B(0)); Precedes(v, w) && !KeepsOrder(v, w)
  {
    hide KeepsOrder;
    var v, w := Version([0], A(2000)), Version([0], B(0));
    OrderOfEncodings(v, w);
    LexLessFour(Encode(v), Encode(w));
    assert SameRelease(v, w);
  }

  /** A fourth release number is not encoded at all. */
  lemma FourthNumberDropped()
    ensures var v, w := Version([0, 0, 0, 1], Final), Version([0, 0, 0, 2], Final); Precedes(v, w) && !KeepsOrder(v, w)
  {
    hide KeepsOrder;
    var v, w := Version([0, 0, 0, 1], Final), Version([0, 0, 0, 2], Final);
    assert Number(v, 3) < Number(w, 3);
    OrderOfEncodings(v, w);
    LexLessFour(Encode(v), Encode(w));
  }
}
