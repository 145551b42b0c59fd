/** The checksum file of a model artifact: the line format that training writes
    and the parser that verification reads it with. */
module Checksums {
  import opened Strings

  /** Python's `str.isspace` on one character. */
  predicate IsPySpace(c: char) {
    IsSpace(c) || '\U{001C}' <= c <= '\U{001F}'
  }

  /** The characters `str.splitlines` splits at. */
  predicate IsBreak(c: char) {
    '\n' <= c <= '\r' || '\U{001C}' <= c <= '\U{001E}' || c == '\U{0085}' || '\U{2028}' <= c <= '\U{2029}'
  }

  predicate IsHex(c: char) {
    '0' <= c <= '9' || 'a' <= c <= 'f'
  }

  predicate IsDigest(s: string) {
    |s| == 64 && forall i :: 0 <= i < |s| ==> IsHex(s[i])
  }

  // ---------------------------------------------------------------------
  // String methods
  // ---------------------------------------------------------------------

  /** Index of the first character with property `p`, or the length. */
  function First(s: string, p: char -> bool): (i: nat)
    ensures i <= |s|
    ensures forall j :: 0 <= j < i ==> !p(s[j])
    ensures i < |s| ==> p(s[i])
  {
    if s == "" || p(s[0]) then 0
    else
      var i := First(s[1..], p) + 1;
      assert forall j :: 1 <= j < i ==> s[j] == s[1..][j - 1];
      i
  }

  lemma {:induction false} FirstAfter(a: string, b: string, p: char -> bool)
    requires (forall i :: 0 <= i < |a| ==> !p(a[i])) && b != "" && p(b[0])
    ensures First(a + b, p) == |a|
  {
    if a == "" {
      assert a + b == b;
    } else {
      assert (a + b)[1..] == a[1..] + b;
      FirstAfter(a[1..], b, p);
    }
  }

  function SplitLines(text: string): seq<string>
    decreases |text|
  {
    if text == "" then []
    else
      var i := First(text, IsBreak);
      if i == |text| then [text]
      else
        var next := if text[i] == '\r' && i + 1 < |text| && text[i + 1] == '\n' then i + 2 else i + 1;
        [text[..i]] + SplitLines(text[next..])
  }

  function TrimLeft(s: string): string {
    if s != "" && IsPySpace(s[0]) then TrimLeft(s[1..]) else s
  }

  function TrimRight(s: string): string {
    if s != "" && IsPySpace(s[|s| - 1]) then TrimRight(s[..|s| - 1]) else s
  }

  function Strip(s: string): string {
    TrimRight(TrimLeft(s))
  }

  function StripStars(s: string): string {
    if s != "" && s[0] == '*' then StripStars(s[1..]) else s
  }

  /** Neither end of the string is white space. */
  predicate Tight(s: string) {
    s == "" || (!IsPySpace(s[0]) && !IsPySpace(s[|s| - 1]))
  }

  lemma {:induction false} StripIsTight(s: string)
    ensures Tight(Strip(s))
    decreases |s|
  {
    if s != "" && IsPySpace(s[0]) {
      StripIsTight(s[1..]);
    } else {
      TrimRightTight(s);
    }
  }

  lemma {:induction false} TrimRightTight(s: string)
    requires s == "" || !IsPySpace(s[0])
    ensures Tight(TrimRight(s))
  {
    if s == "" || !IsPySpace(s[|s| - 1]) {
    } else {
      assert s[..|s| - 1] != "" ==> s[..|s| - 1][0] == s[0];
      TrimRightTight(s[..|s| - 1]);
    }
  }

  // ---------------------------------------------------------------------
  // Writer and parser
  // ---------------------------------------------------------------------

  datatype Entry = Entry(name: string, digest: string)

  function Line(e: Entry): string {
    e.digest + "  " + e.name
  }

  /** What training writes: one line per file. */
  function Printed(es: seq<Entry>): string {
    if es == [] then "" else Line(es[0]) + "\n" + Printed(es[1..])
  }

  /** One stripped, non-empty line; `None` where the parser exits with an error. */
  function ParseLine(line: string): Option<Entry> {
    var i := First(line, IsPySpace);
    if i == |line| then None
    else
      var digest, rest := line[..i], TrimLeft(line[i..]);
      if !IsDigest(digest) then None else Some(Entry(Strip(StripStars(rest)), digest))
  }

  /** The parser's loop, from what it has collected so far. */
  function Parse(lines: seq<string>, sofar: map<string, string>): Option<map<string, string>> {
    if lines == [] then Some(sofar)
    else
      var line := Strip(lines[0]);
      if line == "" then Parse(lines[1..], sofar)
      else
        var e := ParseLine(line);
        if e.None? || e.value.name in sofar then None
        else Parse(lines[1..], sofar[e.value.name := e.value.digest])
  }

  method ReadChecksums(text: string) returns (r: Option<map<string, string>>)
    ensures r == Parse(SplitLines(text), map[])
  {
    var checksums: map<string, string> := map[];
    var lines := SplitLines(text);
    for number := 0 to |lines|
      invariant Parse(lines, map[]) == Parse(lines[number..], checksums)
    {
      var line := Strip(lines[number]);
      if line == "" {
        continue;
      }
      var i := First(line, IsPySpace);
      if i == |line| {
        return None;
      }
      var digest, filename := line[..i], TrimLeft(line[i..]);
      filename := Strip(StripStars(filename));
      if |digest| != 64 || !forall c :: c in digest ==> IsHex(c) {
        assert !IsDigest(digest);
        return None;
      }
      assert IsDigest(digest);
      if filename in checksums {
        return None;
      }
      checksums := checksums[filename := digest];
    }
    return Some(checksums);
  }

  // ---------------------------------------------------------------------
  // What the parser accepts
  // ---------------------------------------------------------------------

  /** The non-blank lines, parsed; `None` if one of them does not parse. */
  function EntriesOf(lines: seq<string>): Option<seq<Entry>> {
    if lines == [] then Some([])
    else
      var line, rest := Strip(lines[0]), EntriesOf(lines[1..]);
      if line == "" then rest
      else
        var e := ParseLine(line);
        if e.None? || rest.None? then None else Some([e.value] + rest.value)
  }

  predicate DistinctNames(es: seq<Entry>) {
    forall i, j :: 0 <= i < j < |es| ==> es[i].name != es[j].name
  }

  function MapOf(es: seq<Entry>): map<string, string> {
    if es == [] then map[] else map[es[0].name := es[0].digest] + MapOf(es[1..])
  }

  lemma {:induction false} MapOfKeys(es: seq<Entry>)
    ensures forall n :: n in MapOf(es) <==> exists i :: 0 <= i < |es| && es[i].name == n
  {
    if es == [] {
    } else {
      MapOfKeys(es[1..]);
      forall n
        ensures n in MapOf(es) <==> exists i :: 0 <= i < |es| && es[i].name == n
      {
        if n in MapOf(es[1..]) {
          var i :| 0 <= i < |es[1..]| && es[1..][i].name == n;
          assert es[i + 1].name == n;
        }
        if i :| 0 <= i < |es| && es[i].name == n {
          if i > 0 { assert es[1..][i - 1].name == n; } else { assert n in MapOf(es); }
        }
      }
    }
  }

  /** The parser accepts exactly the files whose non-blank lines all parse and
      name no file twice, and returns exactly their entries. */
  lemma {:induction false} ParseCorrect(lines: seq<string>, sofar: map<string, string>)
    ensures var es := EntriesOf(lines);
            Parse(lines, sofar)
            == if es.Some? && DistinctNames(es.value) && (forall e :: e in es.value ==> e.name !in sofar)
               then Some(sofar + MapOf(es.value)) else None
  {
    if lines == [] {
      assert sofar + MapOf([]) == sofar;
    } else {
      var line := Strip(lines[0]);
      var rest := EntriesOf(lines[1..]);
      if line == "" {
        ParseCorrect(lines[1..], sofar);
      } else if ParseLine(line).Some? {
        var e := ParseLine(line).value;
        var more := sofar[e.name := e.digest];
        ParseCorrect(lines[1..], more);
        if rest.Some? {
          var es := [e] + rest.value;
          DistinctCons(e, rest.value);
          assert forall f :: f in es <==> f == e || f in rest.value;
          if e.name !in sofar && DistinctNames(es) && forall f :: f in es ==> f.name !in sofar {
            MapOfCons(e, rest.value, sofar);
          }
        }
      }
    }
  }

  /** The same for a whole file. */
  lemma ParseFile(lines: seq<string>)
    ensures var es := EntriesOf(lines);
            Parse(lines, map[]) == if es.Some? && DistinctNames(es.value) then Some(MapOf(es.value)) else None
  {
    ParseCorrect(lines, map[]);
    if EntriesOf(lines).Some? {
      assert map[] + MapOf(EntriesOf(lines).value) == MapOf(EntriesOf(lines).value);
    }
  }

  lemma DistinctCons(e: Entry, es: seq<Entry>)
    ensures DistinctNames([e] + es) <==> DistinctNames(es) && forall f :: f in es ==> f.name != e.name
  {
    var all := [e] + es;
    if DistinctNames(all) {
      forall i, j | 0 <= i < j < |es| ensures es[i].name != es[j].name {
        assert all[i + 1] == es[i] && all[j + 1] == es[j];
      }
      forall f | f in es ensures f.name != e.name {
        var i :| 0 <= i < |es| && es[i] == f;
        assert all[i + 1] == f && all[0] == e;
      }
    }
  }

  lemma MapOfCons(e: Entry, es: seq<Entry>, sofar: map<string, string>)
    requires forall f :: f in es ==> f.name != e.name
    ensures sofar[e.name := e.digest] + MapOf(es) == sofar + MapOf([e] + es)
  {
    assert ([e] + es)[1..] == es;
    MapOfKeys(es);
  }

  /** A parsed entry has a digest of 64 lowercase hexadecimal digits and a name
      without white space at either end. */
  lemma {:induction false} EntriesWellFormed(lines: seq<string>)
    requires EntriesOf(lines).Some?
    ensures forall e :: e in EntriesOf(lines).value ==> IsDigest(e.digest) && Tight(e.name)
  {
    if lines == [] {
    } else {
      EntriesWellFormed(lines[1..]);
      var line := Strip(lines[0]);
      if line != "" {
        StripIsTight(StripStars(TrimLeft(line[First(line, IsPySpace)..])));
      }
    }
  }

  /** An accepted file lists no name twice: its entries and the mapping are in
      bijection, every digest is well formed and no name has outer white space. */
  lemma AcceptedFile(text: string)
    requires Parse(SplitLines(text), map[]).Some?
    ensures var m, es := Parse(SplitLines(text), map[]).value, EntriesOf(SplitLines(text));
            && es.Some? && DistinctNames(es.value)
            && (forall e :: e in es.value <==> e.name in m && m[e.name] == e.digest)
            && forall n :: n in m ==> IsDigest(m[n]) && Tight(n)
  {
    var lines := SplitLines(text);
    ParseFile(lines);
    EntriesWellFormed(lines);
    var es := EntriesOf(lines).value;
    MapOfEntries(es);
    forall n | n in MapOf(es)
      ensures IsDigest(MapOf(es)[n]) && Tight(n)
    {
      assert Entry(n, MapOf(es)[n]) in es;
    }
  }

  lemma {:induction false} MapOfEntries(es: seq<Entry>)
    requires DistinctNames(es)
    ensures forall e :: e in es <==> e.name in MapOf(es) && MapOf(es)[e.name] == e.digest
  {
    if es == [] {
    } else {
      assert es == [es[0]] + es[1..];
      DistinctCons(es[0], es[1..]);
      MapOfEntries(es[1..]);
      MapOfKeys(es[1..]);
    }
  }

  function AfterDigest(line: string): string {
    TrimLeft(line[First(line, IsPySpace)..])
  }

  predicate OnlyStars(s: string) {
    forall i :: 0 <= i < |s| ==> s[i] == '*'
  }

  predicate OnlySpaces(s: string) {
    forall i :: 0 <= i < |s| ==> IsPySpace(s[i])
  }

  /** Stars, then white space, then another star. */
  predicate StarsSpacesStar(s: string) {
    exists i, j :: 0 < i < j < |s| && OnlyStars(s[..i]) && OnlySpaces(s[i..j]) && s[j] == '*'
  }

  /** The parser accepts an empty file name exactly when what follows the digest
      is nothing but stars. */
  lemma EmptyNameOnlyStars(line: string)
    requires Tight(line) && ParseLine(line).Some?
    ensures ParseLine(line).value.name == "" <==> OnlyStars(AfterDigest(line))
  {
    AfterDigestTight(line);
    StarsOrTight(AfterDigest(line));
  }

  /** One such line. */
  lemma EmptyNameParses(digest: string)
    requires IsDigest(digest)
    ensures ParseLine(digest + "  *") == Some(Entry("", digest))
  {
    var e := Entry("*", digest);
    assert Line(e) == digest + "  *";
    LineParses(e);
    assert "*"[1..] == "";
  }

  /** A parsed name begins with a star exactly when what follows the digest is
      stars, white space and another star. */
  lemma StarredName(line: string)
    requires Tight(line) && ParseLine(line).Some?
    ensures var name := ParseLine(line).value.name;
            name != "" && name[0] == '*' <==> StarsSpacesStar(AfterDigest(line))
  {
    AfterDigestTight(line);
    StarredText(AfterDigest(line));
  }

  /** One such line. */
  lemma StarredNameParses(digest: string)
    requires IsDigest(digest)
    ensures ParseLine(digest + "  * *x") == Some(Entry("*x", digest))
  {
    var e := Entry("* *x", digest);
    assert Line(e) == digest + "  * *x";
    LineParses(e);
    assert "* *x"[1..] == " *x" && " *x"[1..] == "*x";
    TightStrip("*x");
    assert StripStars("* *x") == " *x" && TrimLeft(" *x") == "*x";
  }

  lemma AfterDigestTight(line: string)
    requires Tight(line) && First(line, IsPySpace) < |line|
    ensures var rest := AfterDigest(line); rest != "" && Tight(rest)
  {
    var i := First(line, IsPySpace);
    TailEnd(line, i);
    TrimLeftEnd(line[i..]);
  }

  lemma TailEnd(line: string, i: nat)
    requires i < |line| && Tight(line)
    ensures line[i..] != "" && !IsPySpace(line[i..][|line| - i - 1])
  {
    assert line[i..][|line| - i - 1] == line[|line| - 1];
  }

  /** How many leading stars are stripped. */
  lemma {:induction false} StripStarsLength(s: string) returns (n: nat)
    ensures n <= |s| && StripStars(s) == s[n..] && OnlyStars(s[..n]) && (n < |s| ==> s[n] != '*')
  {
    if s == "" || s[0] != '*' {
      n := 0;
    } else {
      n := StripStarsLength(s[1..]);
      n := n + 1;
      assert s[..n] == [s[0]] + s[1..][..n - 1];
    }
  }

  /** How many leading white-space characters are stripped. */
  lemma {:induction false} TrimLeftLength(s: string) returns (n: nat)
    ensures n <= |s| && TrimLeft(s) == s[n..] && OnlySpaces(s[..n]) && (n < |s| ==> !IsPySpace(s[n]))
  {
    if s == "" || !IsPySpace(s[0]) {
      n := 0;
    } else {
      n := TrimLeftLength(s[1..]);
      n := n + 1;
      assert s[..n] == [s[0]] + s[1..][..n - 1];
    }
  }

  lemma {:induction false} StarsThen(a: string, b: string)
    requires OnlyStars(a) && (b == "" || b[0] != '*')
    ensures StripStars(a + b) == b
  {
    if a == "" {
      assert a + b == b;
    } else {
      assert (a + b)[1..] == a[1..] + b;
      StarsThen(a[1..], b);
    }
  }

  lemma {:induction false} SpacesThen(a: string, b: string)
    requires OnlySpaces(a) && (b == "" || !IsPySpace(b[0]))
    ensures TrimLeft(a + b) == b
  {
    if a == "" {
      assert a + b == b;
    } else {
      assert (a + b)[1..] == a[1..] + b;
      SpacesThen(a[1..], b);
    }
  }

  lemma StarredText(s: string)
    requires s != "" && Tight(s)
    ensures var name := Strip(StripStars(s));
            name != "" && name[0] == '*' <==> StarsSpacesStar(s)
  {
    var name := Strip(StripStars(s));
    if name != "" && name[0] == '*' {
      StarredTextSplits(s);
    }
    if StarsSpacesStar(s) {
      var i, j :| 0 < i < j < |s| && OnlyStars(s[..i]) && OnlySpaces(s[i..j]) && s[j] == '*';
      SplitTextStarred(s, i, j);
    }
  }

  lemma SplitTextStarred(s: string, i: nat, j: nat)
    requires s != "" && Tight(s)
    requires 0 < i < j < |s| && OnlyStars(s[..i]) && OnlySpaces(s[i..j]) && s[j] == '*'
    ensures Strip(StripStars(s)) == s[j..]
  {
    var stars, spaces, name := s[..i], s[i..j], s[j..];
    assert spaces[0] == s[i] && name[|name| - 1] == s[|s| - 1];
    assert s == stars + (spaces + name);
    StarsSpacesName(stars, spaces, name);
  }

  lemma StarsSpacesName(stars: string, spaces: string, name: string)
    requires OnlyStars(stars) && OnlySpaces(spaces) && spaces != "" && name != "" && Tight(name)
    ensures Strip(StripStars(stars + (spaces + name))) == name
  {
    assert IsPySpace(spaces[0]) && (spaces + name)[0] == spaces[0];
    StarsThen(stars, spaces + name);
    SpacesThen(spaces, name);
  }

  lemma StarredTextSplits(s: string)
    requires s != "" && Tight(s)
    requires var name := Strip(StripStars(s)); name != "" && name[0] == '*'
    ensures StarsSpacesStar(s)
  {
    var n := StripStarsLength(s);
    var t := StripStars(s);
    var m := TrimLeftLength(t);
    assert t != "" && t[|t| - 1] == s[|s| - 1];
    TrimLeftEnd(t);
    assert Strip(t) == t[m..];
    assert m > 0 && IsPySpace(t[..m][0]);
    assert n > 0;
    assert s[n..n + m] == t[..m] && s[n + m] == t[m];
  }

  lemma {:induction false} TrimLeftEnd(s: string)
    requires s != "" && !IsPySpace(s[|s| - 1])
    ensures var t := TrimLeft(s); t != "" && Tight(t)
  {
    if IsPySpace(s[0]) {
      assert s[1..][|s[1..]| - 1] == s[|s| - 1];
      TrimLeftEnd(s[1..]);
    }
  }

  lemma {:induction false} StarsOrTight(s: string)
    requires s == "" || !IsPySpace(s[|s| - 1])
    ensures Strip(StripStars(s)) == "" <==> OnlyStars(s)
  {
    if s == "" {
    } else if s[0] == '*' {
      assert s[1..] != "" ==> s[1..][|s[1..]| - 1] == s[|s| - 1];
      StarsOrTight(s[1..]);
      assert forall i :: 0 < i < |s| ==> s[i] == s[1..][i - 1];
    } else {
      TrimLeftEnd(s);
      assert TrimRight(TrimLeft(s)) == TrimLeft(s);
      assert s[0] != '*';
    }
  }

  // ---------------------------------------------------------------------
  // Round trip
  // ---------------------------------------------------------------------

  /** Names the line format can carry. */
  predicate Printable(e: Entry) {
    && IsDigest(e.digest) && e.name != "" && Tight(e.name) && e.name[0] != '*'
    && forall i :: 0 <= i < |e.name| ==> !IsBreak(e.name[i])
  }

  predicate Unbroken(s: string) {
    forall i :: 0 <= i < |s| ==> !IsBreak(s[i])
  }

  lemma LineUnbroken(e: Entry)
    requires IsDigest(e.digest) && Unbroken(e.name)
    ensures Unbroken(Line(e))
  {
    var line := Line(e);
    forall i | 0 <= i < |line|
      ensures !IsBreak(line[i])
    {
      if i < 64 { assert IsHex(e.digest[i]); } else if i >= 66 { assert line[i] == e.name[i - 66]; }
    }
  }

  lemma TightStrip(s: string)
    requires Tight(s)
    ensures Strip(s) == s
  {
  }

  lemma LineTight(e: Entry)
    requires IsDigest(e.digest) && e.name != "" && Tight(e.name)
    ensures Tight(Line(e)) && Line(e) != ""
  {
    var line := Line(e);
    assert IsHex(e.digest[0]);
    assert line[0] == e.digest[0] && line[|line| - 1] == e.name[|e.name| - 1];
  }

  lemma LineSplits(e: Entry)
    requires IsDigest(e.digest)
    ensures var line := Line(e);
            First(line, IsPySpace) == 64 && line[..64] == e.digest && line[64..] == "  " + e.name
  {
    var rest := "  " + e.name;
    assert Line(e) == e.digest + rest;
    assert forall i :: 0 <= i < 64 ==> IsHex(e.digest[i]);
    FirstAfter(e.digest, rest, IsPySpace);
  }

  lemma PaddedName(name: string)
    requires name != "" && Tight(name)
    ensures TrimLeft("  " + name) == name
  {
    var one := " " + name;
    assert ("  " + name)[1..] == one && one[1..] == name;
    assert TrimLeft(one) == name;
  }

  /** A printed line parses to its digest and what is left of the name without
      its leading stars. */
  lemma LineParses(e: Entry)
    requires IsDigest(e.digest) && e.name != "" && Tight(e.name)
    ensures Strip(Line(e)) == Line(e) != ""
    ensures ParseLine(Line(e)) == Some(Entry(Strip(StripStars(e.name)), e.digest))
  {
    LineTight(e);
    TightStrip(Line(e));
    LineSplits(e);
    PaddedName(e.name);
  }

  lemma {:induction false} StripShrinks(s: string)
    ensures |Strip(s)| <= |s|
    decreases |s|
  {
    if s != "" && IsPySpace(s[0]) {
      StripShrinks(s[1..]);
    } else {
      TrimRightShrinks(s);
    }
  }

  lemma TrimRightShrinks(s: string)
    ensures |TrimRight(s)| <= |s|
  {
  }

  lemma StarsShrink(s: string)
    ensures |StripStars(s)| <= |s|
  {
  }

  lemma BareDigest(digest: string)
    requires IsDigest(digest)
    ensures Strip(digest + "  " + "") == digest
  {
    var line, one := digest + "  " + "", digest + " ";
    assert IsHex(digest[0]) && IsHex(digest[63]);
    assert line[0] == digest[0];
    assert line[..65] == one && one[..64] == digest;
    assert TrimRight(one) == digest;
  }

  /** `Printable` is exact: a line gives its entry back only for such names. */
  lemma OnlyPrintableParses(e: Entry)
    requires IsDigest(e.digest) && Unbroken(e.name)
    ensures ParseLine(Strip(Line(e))) == Some(e) <==> Printable(e)
  {
    if e.name == "" {
      BareDigest(e.digest);
      DigestAlone(e.digest);
    } else if Tight(e.name) {
      LineParses(e);
      if e.name[0] == '*' {
        StarsShrink(e.name[1..]);
        StripShrinks(StripStars(e.name));
      } else {
        TightStrip(e.name);
      }
    } else {
      var stripped := Strip(Line(e));
      StripIsTight(StripStars(TrimLeft(stripped[First(stripped, IsPySpace)..])));
    }
  }

  lemma SplitFirst(line: string, rest: string)
    requires Unbroken(line)
    ensures SplitLines(line + "\n" + rest) == [line] + SplitLines(rest)
  {
    var text := line + "\n" + rest;
    assert text == line + ("\n" + rest);
    FirstAfter(line, "\n" + rest, IsBreak);
    assert text[..|line|] == line && text[|line|] == '\n' && text[|line| + 1..] == rest;
  }

  /** A digest and a name as the parser produces them. */
  predicate Parsed(e: Entry) {
    IsDigest(e.digest) && Tight(e.name) && Unbroken(e.name)
  }

  /** What printing and parsing make of entries: leading stars are lost once
      more, and an entry without a name does not parse. */
  function Reparsed(es: seq<Entry>): Option<seq<Entry>> {
    if es == [] then Some([])
    else
      var rest := Reparsed(es[1..]);
      if es[0].name == "" || rest.None? then None
      else Some([Entry(Strip(StripStars(es[0].name)), es[0].digest)] + rest.value)
  }

  lemma {:induction false} PrintedEntries(es: seq<Entry>)
    requires forall e :: e in es ==> Parsed(e)
    ensures EntriesOf(SplitLines(Printed(es))) == Reparsed(es)
  {
    if es == [] {
    } else {
      var e, rest := es[0], Printed(es[1..]);
      assert e in es;
      PrintedEntries(es[1..]);
      LineUnbroken(e);
      SplitFirst(Line(e), rest);
      LineReparsed(e);
      EntriesStep(Line(e), SplitLines(rest));
    }
  }

  lemma LineReparsed(e: Entry)
    requires Parsed(e)
    ensures var line := Strip(Line(e));
            && line != ""
            && ParseLine(line) == if e.name == "" then None else Some(Entry(Strip(StripStars(e.name)), e.digest))
  {
    if e.name == "" {
      BareDigest(e.digest);
      DigestAlone(e.digest);
    } else {
      LineParses(e);
    }
  }

  lemma EntriesStep(line: string, lines: seq<string>)
    requires Strip(line) != ""
    ensures var e, rest := ParseLine(Strip(line)), EntriesOf(lines);
            EntriesOf([line] + lines) == if e.None? || rest.None? then None else Some([e.value] + rest.value)
  {
    assert ([line] + lines)[1..] == lines;
  }

  lemma DigestAlone(digest: string)
    requires IsDigest(digest)
    ensures ParseLine(digest).None?
  {
    assert forall i :: 0 <= i < 64 ==> IsHex(digest[i]);
  }

  lemma {:induction false} PrintableReparsed(es: seq<Entry>)
    requires forall e :: e in es ==> Printable(e)
    ensures Reparsed(es) == Some(es)
  {
    if es == [] {
    } else {
      PrintableReparsed(es[1..]);
      assert es[0] in es;
      TightStrip(es[0].name);
      assert es == [es[0]] + es[1..];
    }
  }

  /** Parsing what the writer printed gives back exactly the mapping. */
  lemma RoundTrip(es: seq<Entry>)
    requires DistinctNames(es) && forall e :: e in es ==> Printable(e)
    ensures Parse(SplitLines(Printed(es)), map[]) == Some(MapOf(es))
  {
    PrintedEntries(es);
    PrintableReparsed(es);
    ParseFile(SplitLines(Printed(es)));
  }

  // ---------------------------------------------------------------------
  // Printing what was parsed
  // ---------------------------------------------------------------------

  /** No name of these lines is lost when it is printed again. */
  predicate Reprintable(lines: seq<string>) {
    forall i :: 0 <= i < |lines| && Strip(lines[i]) != "" ==>
      !OnlyStars(AfterDigest(Strip(lines[i]))) && !StarsSpacesStar(AfterDigest(Strip(lines[i])))
  }

  lemma {:induction false} LinesUnbroken(text: string)
    ensures forall line :: line in SplitLines(text) ==> Unbroken(line)
    decreases |text|
  {
    if text == "" {
    } else {
      var i := First(text, IsBreak);
      if i < |text| {
        var next := if text[i] == '\r' && i + 1 < |text| && text[i + 1] == '\n' then i + 2 else i + 1;
        LinesUnbroken(text[next..]);
      }
    }
  }

  lemma {:induction false} TrimRightUnbroken(s: string)
    requires Unbroken(s)
    ensures Unbroken(TrimRight(s))
  {
    if s == "" || !IsPySpace(s[|s| - 1]) {
    } else {
      TrimRightUnbroken(s[..|s| - 1]);
    }
  }

  lemma StripUnbroken(s: string)
    requires Unbroken(s)
    ensures Unbroken(Strip(s))
  {
    var _ := TrimLeftLength(s);
    TrimRightUnbroken(TrimLeft(s));
  }

  /** A parsed line gives an entry as the parser produces them, and one that can
      be printed exactly if its name is neither empty nor starred. */
  lemma LineEntry(line: string)
    requires Tight(line) && Unbroken(line) && ParseLine(line).Some?
    ensures var e := ParseLine(line).value;
            && Parsed(e)
            && (Printable(e) <==> !OnlyStars(AfterDigest(line)) && !StarsSpacesStar(AfterDigest(line)))
  {
    EmptyNameOnlyStars(line);
    StarredName(line);
    var rest := AfterDigest(line);
    var _ := TrimLeftLength(line[First(line, IsPySpace)..]);
    var _ := StripStarsLength(rest);
    StripUnbroken(StripStars(rest));
    StripIsTight(StripStars(rest));
  }

  lemma {:induction false} EntriesPrintable(lines: seq<string>)
    requires EntriesOf(lines).Some? && forall line :: line in lines ==> Unbroken(line)
    ensures forall e :: e in EntriesOf(lines).value ==> Parsed(e)
    ensures (forall e :: e in EntriesOf(lines).value ==> Printable(e)) <==> Reprintable(lines)
  {
    if lines == [] {
    } else {
      EntriesPrintable(lines[1..]);
      ReprintableCons(lines);
      var line := Strip(lines[0]);
      if line != "" {
        StripIsTight(lines[0]);
        assert lines[0] in lines;
        StripUnbroken(lines[0]);
        LineEntry(line);
        var e, rest := ParseLine(line).value, EntriesOf(lines[1..]).value;
        assert forall f :: f in [e] + rest <==> f == e || f in rest;
      }
    }
  }

  lemma ReprintableCons(lines: seq<string>)
    requires lines != []
    ensures var line := Strip(lines[0]);
            Reprintable(lines) <==>
              && (line != "" ==> !OnlyStars(AfterDigest(line)) && !StarsSpacesStar(AfterDigest(line)))
              && Reprintable(lines[1..])
  {
    assert forall i :: 0 < i < |lines| ==> lines[i] == lines[1..][i - 1];
    assert forall i :: 0 <= i < |lines[1..]| ==> lines[1..][i] == lines[i + 1];
  }

  predicate Starred(e: Entry) {
    e.name != "" && e.name[0] == '*'
  }

  lemma {:induction false} ReparsedAt(es: seq<Entry>, i: nat)
    requires Reparsed(es).Some? && i < |Reparsed(es).value|
    ensures |Reparsed(es).value| == |es| && es[i].name != ""
    ensures Reparsed(es).value[i] == Entry(Strip(StripStars(es[i].name)), es[i].digest)
  {
    if i == 0 {
      if |Reparsed(es).value| > 1 { ReparsedAt(es[1..], 0); }
    } else {
      ReparsedAt(es[1..], i - 1);
    }
  }

  lemma {:induction false} ReparsedNamed(es: seq<Entry>, e: Entry)
    requires Reparsed(es).Some? && e in es
    ensures e.name != ""
  {
    if e == es[0] {
    } else {
      ReparsedNamed(es[1..], e);
    }
  }

  function LongestName(es: seq<Entry>): (r: nat)
    ensures forall e :: e in es ==> |e.name| <= r
  {
    if es == [] then 0
    else
      var r := LongestName(es[1..]);
      assert forall e :: e in es ==> e == es[0] || e in es[1..];
      if |es[0].name| > r then |es[0].name| else r
  }

  /** Printing and parsing cannot permute entries of which one is starred: each
      starred result comes from a longer starred name. */
  lemma {:induction false} StarredNotKept(es: seq<Entry>, fs: seq<Entry>, e: Entry)
    requires (forall f :: f in es ==> Parsed(f)) && Reparsed(es) == Some(fs)
    requires e in es && Starred(e)
    ensures exists f :: f in es && f !in fs
    decreases LongestName(es) - |e.name|
  {
    if e in fs {
      var i :| 0 <= i < |fs| && fs[i] == e;
      ReparsedAt(es, i);
      var longer := es[i];
      assert longer in es;
      if !Starred(longer) {
        TightStrip(longer.name);
        assert false;
      }
      StarsShrink(longer.name[1..]);
      StripShrinks(StripStars(longer.name));
      StarredNotKept(es, fs, longer);
    }
  }

  /** The entries of an accepted file, printed and parsed again, give the same
      mapping exactly when no name in it is empty or starred. */
  lemma Reprint(text: string)
    requires Parse(SplitLines(text), map[]).Some?
    ensures var es := EntriesOf(SplitLines(text));
            && es.Some?
            && (Parse(SplitLines(Printed(es.value)), map[]) == Parse(SplitLines(text), map[])
                <==> Reprintable(SplitLines(text)))
  {
    var lines := SplitLines(text);
    ParseFile(lines);
    var es := EntriesOf(lines).value;
    LinesUnbroken(text);
    EntriesPrintable(lines);
    if Reprintable(lines) {
      RoundTrip(es);
    } else {
      var e :| e in es && !Printable(e);
      ReprintDiffers(es, e);
    }
  }

  lemma ReprintDiffers(es: seq<Entry>, e: Entry)
    requires DistinctNames(es) && (forall f :: f in es ==> Parsed(f)) && e in es && !Printable(e)
    ensures Parse(SplitLines(Printed(es)), map[]) != Some(MapOf(es))
  {
    PrintedEntries(es);
    ParseFile(SplitLines(Printed(es)));
    if Reparsed(es).Some? {
      ReparsedDiffers(es, e);
    }
  }

  lemma ReparsedDiffers(es: seq<Entry>, e: Entry)
    requires DistinctNames(es) && (forall f :: f in es ==> Parsed(f)) && e in es && !Printable(e)
    requires Reparsed(es).Some?
    ensures DistinctNames(Reparsed(es).value) ==> MapOf(Reparsed(es).value) != MapOf(es)
  {
    var fs := Reparsed(es).value;
    ReparsedNamed(es, e);
    StarredNotKept(es, fs, e);
    var f :| f in es && f !in fs;
    if DistinctNames(fs) {
      DifferentMaps(es, fs, f);
    }
  }

  lemma DifferentMaps(es: seq<Entry>, fs: seq<Entry>, f: Entry)
    requires DistinctNames(es) && DistinctNames(fs) && f in es && f !in fs
    ensures MapOf(es) != MapOf(fs)
  {
    MapOfEntries(es);
    MapOfEntries(fs);
  }

  // ---------------------------------------------------------------------
  // Training and verification together
  // ---------------------------------------------------------------------

  const ARTIFACT := "model.joblib"
  const MANIFEST := "manifest.json"

  /** The checksum part of verification: the listed files are exactly the two
      required ones and every listed digest is the actual one. */
  method VerifyChecksums(text: string, actual: map<string, string>) returns (ok: bool)
    requires ARTIFACT in actual && MANIFEST in actual
    ensures var expected := map[ARTIFACT := actual[ARTIFACT], MANIFEST := actual[MANIFEST]];
            ok <==> Parse(SplitLines(text), map[]) == Some(expected)
  {
    var checksums := ReadChecksums(text);
    if checksums.None? {
      return false;
    }
    var m := checksums.value;
    if m.Keys != {ARTIFACT, MANIFEST} {
      return false;
    }
    var expected := map[ARTIFACT := actual[ARTIFACT], MANIFEST := actual[MANIFEST]];
    ok := m[ARTIFACT] == actual[ARTIFACT] && m[MANIFEST] == actual[MANIFEST];
    if ok {
      assert m == expected;
    } else {
      assert m[ARTIFACT] != expected[ARTIFACT] || m[MANIFEST] != expected[MANIFEST];
    }
  }

  /** The two-line text that training writes. */
  function Written(artifact: string, manifest: string): string {
    artifact + "  " + ARTIFACT + "\n" + manifest + "  " + MANIFEST + "\n"
  }

  lemma WrittenIsPrinted(artifact: string, manifest: string)
    ensures var es := [Entry(ARTIFACT, artifact), Entry(MANIFEST, manifest)];
            && Written(artifact, manifest) == Printed(es)
            && MapOf(es) == map[ARTIFACT := artifact, MANIFEST := manifest]
  {
    var a, b := Entry(ARTIFACT, artifact), Entry(MANIFEST, manifest);
    var es := [a, b];
    assert es[1..] == [b] && [b][1..] == [];
    assert Printed([b]) == Line(b) + "\n";
    assert Printed(es) == Line(a) + "\n" + (Line(b) + "\n");
    assert MapOf([b]) == map[MANIFEST := manifest];
  }

  lemma RequiredNamesPrintable(digest: string)
    requires IsDigest(digest)
    ensures Printable(Entry(ARTIFACT, digest)) && Printable(Entry(MANIFEST, digest))
  {
    VisiblePrintable(Entry(ARTIFACT, digest));
    VisiblePrintable(Entry(MANIFEST, digest));
  }

  lemma VisiblePrintable(e: Entry)
    requires IsDigest(e.digest) && e.name != "" && e.name[0] != '*'
    requires forall i :: 0 <= i < |e.name| ==> '!' <= e.name[i] <= '~'
    ensures Printable(e)
  {
    assert '!' <= e.name[0] <= '~';
  }

  /** The file that training writes passes verification exactly when the two
      files still have the digests they had then. */
  lemma TrainThenVerify(artifact: string, manifest: string, actual: map<string, string>)
    requires IsDigest(artifact) && IsDigest(manifest) && ARTIFACT in actual && MANIFEST in actual
    ensures Parse(SplitLines(Written(artifact, manifest)), map[])
            == Some(map[ARTIFACT := actual[ARTIFACT], MANIFEST := actual[MANIFEST]])
            <==> actual[ARTIFACT] == artifact && actual[MANIFEST] == manifest
  {
    WrittenIsPrinted(artifact, manifest);
    RequiredNamesPrintable(artifact);
    RequiredNamesPrintable(manifest);
    assert |ARTIFACT| != |MANIFEST|;
    RoundTrip([Entry(ARTIFACT, artifact), Entry(MANIFEST, manifest)]);
    var m := map[ARTIFACT := actual[ARTIFACT], MANIFEST := actual[MANIFEST]];
    assert m[ARTIFACT] == actual[ARTIFACT] && m[MANIFEST] == actual[MANIFEST];
  }
}
