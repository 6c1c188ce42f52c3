/** The dependency files that compilers write in the format of make, as the build reads them: the names of the files
    after the colon, with escaped spaces, over several lines. */
module Dependencies {

  import opened Wrappers

  predicate Blank(c: char)
  {
    c == ' ' || c == '\t'
  }

  function SkipBlanks(s: string): (r: string)
    ensures |r| <= |s| && (r == "" || !Blank(r[0]))
  {
    if s != "" && Blank(s[0]) then SkipBlanks(s[1..]) else s
  }

  /** Where the name that starts the text ends: before the first space that no backslash escapes. */
  function TokenLength(s: string): (n: nat)
    ensures n <= |s| && (s != "" && s[0] != ' ' ==> n > 0)
  {
    if s == "" || s[0] == ' ' then 0
    else if s[0] == '\\' && |s| > 1 && s[1] == ' ' then 2 + TokenLength(s[2..])
    else 1 + TokenLength(s[1..])
  }

  /** unescapeMakeDependency */
  function Unescape(s: string): (r: string)
    ensures |r| <= |s|
  {
    if s == "" then ""
    else if s[0] != '\\' then [s[0]] + Unescape(s[1..])
    else if |s| == 1 then ""
    else [s[1]] + Unescape(s[2..])
  }

  predicate Quoted(s: string)
  {
    s != "" && s[0] == '"' && s[|s| - 1] == '"'
  }

  function Unquote(s: string): (r: string)
    ensures |r| <= |s|
  {
    if !Quoted(s) then s else if |s| == 1 then "" else s[1..|s| - 1]
  }

  /** The file that a name stands for, unless it is blank or spans lines. */
  function Entry(token: string): seq<string>
  {
    var name := Unescape(Unquote(token));
    if '\n' in name || '\r' in name || SkipBlanks(name) == "" then [] else [name]
  }

  function Parse(s: string): seq<string>
    decreases |s|
  {
    var t := SkipBlanks(s);
    if t == "" then [] else Entry(t[..TokenLength(t)]) + Parse(t[TokenLength(t)..])
  }

  // ------------------------------------------------------------------ What compilers write

  function Escape(p: string): string
  {
    if p == "" then "" else (if p[0] == ' ' then ['\\', ' '] else [p[0]]) + Escape(p[1..])
  }

  /** Before a name there is a space, or the end of a line: a backslash, the space that joins the lines, and the
      indentation of the next. */
  function Separator(newLine: bool): string
  {
    if newLine then " \\   " else " "
  }

  function Render(paths: seq<string>, newLines: seq<bool>): string
    requires |paths| == |newLines|
  {
    if paths == [] then "" else Separator(newLines[0]) + Escape(paths[0]) + Render(paths[1..], newLines[1..])
  }

  /** Every backslash is followed by a space. */
  predicate Spaced(p: string)
  {
    p == "" || ((p[0] == '\\' ==> |p| > 1 && p[1] == ' ') && Spaced(p[1..]))
  }

  predicate Clean(p: string)
  {
    Spaced(p) && '\n' !in p && '\r' !in p && SkipBlanks(p) != "" && p[0] != '\t' && !Quoted(p)
  }

  // ------------------------------------------------------------------ Escaping

  lemma {:induction false} UnescapeBounded(p: string)
    ensures |Unescape(Escape(p))| <= |p|
    ensures p != "" && p[0] != ' ' ==> |Unescape(['\\'] + Escape(p))| <= |p|
    decreases |p|
  {
    if p != "" {
      UnescapeBounded(p[1..]);
      var e := Escape(p[1..]);
      if p[0] == ' ' {
        assert Escape(p)[2..] == e;
      } else {
        assert Escape(p)[1..] == e && (['\\'] + Escape(p))[2..] == e;
        if p[0] == '\\' && |p| > 1 {
          if p[1] == ' ' {
            SpaceAfter(p);
            UnescapeBounded(p[2..]);
          } else {
            assert Escape(p) == ['\\'] + e;
          }
        }
      }
    }
  }

  /** A backslash and a space, escaped and unescaped, stay. */
  lemma SpaceAfter(p: string)
    requires |p| > 1 && p[0] == '\\' && p[1] == ' '
    ensures Unescape(Escape(p)) == "\\ " + Unescape(Escape(p[2..]))
  {
    EscapedTwice(p);
    TwoUnescaped(Escape(p[2..]));
  }

  lemma EscapedTwice(p: string)
    requires |p| > 1 && p[0] == '\\' && p[1] == ' '
    ensures Escape(p) == ['\\', '\\'] + ([' '] + Escape(p[2..]))
  {
    hide Escape;
    var q := p[1..];
    EscapeStep(p);
    EscapeStep(q);
    assert q[1..] == p[2..];
  }

  lemma EscapeStep(p: string)
    requires p != ""
    ensures Escape(p) == (if p[0] == ' ' then ['\\', ' '] else [p[0]]) + Escape(p[1..])
  {
  }

  lemma TwoUnescaped(rest: string)
    ensures Unescape(['\\', '\\'] + ([' '] + rest)) == "\\ " + Unescape(rest)
  {
    UnescapeEscaped('\\', [' '] + rest);
    UnescapePlain(' ', rest);
    hide Unescape;
    assert "\\ " + Unescape(rest) == ['\\'] + ([' '] + Unescape(rest));
  }

  lemma UnescapePlain(c: char, s: string)
    requires c != '\\'
    ensures Unescape([c] + s) == [c] + Unescape(s)
  {
    assert ([c] + s)[1..] == s;
  }

  lemma UnescapeEscaped(c: char, s: string)
    ensures Unescape(['\\', c] + s) == [c] + Unescape(s)
  {
    assert (['\\', c] + s)[2..] == s;
  }

  /** Escaping and unescaping gives the name back exactly if every backslash in it is followed by a space. */
  lemma {:induction false} EscapeRoundTrip(p: string)
    ensures Unescape(Escape(p)) == p <==> Spaced(p)
    decreases |p|
  {
    if p != "" {
      var e := Escape(p[1..]);
      EscapeRoundTrip(p[1..]);
      if p[0] == ' ' {
        assert Escape(p)[2..] == e;
        assert Unescape(Escape(p)) == [' '] + Unescape(e);
        HeadSame(' ', Unescape(e), p);
      } else if p[0] != '\\' {
        assert Escape(p)[1..] == e;
        HeadSame(p[0], Unescape(e), p);
      } else if |p| > 1 && p[1] == ' ' {
        SpaceAfter(p);
        EscapeRoundTrip(p[2..]);
        assert p[1..][1..] == p[2..];
        assert p == "\\ " + p[2..];
      } else {
        BackslashLost(p);
      }
    }
  }

  lemma HeadSame(c: char, rest: string, p: string)
    requires p != "" && p[0] == c
    ensures [c] + rest == p <==> rest == p[1..]
  {
    assert ([c] + rest)[1..] == rest;
    assert p == [c] + p[1..];
  }

  lemma BackslashLost(p: string)
    requires p != "" && p[0] == '\\' && (|p| == 1 || p[1] != ' ')
    ensures |Unescape(Escape(p))| < |p|
  {
    var e := Escape(p[1..]);
    assert Escape(p) == ['\\'] + e;
    if |p| > 1 {
      UnescapeBounded(p[1..]);
    }
  }

  // ------------------------------------------------------------------ Names

  /** A name ends at the space after it, wherever that is. */
  lemma {:induction false} TokenCovers(p: string, rest: string)
    requires rest == "" || rest[0] == ' '
    requires rest != "" ==> Spaced(p)
    ensures TokenLength(Escape(p) + rest) == |Escape(p)|
    decreases |p|
  {
    if p == "" {
      assert Escape(p) + rest == rest;
    } else {
      var e := Escape(p[1..]);
      TokenCovers(p[1..], rest);
      EscapedFirst(p[1..]);
      if p[0] == ' ' {
        assert Escape(p) == ['\\', ' '] + e;
        hide Escape, TokenLength;
        assert Escape(p) + rest == ['\\', ' '] + (e + rest);
        TokenEscaped(e + rest);
      } else {
        assert Escape(p) == [p[0]] + e;
        hide Escape, TokenLength;
        assert Escape(p) + rest == [p[0]] + (e + rest);
        TokenPlain(p[0], e + rest);
      }
    }
  }

  lemma TokenEscaped(s: string)
    ensures TokenLength(['\\', ' '] + s) == 2 + TokenLength(s)
  {
    assert (['\\', ' '] + s)[2..] == s;
  }

  lemma TokenPlain(c: char, s: string)
    requires c != ' ' && (c == '\\' && s != "" ==> s[0] != ' ')
    ensures TokenLength([c] + s) == 1 + TokenLength(s)
  {
    assert ([c] + s)[1..] == s;
  }

  lemma EscapedFirst(p: string)
    ensures p == "" <==> Escape(p) == ""
    ensures p != "" ==> Escape(p)[0] != ' ' && (Escape(p)[0] == '\t' <==> p[0] == '\t')
  {
  }

  lemma SkipAppend(s: string, t: string)
    requires s != "" && !Blank(s[0])
    ensures SkipBlanks(" " + s + t) == s + t && SkipBlanks(s + t) == s + t
  {
    assert (" " + s + t)[1..] == s + t;
  }

  lemma {:induction false} EscapedQuotes(p: string)
    ensures Quoted(Escape(p)) <==> Quoted(p)
  {
    if p != "" {
      EscapedLast(p);
    }
  }

  lemma {:induction false} EscapedLast(p: string)
    requires p != ""
    ensures Escape(p) != "" && Escape(p)[|Escape(p)| - 1] == p[|p| - 1]
    decreases |p|
  {
    if |p| > 1 {
      EscapedLast(p[1..]);
    } else {
      assert Escape(p[1..]) == "";
    }
  }

  /** The entry of an escaped name is that name exactly if the name is clean, tabs in front apart. */
  lemma EntryExact(p: string)
    ensures Entry(Escape(p)) == [p] <==>
              Spaced(p) && '\n' !in p && '\r' !in p && SkipBlanks(p) != "" && !Quoted(p)
  {
    EscapedQuotes(p);
    EscapeRoundTrip(p);
    if Quoted(p) {
      QuotesLost(p);
    }
    hide Escape, Unescape, Spaced;
  }

  /** A quoted name comes out shorter. */
  lemma QuotesLost(p: string)
    requires Quoted(p)
    ensures |Unescape(Unquote(Escape(p)))| < |p|
  {
    EscapedQuotes(p);
    if |p| > 1 {
      var inner := p[1..|p| - 1];
      InnerEscaped(p);
      UnescapeBounded(inner);
    }
  }

  lemma InnerEscaped(p: string)
    requires Quoted(p) && |p| > 1
    ensures Unquote(Escape(p)) == Escape(p[1..|p| - 1])
  {
    EscapedQuotes(p);
    var inner := p[1..|p| - 1];
    assert p[1..] == inner + "\"";
    EscapeAppend(inner, "\"");
    assert Escape("\"") == "\"";
    assert Escape(p) == "\"" + (Escape(inner) + "\"");
  }

  lemma {:induction false} EscapeAppend(a: string, b: string)
    ensures Escape(a + b) == Escape(a) + Escape(b)
    decreases |a|
  {
    if a == "" {
      assert a + b == b;
    } else {
      assert (a + b)[1..] == a[1..] + b;
      EscapeAppend(a[1..], b);
    }
  }

  // ------------------------------------------------------------------ Lists

  lemma ParseBlank(c: char, s: string)
    requires Blank(c)
    ensures Parse([c] + s) == Parse(s)
  {
    assert ([c] + s)[1..] == s;
  }

  /** The end of a line reads as a blank name, and is skipped. */
  lemma LineEnd(s: string)
    ensures Parse(" \\   " + s) == Parse(s)
  {
    var rest := [' '] + ([' '] + s);
    var t := ['\\', ' '] + rest;
    assert " \\   " + s == [' '] + t;
    ParseBlank(' ', t);
    TokenEscaped(rest);
    assert t[..2] == ['\\', ' '] + "" && t[2..] == rest;
    UnescapeEscaped(' ', "");
    SkipAppend(t, "");
    BlankEntry(t[..2]);
    hide Entry, TokenLength;
    assert SkipBlanks(t) == t;
    ParseBlank(' ', [' '] + s);
    ParseBlank(' ', s);
  }

  lemma BlankEntry(token: string)
    requires Unescape(token) == [' '] && !Quoted(token)
    ensures Entry(token) == []
  {
    assert [' '][1..] == "";
  }

  /** A clean name that is followed by a separator or by nothing is read as it is. */
  lemma ParseFirst(p: string, rest: string)
    requires Clean(p) && (rest == "" || rest[0] == ' ')
    ensures Parse(Escape(p) + rest) == [p] + Parse(rest)
    ensures Escape(p) != "" && !Blank(Escape(p)[0])
  {
    var e := Escape(p);
    EscapedFirst(p);
    TokenCovers(p, rest);
    EntryExact(p);
    SkipAppend(e, rest);
    hide Escape, Clean, Entry, TokenLength, SkipBlanks;
    assert (e + rest)[..|e|] == e && (e + rest)[|e|..] == rest;
  }

  /** What a compiler lists is what the build reads: clean names, escaped, on as many lines as it likes. */
  lemma {:induction false} ParsesWhatIsWritten(paths: seq<string>, newLines: seq<bool>)
    requires |paths| == |newLines| && forall p :: p in paths ==> Clean(p)
    ensures Parse(Render(paths, newLines)) == paths
    decreases |paths|
  {
    if paths != [] {
      var p, rest := paths[0], Render(paths[1..], newLines[1..]);
      assert p in paths;
      ParsesWhatIsWritten(paths[1..], newLines[1..]);
      RenderStarts(paths[1..], newLines[1..]);
      ParseFirst(p, rest);
      var s := Escape(p) + rest;
      hide Escape, Clean, Render, Parse;
      ParseSeparated(s, newLines[0]);
      RenderForm(paths, newLines);
      assert paths == [p] + paths[1..];
    }
  }

  lemma RenderForm(paths: seq<string>, newLines: seq<bool>)
    requires |paths| == |newLines| && paths != []
    ensures Render(paths, newLines) == Separator(newLines[0]) + (Escape(paths[0]) + Render(paths[1..], newLines[1..]))
  {
  }

  lemma RenderStarts(paths: seq<string>, newLines: seq<bool>)
    requires |paths| == |newLines|
    ensures Render(paths, newLines) == "" || Render(paths, newLines)[0] == ' '
  {
  }

  lemma ParseSeparated(s: string, newLine: bool)
    requires s != "" && !Blank(s[0])
    ensures Parse(Separator(newLine) + s) == Parse(s)
  {
    if newLine {
      LineEnd(s);
    } else {
      assert (" " + s)[1..] == s;
    }
  }

  /** One name alone is read as it was written exactly if it is clean. */
  lemma ReadExactly(p: string)
    ensures Parse(" " + Escape(p)) == [p] <==> Clean(p)
  {
    if p != "" {
      if p[0] != '\t' {
        var e := Escape(p);
        EscapedFirst(p);
        TokenCovers(p, "");
        EntryExact(p);
        hide Escape, Entry, TokenLength, Spaced;
        assert e + "" == e && " " + e + "" == " " + e;
        SkipAppend(e, "");
        assert e[..|e|] == e && e[|e|..] == "";
        assert Parse("") == [];
      } else {
        TabLost(p);
      }
    }
  }

  /** A tab in front is skipped with the blanks. */
  lemma TabLost(p: string)
    requires p != "" && p[0] == '\t'
    ensures Parse(" " + Escape(p)) != [p]
  {
    var e := Escape(p[1..]);
    assert (" " + Escape(p))[1..] == Escape(p) && Escape(p)[1..] == e;
    assert SkipBlanks(" " + Escape(p)) == SkipBlanks(e);
    ShorterNames(p[1..]);
  }

  /** No name that is read from an escaped text is longer than the text was. */
  lemma {:induction false} ShorterNames(p: string)
    ensures |Parse(Escape(p))| <= 1 && forall q :: q in Parse(Escape(p)) ==> |q| <= |p|
    ensures Parse(Escape(p)) == if SkipBlanks(Escape(p)) == "" then [] else Parse(SkipBlanks(Escape(p)))
    decreases |p|
  {
    if p != "" {
      EscapedFirst(p);
      if p[0] == '\t' {
        assert Escape(p)[1..] == Escape(p[1..]);
        ShorterNames(p[1..]);
      } else {
        var e := Escape(p);
        TokenCovers(p, "");
        assert e + "" == e;
        assert e[..|e|] == e && e[|e|..] == "";
        NameBounded(p);
      }
    }
  }

  lemma NameBounded(p: string)
    ensures |Unescape(Unquote(Escape(p)))| <= |p|
  {
    UnescapeBounded(p);
    EscapedQuotes(p);
    if Quoted(p) {
      QuotesLost(p);
    }
  }

  // ------------------------------------------------------------------ The loops

  /** What is still to be unescaped when the last character was a backslash, or was not. */
  function Remaining(s: string, escaping: bool): string
  {
    if !escaping then Unescape(s) else if s == "" then "" else [s[0]] + Unescape(s[1..])
  }

  method UnescapeMakeDependency(input: string) returns (out: string)
    ensures out == Unescape(input)
  {
    hide Remaining, Unescape;
    out := "";
    var escaping, i := false, 0;
    RemainingAll(input);
    assert input[0..] == input;
    while i < |input|
      invariant i <= |input| && Unescape(input) == out + Remaining(input[i..], escaping)
    {
      assert input[i..][1..] == input[i + 1..];
      RemainingStep(input[i..], escaping);
      if escaping {
        out := out + [input[i]];
        escaping := false;
      } else if input[i] == '\\' {
        escaping := true;
      } else {
        out := out + [input[i]];
      }
      i := i + 1;
    }
    assert input[i..] == "";
    RemainingNone(escaping);
  }

  lemma RemainingAll(s: string)
    ensures Remaining(s, false) == Unescape(s)
  {
  }

  lemma RemainingNone(escaping: bool)
    ensures Remaining("", escaping) == ""
  {
  }

  lemma RemainingStep(s: string, escaping: bool)
    requires s != ""
    ensures Remaining(s, escaping) ==
            if !escaping && s[0] == '\\' then Remaining(s[1..], true) else [s[0]] + Remaining(s[1..], false)
  {
    if !escaping && s[0] == '\\' {
      assert s == ['\\'] + s[1..];
      BackslashRemains(s[1..]);
    }
  }

  lemma BackslashRemains(rest: string)
    ensures Unescape(['\\'] + rest) == Remaining(rest, true)
  {
    if rest != "" {
      assert rest == [rest[0]] + rest[1..];
      assert ['\\'] + rest == ['\\', rest[0]] + rest[1..];
      UnescapeEscaped(rest[0], rest[1..]);
    }
  }

  method SkipBlanksFrom(s: string, start: nat) returns (i: nat)
    requires start <= |s|
    ensures start <= i <= |s| && SkipBlanks(s[start..]) == s[i..]
  {
    i := start;
    while i < |s| && Blank(s[i])
      invariant start <= i <= |s| && SkipBlanks(s[start..]) == SkipBlanks(s[i..])
    {
      assert s[i..][1..] == s[i + 1..];
      i := i + 1;
    }
  }

  method TokenEnd(s: string, start: nat) returns (end: nat)
    requires start <= |s|
    ensures end == start + TokenLength(s[start..])
  {
    end := start;
    while end < |s| && s[end] != ' '
      invariant start <= end <= |s| && start + TokenLength(s[start..]) == end + TokenLength(s[end..])
      decreases |s| - end
    {
      ghost var rest := s[end..];
      assert rest[1..] == s[end + 1..];
      if s[end] == '\\' && end + 1 < |s| && s[end + 1] == ' ' {
        assert rest[2..] == s[end + 2..];
        end := end + 2;
      } else {
        end := end + 1;
      }
    }
  }

  /** The part of parseMakeDependencies that follows the joining of the lines. */
  method ParseMakeDependencies(all: string) returns (paths: seq<string>)
    ensures paths == Parse(all)
  {
    hide Parse, SkipBlanks, TokenLength, Unescape, Unquote;
    paths := [];
    var start := SkipBlanksFrom(all, 0);
    assert all[0..] == all;
    ParseSkips(all, all[start..]);
    while start < |all|
      invariant start <= |all| && SkipBlanks(all[start..]) == all[start..]
      invariant Parse(all) == paths + Parse(all[start..])
      decreases |all| - start
    {
      ghost var t := all[start..];
      var end := TokenEnd(all, start);
      ParseStep(t);
      assert t[..TokenLength(t)] == all[start..end] && t[TokenLength(t)..] == all[end..];
      var name := UnescapeMakeDependency(Unquote(all[start..end]));
      if '\n' !in name && '\r' !in name && SkipBlanks(name) != "" {
        paths := paths + [name];
      }
      start := SkipBlanksFrom(all, end);
      ParseSkips(all[end..], all[start..]);
    }
    ParseNothing();
  }

  lemma ParseNothing()
    ensures Parse("") == []
  {
  }

  lemma ParseStep(t: string)
    requires SkipBlanks(t) == t && t != ""
    ensures Parse(t) == Entry(t[..TokenLength(t)]) + Parse(t[TokenLength(t)..]) && TokenLength(t) > 0
  {
  }

  lemma ParseSkips(s: string, t: string)
    requires SkipBlanks(s) == t
    ensures Parse(s) == Parse(t) && SkipBlanks(t) == t
  {
  }
}
