/** The stage-one parser, `BrainstormEngine._parse_ideas_from_output`: it
    keeps, in line order, the text of every line numbered as `1. x`, `1) x`
    or `1、x` whose text is longer than five characters. */
module IdeaParser {
  import opened Basics
  import opened Text
  import opened Numerals

  /** The delimiters `[.、)]` allowed after the number. */
  predicate IsDelimiter(c: char) {
    c == '.' || c == '\U{3001}' || c == ')'
  }

  /** The group `(.+)` captures after `\s*` in a line:
      `\s*` takes all leading white space but gives back the last character
      when nothing else is left, because `.+` needs one. */
  function Capture(rest: string): (g: string)
    requires rest != []
    ensures g != [] && |g| <= |rest|
  {
    var l := LStrip(rest);
    if l != [] then l else rest[|rest| - 1..]
  }

  /** The group `re.match(r'^\d+[.、)]\s*(.+)', t)` captures, if the
      pattern matches. It is applied only to pieces of a split at line
      breaks, so `.` matches every character of `t`. The greedy `\d+` never
      needs to give back a digit, since the character after a shorter run is
      a digit, not a delimiter. */
  function MatchNumbered(t: string): (g: Option<string>)
    ensures g.Some? ==> g.value != [] && |g.value| < |t|
  {
    var d := DigitRunEnd(t, 0);
    if 0 < d && d + 1 < |t| && IsDelimiter(t[d]) then Some(Capture(t[d + 1..]))
    else None
  }

  /** The idea a line of the model's output yields: the group captured in
      the stripped line, itself stripped, kept when longer than five
      characters. */
  function LineIdea(line: string): (r: Option<string>)
    ensures r.Some? ==> |r.value| > 5 && !IsSpace(r.value[0]) && !IsSpace(r.value[|r.value| - 1])
  {
    match MatchNumbered(Strip(line))
    case None => None
    case Some(g) =>
      var idea := Strip(g);
      if |idea| > 5 then Some(idea) else None
  }

  /** A declarative reading of a numbered line: the stripped line `t` is
      `d` digits, a delimiter, and text that strips to `idea`, which is
      longer than five characters. */
  predicate NumberedAt(t: string, d: nat, idea: string) {
    && 1 <= d < |t|
    && AllDigits(t[..d])
    && IsDelimiter(t[d])
    && idea == Strip(t[d + 1..])
    && |idea| > 5
  }

  /** Stripping the captured group is the same as stripping everything
      after the delimiter. */
  lemma CaptureStrip(rest: string)
    requires rest != []
    ensures Strip(Capture(rest)) == Strip(rest)
  {
    var l := LStrip(rest);
    if l != [] {
      assert LStrip(l) == l;
    } else {
      var c := rest[|rest| - 1];
      assert IsSpace(c);
      assert LStrip([c]) == LStrip([c][1..]);
    }
  }

  /** A line whose stripped text does not start with a digit yields nothing. */
  lemma LineIdeaNeedsDigit(line: string)
    requires Strip(line) == [] || !IsDigit(Strip(line)[0])
    ensures LineIdea(line) == None
  {
  }

  /** The idea a line yields is its numbered reading at the end of the
      leading digits. */
  lemma LineIdeaIsNumbered(line: string, idea: string)
    requires LineIdea(line) == Some(idea)
    ensures NumberedAt(Strip(line), DigitRunEnd(Strip(line), 0), idea)
  {
    var t := Strip(line);
    var d := DigitRunEnd(t, 0);
    CaptureStrip(t[d + 1..]);
    assert t[..d] == t[0..d];
  }

  /** A numbered reading can only split the line at the end of its leading
      digits: the greedy `\d+` is the only reading. */
  lemma NumberedAtRunEnd(t: string, d: nat, idea: string)
    requires NumberedAt(t, d, idea)
    ensures d == DigitRunEnd(t, 0)
  {
    assert t[0..] == t[..d] + t[d..];
    DigitRunEndOfPrefix(t, 0, t[..d], t[d..]);
  }

  /** A numbered reading of the stripped line is the idea the line yields. */
  lemma NumberedIsLineIdea(line: string, d: nat, idea: string)
    requires NumberedAt(Strip(line), d, idea)
    ensures LineIdea(line) == Some(idea)
  {
    var t := Strip(line);
    NumberedAtRunEnd(t, d, idea);
    CaptureStrip(t[d + 1..]);
  }

  /** A line yields `idea` exactly when it reads as a numbered line whose
      text strips to `idea` and is longer than five characters. */
  lemma LineIdeaMeaning(line: string, idea: string)
    ensures LineIdea(line) == Some(idea) <==> exists d :: NumberedAt(Strip(line), d, idea)
  {
    if LineIdea(line) == Some(idea) {
      LineIdeaIsNumbered(line, idea);
    }
    if exists d :: NumberedAt(Strip(line), d, idea) {
      var d :| NumberedAt(Strip(line), d, idea);
      NumberedIsLineIdea(line, d, idea);
    }
  }

  /** The ideas the lines yield, one optional idea per line. */
  function LineIdeas(lines: seq<string>): (opts: seq<Option<string>>)
    ensures |opts| == |lines|
  {
    seq(|lines|, k requires 0 <= k < |lines| => LineIdea(lines[k]))
  }

  /** The values of the present options, in their order. */
  function Present(opts: seq<Option<string>>): (xs: seq<string>)
    ensures |xs| <= |opts|
  {
    if opts == [] then []
    else
      var before := Present(opts[..|opts| - 1]);
      match opts[|opts| - 1]
      case None => before
      case Some(x) => before + [x]
  }

  /** `_parse_ideas_from_output(output)`: the ideas of the lines of
      `output.strip().split('\n')`, in line order. */
  function ParseIdeas(output: string): (ideas: seq<string>)
    ensures |ideas| <= |Split(Strip(output), '\n')|
  {
    Present(LineIdeas(Split(Strip(output), '\n')))
  }

  /** The parser as the source runs it: one pass over the lines, appending
      each idea as it is found. */
  method ParseIdeasFromOutput(output: string) returns (ideas: seq<string>)
    ensures ideas == ParseIdeas(output)
  {
    ideas := [];
    var lines := Split(Strip(output), '\n');
    ghost var opts := LineIdeas(lines);
    for i := 0 to |lines|
      invariant ideas == Present(opts[..i])
    {
      PresentStep(opts, i);
      var found := IdeaOfLine(lines[i]);
      if found.Some? {
        ideas := ideas + [found.value];
      }
    }
    assert opts[..|lines|] == opts;
  }

  /** One pass of the parser's loop: strip the line, match it, strip the
      group and keep it when longer than five characters. */
  method IdeaOfLine(line: string) returns (found: Option<string>)
    ensures found == LineIdea(line)
  {
    found := None;
    var m := MatchNumbered(Strip(line));
    if m.Some? {
      var idea := Strip(m.value);
      if |idea| > 5 {
        found := Some(idea);
      }
    }
  }

  /** The ideas of one more line. */
  lemma PresentStep(opts: seq<Option<string>>, i: nat)
    requires i < |opts|
    ensures Present(opts[..i + 1])
         == if opts[i].Some? then Present(opts[..i]) + [opts[i].value] else Present(opts[..i])
  {
    assert opts[..i + 1][..i] == opts[..i];
  }

  /** Every idea comes from a line, and is kept only from a line whose
      idea it is. */
  lemma {:induction false} PresentFrom(opts: seq<Option<string>>, x: string)
    requires x in Present(opts)
    ensures exists k :: 0 <= k < |opts| && opts[k] == Some(x)
    decreases |opts|
  {
    var n := |opts| - 1;
    if x in Present(opts[..n]) {
      PresentFrom(opts[..n], x);
      var k :| 0 <= k < n && opts[..n][k] == Some(x);
      assert opts[k] == Some(x);
    } else {
      assert opts[n] == Some(x);
    }
  }

  /** Every idea `_parse_ideas_from_output` returns is a line's idea: longer
      than five characters, with no white space at either end. */
  lemma ParsedIdeasAreLong(output: string, x: string)
    requires x in ParseIdeas(output)
    ensures |x| > 5 && !IsSpace(x[0]) && !IsSpace(x[|x| - 1])
    ensures exists line :: line in Split(Strip(output), '\n') && LineIdea(line) == Some(x)
  {
    var lines := Split(Strip(output), '\n');
    var k := LineOfIdea(lines, x);
    assert lines[k] in lines;
  }

  /** The line an idea comes from. */
  lemma LineOfIdea(lines: seq<string>, x: string) returns (k: nat)
    requires x in Present(LineIdeas(lines))
    ensures k < |lines| && LineIdea(lines[k]) == Some(x)
  {
    PresentFrom(LineIdeas(lines), x);
    k :| 0 <= k < |lines| && LineIdeas(lines)[k] == Some(x);
  }

  /** Collecting distributes over concatenated blocks of lines: the ideas
      of the first block come first, in their own order. */
  lemma {:induction false} PresentAppend(a: seq<Option<string>>, b: seq<Option<string>>)
    ensures Present(a + b) == Present(a) + Present(b)
    decreases |b|
  {
    if b != [] {
      var b' := b[..|b| - 1];
      assert (a + b)[..|a + b| - 1] == a + b';
      PresentAppend(a, b');
    } else {
      assert a + b == a;
    }
  }

  /** Every line that reads as a numbered idea contributes it. */
  lemma {:induction false} PresentKeeps(opts: seq<Option<string>>, k: nat, x: string)
    requires k < |opts| && opts[k] == Some(x)
    ensures x in Present(opts)
    decreases |opts|
  {
    var n := |opts| - 1;
    if k < n {
      assert opts[..n][k] == opts[k];
      PresentKeeps(opts[..n], k, x);
    }
  }

  /** When no line reads as a numbered idea, nothing is returned (and
      nothing is raised). */
  lemma {:induction false} PresentNone(opts: seq<Option<string>>)
    requires forall k :: 0 <= k < |opts| ==> opts[k].None?
    ensures Present(opts) == []
    decreases |opts|
  {
    if opts != [] {
      PresentNone(opts[..|opts| - 1]);
    }
  }

  /** Output without a single digit yields no ideas. */
  lemma NoDigitsNoIdeas(output: string)
    requires forall k :: 0 <= k < |output| ==> !IsDigit(output[k])
    ensures ParseIdeas(output) == []
  {
    var s := Strip(output);
    var lines := Split(s, '\n');
    var opts := LineIdeas(lines);
    forall k | 0 <= k < |opts| ensures opts[k].None? {
      var t := Strip(lines[k]);
      if t != [] {
        StripAt(lines[k], 0);
        var c := lines[k][|lines[k]| - |LStrip(lines[k])|];
        SplitChars(s, '\n', k, |lines[k]| - |LStrip(lines[k])|);
        StripChars(output, c);
      }
      LineIdeaNeedsDigit(lines[k]);
    }
    PresentNone(opts);
  }

  /** `s.split(sep)` undoes `sep.join(parts)` when no part holds `sep`. */
  lemma {:induction false} SplitJoin(parts: seq<string>, sep: char)
    requires |parts| >= 1
    requires forall k :: 0 <= k < |parts| ==> sep !in parts[k]
    ensures Split(Join(parts, [sep]), sep) == parts
    decreases |Join(parts, [sep])|
  {
    var s := Join(parts, [sep]);
    var p := parts[0];
    if |parts| == 1 {
      if p != [] {
        assert s[1..] == Join([p[1..]], [sep]);
        SplitJoin([p[1..]], sep);
        assert p == [p[0]] + p[1..];
      }
    } else if p == [] {
      assert s == [sep] + Join(parts[1..], [sep]);
      assert s[1..] == Join(parts[1..], [sep]);
      SplitJoin(parts[1..], sep);
    } else {
      var parts' := [p[1..]] + parts[1..];
      assert parts'[1..] == parts[1..];
      assert s == [p[0]] + Join(parts', [sep]);
      assert s[1..] == Join(parts', [sep]);
      SplitJoin(parts', sep);
      assert p == [p[0]] + p[1..];
      assert parts == [p] + parts[1..];
    }
  }

  /** A line `<digit>. <text>` whose text has no white space at either end
      and is longer than five characters yields that text. */
  lemma NumberedLine(line: string, text: string)
    requires |line| == |text| + 3 && line[3..] == text
    requires IsDigit(line[0]) && line[1] == '.' && line[2] == ' '
    requires |text| > 5 && !IsSpace(text[0]) && !IsSpace(text[|text| - 1])
    ensures LineIdea(line) == Some(text)
  {
    StripUnchanged(line);
    StripDropsSpace(line[2..]);
    assert line[2..][1..] == text;
    StripUnchanged(text);
    NumberedIsLineIdea(line, 1, text);
  }

  /** A line `<digit>. ok` is too short to yield an idea. */
  lemma ShortLine()
    ensures LineIdea("2. ok") == None
  {
    var l := "2. ok";
    StripUnchanged(l);
    DigitRunEndOfPrefix(l, 0, "2", l[1..]);
    assert MatchNumbered(l) == Some(Capture(l[2..]));
  }

  /** Three lines without line breaks, joined by line breaks, split back
      into those lines. */
  lemma ExampleLines(l1: string, l2: string, l3: string)
    requires '\n' !in l1 && '\n' !in l2 && '\n' !in l3
    requires l1 != [] && !IsSpace(l1[0]) && l3 != [] && !IsSpace(l3[|l3| - 1])
    ensures Split(Strip(l1 + "\n" + l2 + "\n" + l3), '\n') == [l1, l2, l3]
  {
    var output := l1 + "\n" + l2 + "\n" + l3;
    var lines := [l1, l2, l3];
    assert Join(lines[2..], "\n") == l3;
    assert output == Join(lines, "\n");
    SplitJoin(lines, '\n');
    StripUnchanged(output);
  }

  /** Three lines joined by line breaks give the ideas of the first and the
      last when the middle one yields none. */
  lemma ParseThreeLines(l1: string, l2: string, l3: string, i1: string, i3: string)
    requires '\n' !in l1 && '\n' !in l2 && '\n' !in l3
    requires l1 != [] && !IsSpace(l1[0]) && l3 != [] && !IsSpace(l3[|l3| - 1])
    requires LineIdea(l1) == Some(i1) && LineIdea(l2) == None && LineIdea(l3) == Some(i3)
    ensures ParseIdeas(l1 + "\n" + l2 + "\n" + l3) == [i1, i3]
  {
    var lines := [l1, l2, l3];
    ExampleLines(l1, l2, l3);
    assert ParseIdeas(l1 + "\n" + l2 + "\n" + l3) == Present(LineIdeas(lines));
    var opts := LineIdeas(lines);
    assert opts == [Some(i1), None, Some(i3)];
    PresentOfThree(Some(i1), None, Some(i3));
  }

  /** Collecting over three lines, one line at a time. */
  lemma PresentOfThree(a: Option<string>, b: Option<string>, c: Option<string>)
    ensures Present([a, b, c]) == Present([a]) + Present([b]) + Present([c])
  {
    var opts := [a, b, c];
    assert opts[..2] == [a, b] && opts[..2][..1] == [a] && [a][..0] == [];
  }
}
