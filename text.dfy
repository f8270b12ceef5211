/** Character classes and the Python string methods the parsers use:
    `str.strip`, `str.split` on one character, `str.join`. Strings are
    sequences of Unicode scalar values, as Python's `str` is. */
module Text {

  /** `\d`, restricted to the ASCII digits. */
  predicate IsDigit(c: char) { '0' <= c <= '9' }

  /** The characters for which Python's `str.isspace` holds; `str.strip()`
      without arguments and the regular-expression class `\s` both use this
      set. */
  predicate IsSpace(c: char) {
    || ('\t' <= c <= '\r')
    || ('\U{1C}' <= c <= ' ')
    || c == '\U{85}' || c == '\U{A0}' || c == '\U{1680}'
    || ('\U{2000}' <= c <= '\U{200A}')
    || c == '\U{2028}' || c == '\U{2029}' || c == '\U{202F}'
    || c == '\U{205F}' || c == '\U{3000}'
  }

  /** Whether the text character `c` matches the pattern letter whose
      lower-case form is `lower` and upper-case form is `upper` under
      `re.IGNORECASE`. Besides the two ASCII cases, Python's matcher treats
      U+017F (long s) as an `s`, and U+0130 and U+0131 (dotted capital and
      dotless small i) as an `i`. */
  predicate FoldsTo(c: char, lower: char, upper: char) {
    || c == lower || c == upper
    || (lower == 's' && c == '\U{17F}')
    || (lower == 'i' && (c == '\U{130}' || c == '\U{131}'))
  }

  /** Whether `s` starts, at position `i`, with `word` under `re.IGNORECASE`;
      `upper` is `word` in capitals. */
  predicate MatchesIgnoringCase(s: string, i: nat, word: string, upper: string)
    requires |upper| == |word|
  {
    && i + |word| <= |s|
    && forall k :: 0 <= k < |word| ==> FoldsTo(s[i + k], word[k], upper[k])
  }

  /** `s.lstrip()`. */
  function LStrip(s: string): (r: string)
    ensures |r| <= |s|
    ensures forall k :: 0 <= k < |s| - |r| ==> IsSpace(s[k])
    ensures r == [] || !IsSpace(r[0])
  {
    if s != [] && IsSpace(s[0]) then LStrip(s[1..]) else s
  }

  /** `s.rstrip()`. */
  function RStrip(s: string): (r: string)
    ensures |r| <= |s|
    ensures forall k :: |r| <= k < |s| ==> IsSpace(s[k])
    ensures r == [] || !IsSpace(r[|r| - 1])
  {
    if s != [] && IsSpace(s[|s| - 1]) then RStrip(s[..|s| - 1]) else s
  }

  /** What `s.lstrip()` leaves is a suffix of `s`. */
  lemma {:induction false} LStripIsSuffix(s: string)
    ensures LStrip(s) == s[|s| - |LStrip(s)|..]
  {
    if s != [] && IsSpace(s[0]) {
      LStripIsSuffix(s[1..]);
    }
  }

  /** What `s.rstrip()` leaves is a prefix of `s`. */
  lemma {:induction false} RStripIsPrefix(s: string)
    ensures RStrip(s) == s[..|RStrip(s)|]
  {
    if s != [] && IsSpace(s[|s| - 1]) {
      RStripIsPrefix(s[..|s| - 1]);
    }
  }

  /** `s.strip()`: the longest infix of `s` that neither starts nor ends
      with white space, after only white space was removed around it. */
  function Strip(s: string): (r: string)
    ensures |r| <= |s|
    ensures r == [] || (!IsSpace(r[0]) && !IsSpace(r[|r| - 1]))
  {
    RStripIsPrefix(LStrip(s));
    RStrip(LStrip(s))
  }

  /** Stripping only removes characters: what is left is the infix of `s`
      that starts after the leading white space. */
  lemma StripAt(s: string, k: nat)
    requires k < |Strip(s)|
    ensures |s| - |LStrip(s)| + k < |s|
    ensures Strip(s)[k] == s[|s| - |LStrip(s)| + k]
  {
    LStripIsSuffix(s);
    RStripIsPrefix(LStrip(s));
  }

  /** Every character of `s.strip()` is a character of `s`. */
  lemma StripChars(s: string, c: char)
    requires c in Strip(s)
    ensures c in s
  {
    var k :| 0 <= k < |Strip(s)| && Strip(s)[k] == c;
    StripAt(s, k);
  }

  /** A string with no white space at either end strips to itself. */
  lemma StripUnchanged(s: string)
    requires s != [] && !IsSpace(s[0]) && !IsSpace(s[|s| - 1])
    ensures Strip(s) == s
  {
  }

  /** A leading white-space character is stripped. */
  lemma StripDropsSpace(s: string)
    requires s != [] && IsSpace(s[0])
    ensures Strip(s) == Strip(s[1..])
  {
  }

  /** A string that consists of white space only strips to the empty string,
      and one that holds any other character does not. */
  lemma {:induction false} StripEmptyIffBlank(s: string)
    ensures Strip(s) == [] <==> forall k :: 0 <= k < |s| ==> IsSpace(s[k])
  {
    var l := LStrip(s);
    if Strip(s) == [] {
      assert RStrip(l) == [];
      assert l == [];
    } else {
      StripAt(s, 0);
    }
  }

  /** `"".join` with separator `sep`: `sep.join(parts)`. */
  function Join(parts: seq<string>, sep: string): (r: string)
    ensures parts == [] ==> r == []
    ensures |parts| == 1 ==> r == parts[0]
  {
    if |parts| == 0 then []
    else if |parts| == 1 then parts[0]
    else parts[0] + sep + Join(parts[1..], sep)
  }

  /** `s.split(sep)` for a one-character separator: the pieces between
      separators, always at least one. */
  function Split(s: string, sep: char): (parts: seq<string>)
    ensures |parts| >= 1
  {
    if s == [] then [[]]
    else
      var rest := Split(s[1..], sep);
      if s[0] == sep then [[]] + rest
      else [[s[0]] + rest[0]] + rest[1..]
  }

  /** Joining the pieces of `s.split(sep)` with `sep` gives `s` back. */
  lemma {:induction false} JoinSplit(s: string, sep: char)
    ensures Join(Split(s, sep), [sep]) == s
  {
    if s != [] {
      JoinSplit(s[1..], sep);
      if s[0] == sep {
        JoinSplitAtSeparator(s, sep);
      } else {
        JoinSplitInPiece(s, sep);
      }
    }
  }

  /** The step of `JoinSplit` for a text that starts with the separator. */
  lemma JoinSplitAtSeparator(s: string, sep: char)
    requires s != [] && s[0] == sep
    requires Join(Split(s[1..], sep), [sep]) == s[1..]
    ensures Join(Split(s, sep), [sep]) == s
  {
    var rest := Split(s[1..], sep);
    assert Split(s, sep) == [[]] + rest;
    JoinCons([], rest, [sep]);
    assert s == [sep] + s[1..];
  }

  /** The step of `JoinSplit` for a text that starts inside a piece. */
  lemma JoinSplitInPiece(s: string, sep: char)
    requires s != [] && s[0] != sep
    requires Join(Split(s[1..], sep), [sep]) == s[1..]
    ensures Join(Split(s, sep), [sep]) == s
  {
    var rest := Split(s[1..], sep);
    assert Split(s, sep) == [[s[0]] + rest[0]] + rest[1..];
    JoinPrepend(s[0], rest, [sep]);
    assert s == [s[0]] + s[1..];
  }

  /** Putting a character in front of the first piece puts it in front of
      the joined text. */
  lemma JoinPrepend(c: char, parts: seq<string>, sep: string)
    requires parts != []
    ensures Join([[c] + parts[0]] + parts[1..], sep) == [c] + Join(parts, sep)
  {
    var joined := [[c] + parts[0]] + parts[1..];
    if |parts| == 1 {
      assert joined == [[c] + parts[0]];
    } else {
      assert joined[1..] == parts[1..];
      assert Join(joined, sep) == ([c] + parts[0]) + sep + Join(parts[1..], sep);
      assert Join(parts, sep) == parts[0] + sep + Join(parts[1..], sep);
    }
  }

  /** Joining a piece in front of at least one more. */
  lemma JoinCons(p: string, ps: seq<string>, sep: string)
    requires ps != []
    ensures Join([p] + ps, sep) == p + sep + Join(ps, sep)
  {
    assert ([p] + ps)[1..] == ps;
  }

  /** No piece of `s.split(sep)` holds the separator. */
  lemma {:induction false} SplitNoSeparator(s: string, sep: char)
    ensures forall k :: 0 <= k < |Split(s, sep)| ==> sep !in Split(s, sep)[k]
  {
    if s != [] {
      SplitNoSeparator(s[1..], sep);
    }
  }

  /** Every character of every piece of `s.split(sep)` is a character of `s`. */
  lemma {:induction false} SplitChars(s: string, sep: char, k: nat, j: nat)
    requires k < |Split(s, sep)| && j < |Split(s, sep)[k]|
    ensures Split(s, sep)[k][j] in s
  {
    if s != [] {
      var rest := Split(s[1..], sep);
      if s[0] == sep {
        if k > 0 {
          SplitChars(s[1..], sep, k - 1, j);
        }
      } else if k == 0 {
        if j > 0 {
          SplitChars(s[1..], sep, 0, j - 1);
        }
      } else {
        SplitChars(s[1..], sep, k, j);
      }
    }
  }
}
