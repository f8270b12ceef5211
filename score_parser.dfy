/** The stage-three score reader, `BrainstormEngine._extract_score_from_response`:
    an ordered cascade of regular-expression searches over the evaluator's
    answer. The first pattern that matches anywhere decides the score; only
    the last-resort pattern, a bare number, rescales and caps it. */
module ScoreParser {
  import opened Basics
  import opened Text
  import opened Numerals

  /** The six patterns, in the order they are tried:
      `Score[:\s]+N` (ignoring case), `N/10`, `N\s*points?` (ignoring case),
      `评分[:：]?\s*N`, `N分`, and a bare `N`, where `N` is `\d+(?:\.\d+)?`. */
  datatype Pattern = ScoreLabel | OutOfTen | PointsSuffix | ScoreLabelZh | FenSuffix | AnyNumber

  /** What a pattern demands right after its number. */
  datatype Tail = Anything | SlashTen | Points | Fen

  /** The end of the run of white space starting at `i` (`\s*`). */
  function SpaceRunEnd(s: string, i: nat): (e: nat)
    requires i <= |s|
    ensures i <= e <= |s|
    ensures forall k :: i <= k < e ==> IsSpace(s[k])
    ensures e == |s| || !IsSpace(s[e])
    decreases |s| - i
  {
    if i < |s| && IsSpace(s[i]) then SpaceRunEnd(s, i + 1) else i
  }

  /** Whether `c` is in the class `[:\s]`. */
  predicate IsGap(c: char) {
    c == ':' || IsSpace(c)
  }

  /** The end of the run of `[:\s]` starting at `i`. */
  function GapRunEnd(s: string, i: nat): (e: nat)
    requires i <= |s|
    ensures i <= e <= |s|
    ensures forall k :: i <= k < e ==> IsGap(s[k])
    ensures e == |s| || !IsGap(s[e])
    decreases |s| - i
  {
    if i < |s| && IsGap(s[i]) then GapRunEnd(s, i + 1) else i
  }

  /** Whether the text from `j` on satisfies what the pattern wants after
      its number: nothing, `/10`, `\s*point` (ignoring case; the optional
      `s` never decides a match) or `分`. */
  predicate TailAt(s: string, j: nat, tail: Tail)
    requires j <= |s|
  {
    match tail
    case Anything => true
    case SlashTen => j + 3 <= |s| && s[j] == '/' && s[j + 1] == '1' && s[j + 2] == '0'
    case Points => MatchesIgnoringCase(s, SpaceRunEnd(s, j), "point", "POINT")
    case Fen => j < |s| && s[j] == '\U{5206}'
  }

  /** `(\d+(?:\.\d+)?)` at position `i` followed by `tail`, and the value
      `float` gives the captured text. Both `\d+` take their longest run and
      the fraction is tried before going without it. Giving back digits
      never helps: the character after a shorter run is a digit, while a
      fraction starts with `.` and every tail starts with a character that is
      not a digit. */
  function NumberThen(s: string, i: nat, tail: Tail): (v: Option<real>)
    requires i <= |s|
    ensures v.Some? ==> i < |s| && IsDigit(s[i]) && v.value >= 0.0
  {
    var e := DigitRunEnd(s, i);
    if e == i then None
    else if HasFraction(s, e) && TailAt(s, DigitRunEnd(s, e + 1), tail) then
      Some(NumeralValue(s[i..e], s[e + 1..DigitRunEnd(s, e + 1)]))
    else if TailAt(s, e, tail) then Some(NumeralValue(s[i..e], []))
    else None
  }

  /** The number pattern `p` captures when a match of it starts at `i`. */
  function MatchAt(s: string, p: Pattern, i: nat): (v: Option<real>)
    requires i <= |s|
    ensures v.Some? ==> i < |s| && v.value >= 0.0
  {
    match p
    case ScoreLabel =>
      if MatchesIgnoringCase(s, i, "score", "SCORE") && GapRunEnd(s, i + 5) > i + 5 then
        NumberThen(s, GapRunEnd(s, i + 5), Anything)
      else None
    case OutOfTen => NumberThen(s, i, SlashTen)
    case PointsSuffix => NumberThen(s, i, Points)
    case ScoreLabelZh =>
      if i + 2 <= |s| && s[i] == '\U{8BC4}' && s[i + 1] == '\U{5206}' then
        var c := if i + 2 < |s| && (s[i + 2] == ':' || s[i + 2] == '\U{FF1A}') then i + 3 else i + 2;
        NumberThen(s, SpaceRunEnd(s, c), Anything)
      else None
    case FenSuffix => NumberThen(s, i, Fen)
    case AnyNumber => NumberThen(s, i, Anything)
  }

  /** What pattern `p` captures at each position of `s`, the end of the
      text included. */
  function Matches(s: string, p: Pattern): (ms: seq<Option<real>>)
    ensures |ms| == |s| + 1
    ensures forall j :: 0 <= j <= |s| ==> ms[j] == MatchAt(s, p, j)
  {
    seq(|s| + 1, j requires 0 <= j <= |s| => MatchAt(s, p, j))
  }

  /** The scan of `re.search`: the first position at or after `from` where
      a match starts. */
  function FirstSome(ms: seq<Option<real>>, from: nat): (r: Option<nat>)
    requires from <= |ms|
    ensures r.Some? ==> from <= r.value < |ms| && ms[r.value].Some?
    ensures r.Some? ==> forall j :: from <= j < r.value ==> ms[j].None?
    ensures r.None? ==> forall j :: from <= j < |ms| ==> ms[j].None?
    decreases |ms| - from
  {
    if from == |ms| then None
    else if ms[from].Some? then Some(from)
    else FirstSome(ms, from + 1)
  }

  /** `re.search(p, s)` followed by `float(m.group(1))`. */
  function Search(s: string, p: Pattern): (v: Option<real>)
    ensures v.Some? ==> v.value >= 0.0
  {
    var ms := Matches(s, p);
    match FirstSome(ms, 0)
    case None => None
    case Some(i) => ms[i]
  }

  /** The last-resort treatment of a bare number: a value above 10 is read
      as a percentage and divided by 10, and the result is capped at 10. */
  function Rescale(v: real): (r: real)
    requires v >= 0.0
    ensures 0.0 <= r <= 10.0
    ensures v <= 10.0 ==> r == v
    ensures 10.0 < v <= 100.0 ==> r == v / 10.0
    ensures v > 100.0 ==> r == 10.0
  {
    var x := if v > 10.0 then v / 10.0 else v;
    if x < 10.0 then x else 10.0
  }

  /** `_extract_score_from_response(response)`. */
  function ExtractScore(s: string): (score: real)
    ensures score >= 0.0
  {
    match Search(s, ScoreLabel)
    case Some(v) => v
    case None =>
    match Search(s, OutOfTen)
    case Some(v) => v
    case None =>
    match Search(s, PointsSuffix)
    case Some(v) => v
    case None =>
    match Search(s, ScoreLabelZh)
    case Some(v) => v
    case None =>
    match Search(s, FenSuffix)
    case Some(v) => v
    case None =>
    match Search(s, AnyNumber)
    case Some(v) => Rescale(v)
    case None => 0.0
  }

  /** The labelled patterns, in the order the cascade tries them. */
  const Labelled: seq<Pattern> := [ScoreLabel, OutOfTen, PointsSuffix, ScoreLabelZh, FenSuffix]

  /** The first labelled pattern with a match anywhere decides the score,
      and its number is returned as written, neither rescaled nor capped. */
  lemma FirstLabelledWins(s: string, k: nat)
    requires k < |Labelled| && Search(s, Labelled[k]).Some?
    requires forall j :: 0 <= j < k ==> Search(s, Labelled[j]).None?
    ensures ExtractScore(s) == Search(s, Labelled[k]).value
  {
    if k > 0 { assert Search(s, Labelled[0]).None?; }
    if k > 1 { assert Search(s, Labelled[1]).None?; }
    if k > 2 { assert Search(s, Labelled[2]).None?; }
    if k > 3 { assert Search(s, Labelled[3]).None?; }
  }

  /** Without any labelled match, the score is the first bare number,
      rescaled, hence between 0 and 10; it is 0 when there is no number. */
  lemma FallbackBounded(s: string)
    requires forall k :: 0 <= k < |Labelled| ==> Search(s, Labelled[k]).None?
    ensures 0.0 <= ExtractScore(s) <= 10.0
    ensures Search(s, AnyNumber).None? ==> ExtractScore(s) == 0.0
    ensures Search(s, AnyNumber).Some? ==> ExtractScore(s) == Rescale(Search(s, AnyNumber).value)
  {
    assert Search(s, Labelled[0]).None? && Search(s, Labelled[1]).None?;
    assert Search(s, Labelled[2]).None? && Search(s, Labelled[3]).None?;
    assert Search(s, Labelled[4]).None?;
  }

  /** `re.search` finds `p` exactly at the leftmost position where a match
      starts: the value is that match's number, and no match starts
      earlier. */
  lemma SearchIsLeftmost(s: string, p: Pattern, i: nat)
    requires i <= |s| && MatchAt(s, p, i).Some?
    requires forall j :: 0 <= j < i ==> MatchAt(s, p, j).None?
    ensures Search(s, p) == MatchAt(s, p, i)
  {
  }

  /** A pattern finds nothing exactly when no match starts anywhere. */
  lemma SearchNoneIffNoMatch(s: string, p: Pattern)
    ensures Search(s, p).None? <==> forall j :: 0 <= j <= |s| ==> MatchAt(s, p, j).None?
  {
    var ms := Matches(s, p);
    if Search(s, p).None? {
      forall j | 0 <= j <= |s|
        ensures MatchAt(s, p, j).None?
      {
        assert ms[j] == MatchAt(s, p, j);
      }
    }
  }

  /** Every pattern captures a number, so a match needs a digit. */
  lemma MatchNeedsDigit(s: string, p: Pattern, i: nat)
    requires i <= |s| && MatchAt(s, p, i).Some?
    ensures exists k :: 0 <= k < |s| && IsDigit(s[k])
  {
    match p
    case ScoreLabel =>
      var g := GapRunEnd(s, i + 5);
      assert IsDigit(s[g]);
    case ScoreLabelZh =>
      var c := if i + 2 < |s| && (s[i + 2] == ':' || s[i + 2] == '\U{FF1A}') then i + 3 else i + 2;
      assert IsDigit(s[SpaceRunEnd(s, c)]);
    case _ =>
      assert IsDigit(s[i]);
  }

  /** A text without a single digit scores 0, and nothing is raised. */
  lemma NoDigitsScoreZero(s: string)
    requires forall k :: 0 <= k < |s| ==> !IsDigit(s[k])
    ensures ExtractScore(s) == 0.0
  {
    forall p: Pattern
      ensures Search(s, p).None?
    {
      forall j | 0 <= j <= |s|
        ensures MatchAt(s, p, j).None?
      {
        if MatchAt(s, p, j).Some? {
          MatchNeedsDigit(s, p, j);
        }
      }
      SearchNoneIffNoMatch(s, p);
    }
  }

  /** A numeral without a fraction is worth its digits. */
  lemma WholeValue(ds: string)
    requires AllDigits(ds)
    ensures NumeralValue(ds, []) == NatValue(ds) as real
  {
    assert NatValue([]) == 0 && Pow10(0) == 1;
  }

  /** A whole number at `i`, followed by something that cannot continue it
      and then by what `tail` demands, is captured with its value. */
  lemma WholeNumberAt(s: string, i: nat, ds: string, rest: string, tail: Tail)
    requires i <= |s| && s[i..] == ds + rest
    requires ds != [] && AllDigits(ds)
    requires rest == [] || (!IsDigit(rest[0]) && rest[0] != '.')
    requires i + |ds| <= |s| && TailAt(s, i + |ds|, tail)
    ensures NumberThen(s, i, tail) == Some(NatValue(ds) as real)
  {
    var e := i + |ds|;
    WholeRunEnds(s, i, ds, rest);
    WholeNumberBetween(s, i, e, tail);
  }

  /** Where the digit run of a whole number ends, with no fraction after
      it, and what it holds. */
  lemma WholeRunEnds(s: string, i: nat, ds: string, rest: string)
    requires i <= |s| && s[i..] == ds + rest
    requires AllDigits(ds)
    requires rest == [] || (!IsDigit(rest[0]) && rest[0] != '.')
    ensures i + |ds| <= |s| && DigitRunEnd(s, i) == i + |ds|
    ensures !HasFraction(s, i + |ds|)
    ensures s[i..i + |ds|] == ds
  {
    DigitRunEndOfPrefix(s, i, ds, rest);
    var e := i + |ds|;
    if e < |s| {
      assert s[e] == rest[0];
    }
    var t := s[i..];
    assert t[..|ds|] == ds;
  }

  /** A whole number between `i` and `e` with no fraction after it,
      followed by what `tail` demands, is captured with its value. */
  lemma WholeNumberBetween(s: string, i: nat, e: nat, tail: Tail)
    requires i < e <= |s|
    requires DigitRunEnd(s, i) == e && !HasFraction(s, e) && TailAt(s, e, tail)
    ensures NumberThen(s, i, tail) == Some(NatValue(s[i..e]) as real)
  {
    WholeValue(s[i..e]);
  }

  /** An answer that opens with `Score: ` and a whole number scores exactly
      that number, however large it is. */
  lemma ScoreLabelRoundTrip(ds: string, rest: string)
    requires ds != [] && AllDigits(ds)
    requires rest == [] || (!IsDigit(rest[0]) && rest[0] != '.')
    ensures ExtractScore("Score: " + ds + rest) == NatValue(ds) as real
  {
    var s := "Score: " + ds + rest;
    assert s[..7] == "Score: ";
    assert MatchesIgnoringCase(s, 0, "score", "SCORE");
    assert GapRunEnd(s, 7) == 7 by {
      assert s[7] == ds[0];
    }
    assert GapRunEnd(s, 5) == 7;
    assert s[7..] == ds + rest;
    WholeNumberAt(s, 7, ds, rest, Anything);
    assert MatchAt(s, ScoreLabel, 0) == Some(NatValue(ds) as real);
    SearchIsLeftmost(s, ScoreLabel, 0);
  }

  /** A number with a fraction between `i` and `f`, followed by what
      `tail` demands, is captured with its value. */
  lemma FractionNumberAt(s: string, i: nat, e: nat, f: nat, tail: Tail)
    requires i < e < f <= |s|
    requires DigitRunEnd(s, i) == e && HasFraction(s, e) && DigitRunEnd(s, e + 1) == f
    requires TailAt(s, f, tail)
    ensures NumberThen(s, i, tail) == Some(NumeralValue(s[i..e], s[e + 1..f]))
  {
  }

  /** `<ds>.<fs>` at `i`, followed by something that is not a digit and
      then by what `tail` demands, is captured with its value. */
  lemma DecimalNumberAt(s: string, i: nat, ds: string, fs: string, rest: string, tail: Tail)
    requires i <= |s| && s[i..] == ds + "." + fs + rest
    requires ds != [] && AllDigits(ds) && fs != [] && AllDigits(fs)
    requires rest == [] || !IsDigit(rest[0])
    requires TailAt(s, i + |ds| + 1 + |fs|, tail)
    ensures NumberThen(s, i, tail) == Some(NumeralValue(ds, fs))
  {
    FractionRunEnds(s, i, ds, fs, rest);
    FractionSlices(s, i, ds, fs, rest);
    FractionNumberAt(s, i, i + |ds|, i + |ds| + 1 + |fs|, tail);
  }

  /** The two digit runs of `<ds>.<fs>` at `i` are `ds` and `fs`. */
  lemma FractionSlices(s: string, i: nat, ds: string, fs: string, rest: string)
    requires i <= |s| && s[i..] == ds + "." + fs + rest
    ensures s[i..i + |ds|] == ds
    ensures s[i + |ds| + 1..i + |ds| + 1 + |fs|] == fs
  {
    var t := s[i..];
    assert t[..|ds|] == ds;
    assert t[|ds| + 1..|ds| + 1 + |fs|] == fs;
  }

  /** Where the two digit runs of `<ds>.<fs>` end. */
  lemma FractionRunEnds(s: string, i: nat, ds: string, fs: string, rest: string)
    requires i <= |s| && s[i..] == ds + "." + fs + rest
    requires AllDigits(ds) && fs != [] && AllDigits(fs)
    requires rest == [] || !IsDigit(rest[0])
    ensures DigitRunEnd(s, i) == i + |ds|
    ensures HasFraction(s, i + |ds|)
    ensures DigitRunEnd(s, i + |ds| + 1) == i + |ds| + 1 + |fs|
  {
    var e := i + |ds|;
    DigitRunEndOfPrefix(s, i, ds, "." + fs + rest);
    assert s[e] == '.' && s[e + 1] == fs[0];
    assert s[e + 1..] == fs + rest;
    DigitRunEndOfPrefix(s, e + 1, fs, rest);
  }

  /** An answer that opens with `Score: ` and a decimal number, such as
      `Score: 8.7`, scores exactly that number. */
  lemma ScoreLabelDecimalRoundTrip(ds: string, fs: string, rest: string)
    requires ds != [] && AllDigits(ds) && fs != [] && AllDigits(fs)
    requires rest == [] || !IsDigit(rest[0])
    ensures ExtractScore("Score: " + ds + "." + fs + rest) == NumeralValue(ds, fs)
  {
    var s := "Score: " + ds + "." + fs + rest;
    assert s[..7] == "Score: ";
    assert MatchesIgnoringCase(s, 0, "score", "SCORE");
    assert GapRunEnd(s, 7) == 7 by {
      assert s[7] == ds[0];
    }
    assert GapRunEnd(s, 5) == 7;
    assert s[7..] == ds + "." + fs + rest;
    DecimalNumberAt(s, 7, ds, fs, rest, Anything);
    assert MatchAt(s, ScoreLabel, 0) == Some(NumeralValue(ds, fs));
    SearchIsLeftmost(s, ScoreLabel, 0);
  }
  /** The format the evaluator is asked for, `Score: 8.7`, scores 8.7. */
  lemma ScoreExample()
    ensures ExtractScore("Score: 8.7") == 8.7
  {
    ScoreLabelDecimalRoundTrip("8", "7", "");
    assert "Score: " + "8" + "." + "7" + "" == "Score: 8.7";
    NumeralValueExamples();
  }


  /** No `Score` label starts where the text does not start with an `s`
      (in either case) followed by four more characters. */
  lemma NoLabelAt(s: string, j: nat)
    requires j <= |s|
    requires j + 5 > |s| || !FoldsTo(s[j], 's', 'S')
    ensures MatchAt(s, ScoreLabel, j).None?
  {
    if j + 5 <= |s| {
      assert !FoldsTo(s[j + 0], "score"[0], "SCORE"[0]);
    }
  }

  /** No number starts where there is no digit. */
  lemma NoNumberAt(s: string, j: nat, tail: Tail)
    requires j <= |s| && (j == |s| || !IsDigit(s[j]))
    ensures NumberThen(s, j, tail).None?
  {
  }

  /** No `Score` label occurs in `<number> points`. */
  lemma PointsHasNoLabel(ds: string)
    requires ds != [] && AllDigits(ds)
    ensures Search(ds + " points", ScoreLabel).None?
  {
    var s := ds + " points";
    var n := |ds|;
    forall j | 0 <= j <= |s|
      ensures MatchAt(s, ScoreLabel, j).None?
    {
      if j < n {
        assert s[j] == ds[j];
      } else if j < |s| {
        assert s[j] == " points"[j - n];
      }
      NoLabelAt(s, j);
    }
    SearchNoneIffNoMatch(s, ScoreLabel);
  }

  /** A whole number followed by a space is not followed by `/10`. */
  lemma NoOutOfTenBeforeSpace(s: string, j: nat, n: nat)
    requires j < n < |s| && AllDigits(s[j..n]) && s[n] == ' '
    ensures MatchAt(s, OutOfTen, j).None?
  {
    assert s[j..] == s[j..n] + s[n..];
    DigitRunEndOfPrefix(s, j, s[j..n], s[n..]);
  }

  /** No `/10` follows the number in `<number> points`. */
  lemma PointsHasNoOutOfTen(ds: string)
    requires ds != [] && AllDigits(ds)
    ensures Search(ds + " points", OutOfTen).None?
  {
    var s := ds + " points";
    var n := |ds|;
    forall j | 0 <= j <= |s|
      ensures MatchAt(s, OutOfTen, j).None?
    {
      if j < n {
        assert s[j..n] == ds[j..];
        NoOutOfTenBeforeSpace(s, j, n);
      } else {
        if j < |s| {
          assert s[j] == " points"[j - n];
        }
        NoNumberAt(s, j, SlashTen);
      }
    }
    SearchNoneIffNoMatch(s, OutOfTen);
  }

  /** ` points` satisfies the tail of `N\s*points?`. */
  lemma PointsTail(s: string, n: nat)
    requires n + 7 <= |s| && s[n..n + 7] == " points"
    ensures TailAt(s, n, Points)
  {
    assert s[n] == ' ' && s[n + 1] == 'p';
    assert SpaceRunEnd(s, n) == n + 1;
    forall k | 0 <= k < 5
      ensures s[n + 1 + k] == "point"[k]
    {
      assert s[n + 1 + k] == s[n..n + 7][k + 1];
    }
  }

  /** `<number> points` matches `N\s*points?` at its start. */
  lemma PointsMatchAtStart(ds: string)
    requires ds != [] && AllDigits(ds)
    ensures MatchAt(ds + " points", PointsSuffix, 0) == Some(NatValue(ds) as real)
  {
    var s := ds + " points";
    assert s[|ds|..|ds| + 7] == " points";
    PointsTail(s, |ds|);
    assert s[0..] == ds + " points";
    WholeNumberAt(s, 0, ds, " points", Points);
  }

  /** A match at the very start is the one `re.search` finds. */
  lemma SearchAtStart(s: string, p: Pattern)
    requires MatchAt(s, p, 0).Some?
    ensures Search(s, p) == MatchAt(s, p, 0)
  {
    SearchIsLeftmost(s, p, 0);
  }

  /** With no `Score` label and no `/10`, a `points` match decides. */
  lemma PointsDecide(s: string)
    requires Search(s, ScoreLabel).None? && Search(s, OutOfTen).None?
    requires Search(s, PointsSuffix).Some?
    ensures ExtractScore(s) == Search(s, PointsSuffix).value
  {
  }

  /** `<number> points` scores the number as written: an answer ending in
      `87 points` scores 87, not 8.7, and nothing caps it at 10. */
  lemma PointsNotRescaled(ds: string)
    requires ds != [] && AllDigits(ds)
    ensures ExtractScore(ds + " points") == NatValue(ds) as real
  {
    PointsHasNoLabel(ds);
    PointsHasNoOutOfTen(ds);
    PointsMatchAtStart(ds);
    SearchAtStart(ds + " points", PointsSuffix);
    PointsDecide(ds + " points");
  }

  /** In a text made only of digits, no labelled pattern matches anywhere:
      every label or tail needs a character that is not a digit. */
  lemma DigitsHaveNoLabel(ds: string, k: nat)
    requires AllDigits(ds) && k < |Labelled|
    ensures Search(ds, Labelled[k]).None?
  {
    var p := Labelled[k];
    forall j | 0 <= j <= |ds|
      ensures MatchAt(ds, p, j).None?
    {
      if p == ScoreLabel {
        NoLabelAt(ds, j);
      } else if j < |ds| && p != ScoreLabelZh {
        assert ds[j..] == ds[j..] + [];
        DigitRunEndOfPrefix(ds, j, ds[j..], []);
      }
    }
    SearchNoneIffNoMatch(ds, p);
  }

  /** A bare whole number is read by the last-resort pattern: divided by 10
      when above 10 (a percentage) and capped at 10, so `87` scores 8.7. */
  lemma BareNumberRescaled(ds: string)
    requires ds != [] && AllDigits(ds)
    ensures ExtractScore(ds) == Rescale(NatValue(ds) as real)
  {
    forall k | 0 <= k < |Labelled|
      ensures Search(ds, Labelled[k]).None?
    {
      DigitsHaveNoLabel(ds, k);
    }
    assert ds[0..] == ds + [];
    WholeNumberAt(ds, 0, ds, [], Anything);
    SearchAtStart(ds, AnyNumber);
    FallbackBounded(ds);
  }
}
