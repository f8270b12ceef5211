/** The records the brainstorming pipeline passes between its stages, and
    the threshold filter and the stable descending sort of its last stage. */
module Ranking {

  /** `{"idea": idea, "detail": detail}`: a candidate and its plan. */
  datatype ExpandedIdea = ExpandedIdea(idea: string, detail: string)

  /** `{"idea", "detail", "model_score", "evaluation_detail"}`: a scored
      candidate. */
  datatype ScoredIdea = ScoredIdea(idea: string, detail: string, score: real, evaluationDetail: string)

  /** The entries of `xs` whose score reaches `threshold`, in their order:
      the `if score >= threshold: append` of the scoring loop. */
  function KeepAtLeast(xs: seq<ScoredIdea>, threshold: real): (r: seq<ScoredIdea>)
    ensures |r| <= |xs|
    ensures forall k :: 0 <= k < |r| ==> r[k].score >= threshold
  {
    if xs == [] then []
    else
      var before := KeepAtLeast(xs[..|xs| - 1], threshold);
      if xs[|xs| - 1].score >= threshold then before + [xs[|xs| - 1]] else before
  }

  /** Filtering one more entry: it is appended when it reaches the
      threshold. */
  lemma KeepAtLeastSnoc(xs: seq<ScoredIdea>, x: ScoredIdea, threshold: real)
    ensures KeepAtLeast(xs + [x], threshold)
         == if x.score >= threshold then KeepAtLeast(xs, threshold) + [x] else KeepAtLeast(xs, threshold)
  {
    assert (xs + [x])[..|xs|] == xs;
  }

  /** An entry survives the filter exactly when it was there and reaches the
      threshold. */
  lemma {:induction false} KeepAtLeastMembers(xs: seq<ScoredIdea>, threshold: real, x: ScoredIdea)
    ensures x in KeepAtLeast(xs, threshold) <==> x in xs && x.score >= threshold
    decreases |xs|
  {
    if xs != [] {
      var init := xs[..|xs| - 1];
      KeepAtLeastMembers(init, threshold, x);
      assert xs == init + [xs[|xs| - 1]];
    }
  }

  /** Raising the threshold keeps fewer entries. */
  lemma {:induction false} KeepAtLeastMonotone(xs: seq<ScoredIdea>, low: real, high: real)
    requires low <= high
    ensures |KeepAtLeast(xs, high)| <= |KeepAtLeast(xs, low)|
    decreases |xs|
  {
    if xs != [] {
      KeepAtLeastMonotone(xs[..|xs| - 1], low, high);
    }
  }

  /** Whether the scores of `xs` never increase. */
  predicate SortedDesc(xs: seq<ScoredIdea>) {
    forall i, j :: 0 <= i < j < |xs| ==> xs[i].score >= xs[j].score
  }

  /** The entries of `xs` that have score `v`, in their order. */
  function WithScore(xs: seq<ScoredIdea>, v: real): seq<ScoredIdea>
  {
    if xs == [] then []
    else
      var before := WithScore(xs[..|xs| - 1], v);
      if xs[|xs| - 1].score == v then before + [xs[|xs| - 1]] else before
  }

  /** Inserts `x` into the descending `sorted` after every entry whose score
      is at least its own, so that it follows the entries it ties with. */
  function Insert(x: ScoredIdea, sorted: seq<ScoredIdea>): (r: seq<ScoredIdea>)
    ensures |r| == |sorted| + 1
    ensures r[0] == x || (sorted != [] && r[0] == sorted[0])
  {
    if sorted == [] || sorted[0].score < x.score then [x] + sorted
    else [sorted[0]] + Insert(x, sorted[1..])
  }

  /** Inserting into a descending sequence keeps it descending. */
  lemma {:induction false} InsertSorted(x: ScoredIdea, sorted: seq<ScoredIdea>)
    requires SortedDesc(sorted)
    ensures SortedDesc(Insert(x, sorted))
    decreases |sorted|
  {
    if sorted != [] && sorted[0].score >= x.score {
      SortedDescTail(sorted);
      InsertSorted(x, sorted[1..]);
      var rest := Insert(x, sorted[1..]);
      assert rest[0].score <= sorted[0].score;
      var r := [sorted[0]] + rest;
      assert Insert(x, sorted) == r;
      forall i, j | 0 <= i < j < |r|
        ensures r[i].score >= r[j].score
      {
        if i == 0 {
          assert rest[0].score >= rest[j - 1].score;
        } else {
          assert r[i] == rest[i - 1] && r[j] == rest[j - 1];
        }
      }
    }
  }

  /** Inserting adds `x` and loses nothing. */
  lemma {:induction false} InsertPermutes(x: ScoredIdea, sorted: seq<ScoredIdea>)
    ensures multiset(Insert(x, sorted)) == multiset(sorted) + multiset{x}
    decreases |sorted|
  {
    if sorted != [] && sorted[0].score >= x.score {
      InsertPermutes(x, sorted[1..]);
      assert sorted == [sorted[0]] + sorted[1..];
    }
  }

  /** The entries of the same score keep their order when `x` is inserted:
      `x` goes after the ones it ties with. */
  lemma {:induction false} InsertWithScore(x: ScoredIdea, sorted: seq<ScoredIdea>, v: real)
    requires SortedDesc(sorted)
    ensures WithScore(Insert(x, sorted), v)
         == if x.score == v then WithScore(sorted, v) + [x] else WithScore(sorted, v)
    decreases |sorted|
  {
    if sorted == [] || sorted[0].score < x.score {
      InsertInFront(x, sorted, v);
    } else {
      var tail := sorted[1..];
      SortedDescTail(sorted);
      InsertWithScore(x, tail, v);
      InsertBehind(x, sorted, v);
    }
  }

  /** A tail of a descending sequence is descending. */
  lemma SortedDescTail(xs: seq<ScoredIdea>)
    requires xs != [] && SortedDesc(xs)
    ensures SortedDesc(xs[1..])
  {
    var tail := xs[1..];
    forall i, j | 0 <= i < j < |tail|
      ensures tail[i].score >= tail[j].score
    {
      assert tail[i] == xs[i + 1] && tail[j] == xs[j + 1];
    }
  }

  /** Inserting in front of entries that all score less. */
  lemma InsertInFront(x: ScoredIdea, sorted: seq<ScoredIdea>, v: real)
    requires SortedDesc(sorted) && (sorted == [] || sorted[0].score < x.score)
    ensures WithScore(Insert(x, sorted), v)
         == if x.score == v then WithScore(sorted, v) + [x] else WithScore(sorted, v)
  {
    assert Insert(x, sorted) == [x] + sorted;
    WithScoreAppendFront(x, sorted, v);
    if x.score == v {
      forall k | 0 <= k < |sorted|
        ensures sorted[k].score < v
      {
        assert sorted[k].score <= sorted[0].score;
      }
      WithScoreNone(sorted, v);
      assert WithScore(Insert(x, sorted), v) == [x] + [];
      assert [x] + [] == WithScore(sorted, v) + [x];
    } else {
      assert WithScore(Insert(x, sorted), v) == [] + WithScore(sorted, v);
    }
  }

  /** Inserting behind the first entry, given the tail case. */
  lemma InsertBehind(x: ScoredIdea, sorted: seq<ScoredIdea>, v: real)
    requires sorted != [] && sorted[0].score >= x.score
    requires WithScore(Insert(x, sorted[1..]), v)
          == if x.score == v then WithScore(sorted[1..], v) + [x] else WithScore(sorted[1..], v)
    ensures WithScore(Insert(x, sorted), v)
         == if x.score == v then WithScore(sorted, v) + [x] else WithScore(sorted, v)
  {
    var tail := sorted[1..];
    var rest := Insert(x, tail);
    assert Insert(x, sorted) == [sorted[0]] + rest;
    assert [sorted[0]] + tail == sorted;
    if x.score == v {
      WithScoreConsAppend(sorted[0], rest, tail, x, v);
    } else {
      WithScoreAppendFront(sorted[0], rest, v);
      WithScoreAppendFront(sorted[0], tail, v);
    }
  }

  /** Putting the same entry in front of two sequences keeps a trailing
      difference between their filtered forms. */
  lemma WithScoreConsAppend(y: ScoredIdea, longer: seq<ScoredIdea>, shorter: seq<ScoredIdea>, x: ScoredIdea, v: real)
    requires WithScore(longer, v) == WithScore(shorter, v) + [x]
    ensures WithScore([y] + longer, v) == WithScore([y] + shorter, v) + [x]
  {
    WithScoreAppendFront(y, longer, v);
    WithScoreAppendFront(y, shorter, v);
    var front := if y.score == v then [y] else [];
    assert front + (WithScore(shorter, v) + [x]) == (front + WithScore(shorter, v)) + [x];
  }

  /** Filtering by score distributes over putting an entry in front. */
  lemma {:induction false} WithScoreAppendFront(y: ScoredIdea, xs: seq<ScoredIdea>, v: real)
    ensures WithScore([y] + xs, v) == (if y.score == v then [y] else []) + WithScore(xs, v)
    decreases |xs|
  {
    if xs != [] {
      var init := xs[..|xs| - 1];
      assert ([y] + xs)[..|xs|] == [y] + init;
      WithScoreAppendFront(y, init, v);
    }
  }

  /** In a descending sequence whose first score is below `v`, no entry has
      score `v`. */
  lemma {:induction false} WithScoreNone(xs: seq<ScoredIdea>, v: real)
    requires forall k :: 0 <= k < |xs| ==> xs[k].score < v
    ensures WithScore(xs, v) == []
    decreases |xs|
  {
    if xs != [] {
      WithScoreNone(xs[..|xs| - 1], v);
    }
  }

  /** `sorted(xs, key=lambda x: x["model_score"], reverse=True)`: Python's
      sort is stable, also in reverse, so entries with equal scores keep
      their order. */
  function SortByScore(xs: seq<ScoredIdea>): (r: seq<ScoredIdea>)
    ensures SortedDesc(r)
    ensures multiset(r) == multiset(xs)
    ensures |r| == |xs|
  {
    if xs == [] then []
    else
      var init := xs[..|xs| - 1];
      assert xs == init + [xs[|xs| - 1]];
      InsertSorted(xs[|xs| - 1], SortByScore(init));
      InsertPermutes(xs[|xs| - 1], SortByScore(init));
      Insert(xs[|xs| - 1], SortByScore(init))
  }

  /** The sort is stable: for every score, the entries with that score come
      out in the order they went in. */
  lemma {:induction false} SortByScoreStable(xs: seq<ScoredIdea>, v: real)
    ensures WithScore(SortByScore(xs), v) == WithScore(xs, v)
    decreases |xs|
  {
    if xs != [] {
      var init := xs[..|xs| - 1];
      SortByScoreStable(init, v);
      InsertWithScore(xs[|xs| - 1], SortByScore(init), v);
    }
  }
}
