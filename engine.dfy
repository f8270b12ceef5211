/** `BrainstormEngine.brainstorm`: build the user context, have the first
    model propose ideas, have the second expand each candidate into a plan,
    have the third score each plan, keep the plans that reach the threshold,
    rank them by score and return the best `num_ideas`.

    The three models and the user-profile store are oracles. A backend is a
    function from the index of the call (the first call to that model is
    call 0) and the prompt to the reply; the wording of the prompts is left
    out and a prompt is kept as the values it is built from. */
module Brainstorm {
  import opened Basics
  import opened Text
  import opened PyValues
  import opened IdeaParser
  import opened ScoreParser
  import opened Ranking

  /** What a model's `generate_text` does: return text or raise. */
  datatype Reply = Ok(text: string) | Fail(reason: string)

  /** The three kinds of prompt, by the values they are built from. */
  datatype Prompt =
    | IdeaPrompt(topic: string, userContext: string, userBehavior: string, constraints: string, count: int)
    | ExpandPrompt(topic: string, idea: string)
    | ScorePrompt(topic: string, idea: string, detail: string, userContext: string, userBehavior: string)

  /** A model: the reply to its `k`-th call, given the prompt. */
  type Backend = (nat, Prompt) -> Reply

  /** The parts of `get_user_history(user_id)` the engine reads. */
  datatype UserHistory = UserHistory(interests: seq<string>, recentTopics: seq<string>)

  /** A `BrainstormEngine`: idea generator, planner, evaluator, the
      profile store's answer for each user id, and `MIN_SCORE_THRESHOLD`. */
  datatype Engine = Engine(
    generator: Backend,
    planner: Backend,
    evaluator: Backend,
    profile: Value -> UserHistory,
    minScore: real)

  const DefaultContext: string := "General user, no specific preferences"
  const DefaultBehavior: string := "No historical behavior data"
  const Constraints: string := "No special constraints"

  /** The two lines describing the user in the prompts. */
  datatype UserContext = UserContext(context: string, behavior: string)

  /** Step 1: the user context. Without a (truthy) user id both lines are
      the placeholders; otherwise the first five interests and the last
      three recent topics are listed, each line falling back to its
      placeholder when its list is empty. The stored history is a non-empty
      dictionary, so `if user_history` always holds. */
  function BuildContext(userId: Value, profile: Value -> UserHistory): (c: UserContext)
    ensures !Truthy(userId) ==> c == UserContext(DefaultContext, DefaultBehavior)
    ensures Truthy(userId) ==>
      c.context == (if profile(userId).interests == [] then DefaultContext
                    else "User interests: " + Join(Take(profile(userId).interests, 5), ", "))
    ensures Truthy(userId) ==>
      c.behavior == (if profile(userId).recentTopics == [] then DefaultBehavior
                     else "Recently followed topics: " + Join(Last(profile(userId).recentTopics, 3), ", "))
  {
    if !Truthy(userId) then UserContext(DefaultContext, DefaultBehavior)
    else
      var h := profile(userId);
      var context := if h.interests != [] then "User interests: " + Join(Take(h.interests, 5), ", ") else DefaultContext;
      var behavior := if h.recentTopics != [] then "Recently followed topics: " + Join(Last(h.recentTopics, 3), ", ") else DefaultBehavior;
      UserContext(context, behavior)
  }

  /** The context reads only the first five interests and the last three
      recent topics: two histories that agree on those give the same
      context. */
  lemma ContextReadsFirstFiveLastThree(userId: Value, p1: Value -> UserHistory, p2: Value -> UserHistory)
    requires Take(p1(userId).interests, 5) == Take(p2(userId).interests, 5)
    requires Last(p1(userId).recentTopics, 3) == Last(p2(userId).recentTopics, 3)
    ensures BuildContext(userId, p1) == BuildContext(userId, p2)
  {
    var h1, h2 := p1(userId), p2(userId);
    assert h1.interests == [] <==> h2.interests == [] by {
      assert |Take(h1.interests, 5)| == Min(5, |h1.interests|);
      assert |Take(h2.interests, 5)| == Min(5, |h2.interests|);
    }
    assert h1.recentTopics == [] <==> h2.recentTopics == [] by {
      assert |Last(h1.recentTopics, 3)| == Min(3, |h1.recentTopics|);
      assert |Last(h2.recentTopics, 3)| == Min(3, |h2.recentTopics|);
    }
  }

  /** Why `brainstorm` raises `RuntimeError`. */
  datatype EngineError = GenerationFailed(cause: string) | NoIdeasParsed

  /** The text of the `RuntimeError`. */
  function ErrorMessage(e: EngineError): (m: string)
    ensures e.GenerationFailed? ==> |m| > |e.cause| && m[|m| - |e.cause|..] == e.cause
    ensures e.NoIdeasParsed? ==> m != []
  {
    match e
    case GenerationFailed(cause) => "Model 1 failed to generate ideas: " + cause
    case NoIdeasParsed => "Failed to parse valid ideas from the model output."
  }

  /** The `update_user_interaction(user_id, topic, selected_ideas)` call. */
  datatype WriteBack = WriteBack(userId: Value, topic: string, selected: seq<string>)

  /** The stage-one prompt: asks for twice the requested number of ideas. */
  function FirstPrompt(topic: string, ctx: UserContext, numIdeas: int): (p: Prompt)
    ensures p.IdeaPrompt? && p.count == 2 * numIdeas
    ensures p.topic == topic && p.userContext == ctx.context && p.userBehavior == ctx.behavior
  {
    IdeaPrompt(topic, ctx.context, ctx.behavior, Constraints, numIdeas * 2)
  }

  /** Step 3 for the `k`-th candidate: the planner's text, or the idea itself
      when the planner raises. */
  function ExpandOne(planner: Backend, topic: string, k: nat, idea: string): (e: ExpandedIdea)
    ensures e.idea == idea
    ensures planner(k, ExpandPrompt(topic, idea)).Fail? ==> e.detail == idea
    ensures planner(k, ExpandPrompt(topic, idea)).Ok? ==> e.detail == planner(k, ExpandPrompt(topic, idea)).text
  {
    match planner(k, ExpandPrompt(topic, idea))
    case Ok(text) => ExpandedIdea(idea, text)
    case Fail(_) => ExpandedIdea(idea, idea)
  }

  /** Step 3: one expanded entry per candidate, in candidate order. */
  function ExpandAll(planner: Backend, topic: string, pool: seq<string>): (es: seq<ExpandedIdea>)
    ensures |es| == |pool|
    ensures forall k :: 0 <= k < |pool| ==> es[k].idea == pool[k]
    ensures forall k :: 0 <= k < |pool| && planner(k, ExpandPrompt(topic, pool[k])).Fail? ==> es[k].detail == pool[k]
  {
    seq(|pool|, k requires 0 <= k < |pool| => ExpandOne(planner, topic, k, pool[k]))
  }

  /** The scoring prompt for an expanded candidate. */
  function ScoringPrompt(topic: string, ctx: UserContext, item: ExpandedIdea): Prompt
  {
    ScorePrompt(topic, item.idea, item.detail, ctx.context, ctx.behavior)
  }

  /** Step 4 for the `k`-th entry: the score read from the evaluator's
      answer, kept with the answer; 0 with an empty answer when the
      evaluator raises. */
  function ScoreOne(evaluator: Backend, topic: string, ctx: UserContext, k: nat, item: ExpandedIdea): (s: ScoredIdea)
    ensures s.idea == item.idea && s.detail == item.detail
    ensures evaluator(k, ScoringPrompt(topic, ctx, item)).Fail? ==> s.score == 0.0 && s.evaluationDetail == []
    ensures evaluator(k, ScoringPrompt(topic, ctx, item)).Ok? ==>
      s.evaluationDetail == evaluator(k, ScoringPrompt(topic, ctx, item)).text
      && s.score == ExtractScore(s.evaluationDetail)
  {
    match evaluator(k, ScoringPrompt(topic, ctx, item))
    case Ok(text) => ScoredIdea(item.idea, item.detail, ExtractScore(text), text)
    case Fail(_) => ScoredIdea(item.idea, item.detail, 0.0, "")
  }

  /** Step 4 before the threshold: every expanded entry, scored. */
  function ScoreAll(evaluator: Backend, topic: string, ctx: UserContext, items: seq<ExpandedIdea>): (ss: seq<ScoredIdea>)
    ensures |ss| == |items|
  {
    seq(|items|, k requires 0 <= k < |items| => ScoreOne(evaluator, topic, ctx, k, items[k]))
  }

  /** The candidate pool `ideas[:num_ideas * 2]`. */
  function Pool(ideas: seq<string>, numIdeas: int): (pool: seq<string>)
    ensures numIdeas >= 0 ==> pool == ideas[..Min(|ideas|, 2 * numIdeas)]
    ensures numIdeas < 0 ==> pool == ideas[..Max0(|ideas| + 2 * numIdeas)]
  {
    Take(ideas, numIdeas * 2)
  }

  /** Steps 5 to 7: the entries reaching the threshold, sorted by score,
      the first `num_ideas` of them. */
  function Rank(scored: seq<ScoredIdea>, minScore: real, numIdeas: int): (r: seq<ScoredIdea>)
    ensures multiset(r) <= multiset(KeepAtLeast(scored, minScore))
    ensures forall k :: 0 <= k < |r| ==> r[k].score >= minScore
    ensures numIdeas >= 0 ==> |r| <= numIdeas
  {
    var kept := KeepAtLeast(scored, minScore);
    var sorted := SortByScore(kept);
    var r := Take(sorted, numIdeas);
    PrefixSubBag(sorted, |r|);
    assert forall k :: 0 <= k < |r| ==> r[k] in multiset(kept);
    r
  }

  /** A prefix holds no entry more often than the whole sequence. */
  lemma PrefixSubBag(xs: seq<ScoredIdea>, n: nat)
    requires n <= |xs|
    ensures multiset(xs[..n]) <= multiset(xs)
  {
    assert xs == xs[..n] + xs[n..];
  }

  /** What `brainstorm(topic, user_id, num_ideas)` returns or raises. */
  function Pipeline(engine: Engine, topic: string, userId: Value, numIdeas: int): (r: Result<seq<ScoredIdea>, EngineError>)
    ensures r.Failure? ==>
      var reply := engine.generator(0, FirstPrompt(topic, BuildContext(userId, engine.profile), numIdeas));
      reply.Fail? || ParseIdeas(reply.text) == []
    ensures r.Success? ==> forall k :: 0 <= k < |r.value| ==> r.value[k].score >= engine.minScore
    ensures r.Success? && numIdeas >= 0 ==> |r.value| <= numIdeas
  {
    var ctx := BuildContext(userId, engine.profile);
    match engine.generator(0, FirstPrompt(topic, ctx, numIdeas))
    case Fail(cause) => Failure(GenerationFailed(cause))
    case Ok(output) =>
      var ideas := ParseIdeas(output);
      if ideas == [] then Failure(NoIdeasParsed)
      else
        var pool := Pool(ideas, numIdeas);
        var scored := ScoreAll(engine.evaluator, topic, ctx, ExpandAll(engine.planner, topic, pool));
        Success(Rank(scored, engine.minScore, numIdeas))
  }

  /** The ideas of the entries, in order. */
  function IdeasOf(entries: seq<ScoredIdea>): (ideas: seq<string>)
    ensures |ideas| == |entries|
    ensures forall k :: 0 <= k < |entries| ==> ideas[k] == entries[k].idea
  {
    seq(|entries|, k requires 0 <= k < |entries| => entries[k].idea)
  }

  /** Step 8: the write-back is requested only for a truthy user id and a
      non-empty result; whether it succeeds does not matter. */
  function WriteBackOf(userId: Value, topic: string, result: Result<seq<ScoredIdea>, EngineError>): (w: Option<WriteBack>)
    ensures w.Some? <==> result.Success? && Truthy(userId) && result.value != []
    ensures w.Some? ==> w.value.userId == userId && w.value.topic == topic && |w.value.selected| == |result.value|
  {
    if result.Success? && Truthy(userId) && result.value != [] then
      Some(WriteBack(userId, topic, IdeasOf(result.value)))
    else None
  }

  /** The prompts sent to the planner, one per candidate. */
  function ExpandPrompts(topic: string, pool: seq<string>): (ps: seq<Prompt>)
    ensures |ps| == |pool|
  {
    seq(|pool|, k requires 0 <= k < |pool| => ExpandPrompt(topic, pool[k]))
  }

  /** The prompts sent to the evaluator, one per expanded entry. */
  function ScorePrompts(topic: string, ctx: UserContext, items: seq<ExpandedIdea>): (ps: seq<Prompt>)
    ensures |ps| == |items|
  {
    seq(|items|, k requires 0 <= k < |items| => ScoringPrompt(topic, ctx, items[k]))
  }

  /** Every prompt `brainstorm` sends, in order: the stage-one prompt, then,
      if ideas were parsed, one planner prompt per candidate and one
      evaluator prompt per candidate. */
  function PromptsSent(engine: Engine, topic: string, userId: Value, numIdeas: int): (ps: seq<Prompt>)
    ensures ps != [] && ps[0] == FirstPrompt(topic, BuildContext(userId, engine.profile), numIdeas)
  {
    var ctx := BuildContext(userId, engine.profile);
    var first := FirstPrompt(topic, ctx, numIdeas);
    match engine.generator(0, first)
    case Fail(_) => [first]
    case Ok(output) =>
      var ideas := ParseIdeas(output);
      if ideas == [] then [first]
      else
        var pool := Pool(ideas, numIdeas);
        [first] + ExpandPrompts(topic, pool) + ScorePrompts(topic, ctx, ExpandAll(engine.planner, topic, pool))
  }

  /** Stage one decides whether anything else happens: `brainstorm` raises
      exactly when the idea model raises or no idea is parsed from its text,
      the error carries the model's exception, and no planner or evaluator
      prompt has been sent by then. */
  lemma FatalErrorsStopEarly(engine: Engine, topic: string, userId: Value, numIdeas: int)
    ensures
      var first := FirstPrompt(topic, BuildContext(userId, engine.profile), numIdeas);
      var reply := engine.generator(0, first);
      var r := Pipeline(engine, topic, userId, numIdeas);
      && (r.Failure? <==> reply.Fail? || ParseIdeas(reply.text) == [])
      && (reply.Fail? ==> r.error == GenerationFailed(reply.reason))
      && (reply.Ok? && r.Failure? ==> r.error == NoIdeasParsed)
      && (r.Failure? ==> PromptsSent(engine, topic, userId, numIdeas) == [first])
  {
  }

  /** The candidates of a successful run are `ideas[:num_ideas * 2]`; each
      of them gets exactly one planner prompt, in candidate order, after the
      stage-one prompt, and then one evaluator prompt. */
  lemma PromptsPerCandidate(engine: Engine, topic: string, userId: Value, numIdeas: int)
    requires numIdeas >= 0
    requires Pipeline(engine, topic, userId, numIdeas).Success?
    ensures
      var ctx := BuildContext(userId, engine.profile);
      var ideas := ParseIdeas(engine.generator(0, FirstPrompt(topic, ctx, numIdeas)).text);
      var pool := Pool(ideas, numIdeas);
      var expanded := ExpandAll(engine.planner, topic, pool);
      var sent := PromptsSent(engine, topic, userId, numIdeas);
      && |pool| == Min(|ideas|, 2 * numIdeas) && pool == ideas[..|pool|]
      && |sent| == 1 + 2 * |pool|
      && (forall k :: 0 <= k < |pool| ==> sent[1 + k] == ExpandPrompt(topic, pool[k]))
      && (forall k :: 0 <= k < |pool| ==> sent[1 + |pool| + k] == ScoringPrompt(topic, ctx, expanded[k]))
  {
    var ctx := BuildContext(userId, engine.profile);
    var first := FirstPrompt(topic, ctx, numIdeas);
    var pool := Pool(ParseIdeas(engine.generator(0, first).text), numIdeas);
    var expanded := ExpandAll(engine.planner, topic, pool);
    assert PromptsSent(engine, topic, userId, numIdeas) == [first] + ExpandPrompts(topic, pool) + ScorePrompts(topic, ctx, expanded);
    PromptLayout(first, topic, ctx, pool, expanded);
  }

  /** The calls after the first: one expansion per candidate, in order,
      followed by one scoring call per expanded candidate, in order. */
  lemma PromptLayout(first: Prompt, topic: string, ctx: UserContext, pool: seq<string>, expanded: seq<ExpandedIdea>)
    requires |expanded| == |pool|
    ensures var sent := [first] + ExpandPrompts(topic, pool) + ScorePrompts(topic, ctx, expanded);
      && |sent| == 1 + 2 * |pool|
      && (forall k :: 0 <= k < |pool| ==> sent[1 + k] == ExpandPrompt(topic, pool[k]))
      && (forall k :: 0 <= k < |pool| ==> sent[1 + |pool| + k] == ScoringPrompt(topic, ctx, expanded[k]))
  {
    var expandPrompts := ExpandPrompts(topic, pool);
    var scorePrompts := ScorePrompts(topic, ctx, expanded);
    var sent := [first] + expandPrompts + scorePrompts;
    forall k | 0 <= k < |pool|
      ensures sent[1 + k] == ExpandPrompt(topic, pool[k])
    {
      assert sent[1 + k] == expandPrompts[k];
    }
    forall k | 0 <= k < |pool|
      ensures sent[1 + |pool| + k] == ScoringPrompt(topic, ctx, expanded[k])
    {
      assert sent[1 + |pool| + k] == scorePrompts[k];
    }
  }


  /** An entry whose evaluator call raises scores 0 and is kept exactly when
      the threshold is not positive. */
  lemma FailedScoreKeptIffThresholdNonPositive(evaluator: Backend, topic: string, ctx: UserContext, items: seq<ExpandedIdea>, minScore: real, k: nat)
    requires k < |items| && evaluator(k, ScoringPrompt(topic, ctx, items[k])).Fail?
    ensures ScoredIdea(items[k].idea, items[k].detail, 0.0, "") in KeepAtLeast(ScoreAll(evaluator, topic, ctx, items), minScore)
        <==> minScore <= 0.0
  {
    var scored := ScoreAll(evaluator, topic, ctx, items);
    var failed := ScoredIdea(items[k].idea, items[k].detail, 0.0, "");
    assert scored[k] == failed;
    KeepAtLeastMembers(scored, minScore, failed);
  }

  /** The first `m` entries of a descending sequence are descending. */
  lemma SortedDescPrefix(xs: seq<ScoredIdea>, m: nat)
    requires SortedDesc(xs) && m <= |xs|
    ensures SortedDesc(xs[..m])
  {
    var p := xs[..m];
    forall i, j | 0 <= i < j < |p|
      ensures p[i].score >= p[j].score
    {
      assert p[i] == xs[i] && p[j] == xs[j];
    }
  }

  /** Steps 5 to 7 deliver at most `num_ideas` entries, as many as that
      when enough reach the threshold, every one reaching it, best first. */
  lemma RankBounds(scored: seq<ScoredIdea>, minScore: real, numIdeas: int)
    requires numIdeas >= 0
    ensures var r := Rank(scored, minScore, numIdeas);
      && |r| == Min(numIdeas, |KeepAtLeast(scored, minScore)|)
      && (forall k :: 0 <= k < |r| ==> r[k].score >= minScore)
      && SortedDesc(r)
  {
    var kept := KeepAtLeast(scored, minScore);
    var sorted := SortByScore(kept);
    var r := Take(sorted, numIdeas);
    SortedDescPrefix(sorted, |r|);
    forall k | 0 <= k < |r|
      ensures r[k].score >= minScore
    {
      assert r[k] in multiset(kept);
    }
  }

  /** Every entry delivered is a scored entry that reached the threshold. */
  lemma RankMembers(scored: seq<ScoredIdea>, minScore: real, numIdeas: int, x: ScoredIdea)
    requires x in Rank(scored, minScore, numIdeas)
    ensures x in scored && x.score >= minScore
  {
    var kept := KeepAtLeast(scored, minScore);
    var sorted := SortByScore(kept);
    assert x in sorted;
    assert x in multiset(kept);
    KeepAtLeastMembers(scored, minScore, x);
  }

  /** Truncation drops only entries that score no higher than any entry
      delivered: the result is the best `num_ideas` of what was kept. */
  lemma RankKeepsBest(scored: seq<ScoredIdea>, minScore: real, numIdeas: int, x: ScoredIdea, k: nat)
    requires k < |Rank(scored, minScore, numIdeas)|
    requires x in multiset(KeepAtLeast(scored, minScore)) - multiset(Rank(scored, minScore, numIdeas))
    ensures x.score <= Rank(scored, minScore, numIdeas)[k].score
  {
    var sorted := SortByScore(KeepAtLeast(scored, minScore));
    var r := Rank(scored, minScore, numIdeas);
    assert r == sorted[..|r|];
    DroppedScoreNoHigher(sorted, |r|, x, k);
  }

  /** In a descending sequence, what lies beyond the first `m` entries
      scores no higher than any of them. */
  lemma DroppedScoreNoHigher(sorted: seq<ScoredIdea>, m: nat, x: ScoredIdea, k: nat)
    requires SortedDesc(sorted) && k < m <= |sorted|
    requires x in multiset(sorted) - multiset(sorted[..m])
    ensures x.score <= sorted[k].score
  {
    var dropped := sorted[m..];
    assert sorted == sorted[..m] + dropped;
    assert multiset(sorted) == multiset(sorted[..m]) + multiset(dropped);
    assert x in dropped;
    var j :| 0 <= j < |dropped| && dropped[j] == x;
    assert sorted[m + j] == x;
  }

  /** Raising the threshold never delivers more entries. */
  lemma ThresholdMonotone(scored: seq<ScoredIdea>, low: real, high: real, numIdeas: int)
    requires low <= high && numIdeas >= 0
    ensures |Rank(scored, high, numIdeas)| <= |Rank(scored, low, numIdeas)|
  {
    KeepAtLeastMonotone(scored, low, high);
  }

  /** The entries of one score survive the threshold together, in order. */
  lemma {:induction false} WithScoreKeepAtLeast(xs: seq<ScoredIdea>, minScore: real, v: real)
    ensures WithScore(KeepAtLeast(xs, minScore), v) == if v >= minScore then WithScore(xs, v) else []
    decreases |xs|
  {
    if xs != [] {
      var init := xs[..|xs| - 1];
      var last := xs[|xs| - 1];
      WithScoreKeepAtLeast(init, minScore, v);
      if last.score >= minScore {
        var kept := KeepAtLeast(init, minScore) + [last];
        assert kept[..|kept| - 1] == KeepAtLeast(init, minScore);
      }
    }
  }

  /** The entries of one score in a prefix are a prefix of the entries of
      that score in the whole. */
  lemma {:induction false} WithScorePrefix(xs: seq<ScoredIdea>, m: nat, v: real)
    requires m <= |xs|
    ensures WithScore(xs[..m], v) <= WithScore(xs, v)
    decreases |xs|
  {
    if m < |xs| {
      var init := xs[..|xs| - 1];
      assert init[..m] == xs[..m];
      WithScorePrefix(init, m, v);
    } else {
      assert xs[..m] == xs;
    }
  }

  /** Ties keep their generation order: the delivered entries of any score
      come in the order they were scored, as a prefix of all the entries of
      that score; none are delivered below the threshold. */
  lemma RankStable(scored: seq<ScoredIdea>, minScore: real, numIdeas: int, v: real)
    ensures v >= minScore ==> WithScore(Rank(scored, minScore, numIdeas), v) <= WithScore(scored, v)
    ensures v < minScore ==> WithScore(Rank(scored, minScore, numIdeas), v) == []
  {
    var kept := KeepAtLeast(scored, minScore);
    var sorted := SortByScore(kept);
    var r := Take(sorted, numIdeas);
    WithScorePrefix(sorted, |r|, v);
    SortByScoreStable(kept, v);
    WithScoreKeepAtLeast(scored, minScore, v);
  }

  /** Every entry of a successful result is the scored form of one of the
      candidates, with the plan and score that candidate got, and reaches
      the threshold. */
  lemma ResultFromCandidates(engine: Engine, topic: string, userId: Value, numIdeas: int, x: ScoredIdea)
    requires Pipeline(engine, topic, userId, numIdeas).Success?
    requires x in Pipeline(engine, topic, userId, numIdeas).value
    ensures
      var ctx := BuildContext(userId, engine.profile);
      var pool := Pool(ParseIdeas(engine.generator(0, FirstPrompt(topic, ctx, numIdeas)).text), numIdeas);
      && x.score >= engine.minScore
      && exists k :: 0 <= k < |pool| && x == ScoreOne(engine.evaluator, topic, ctx, k, ExpandOne(engine.planner, topic, k, pool[k]))
  {
    var ctx := BuildContext(userId, engine.profile);
    var pool := Pool(ParseIdeas(engine.generator(0, FirstPrompt(topic, ctx, numIdeas)).text), numIdeas);
    var expanded := ExpandAll(engine.planner, topic, pool);
    var scored := ScoreAll(engine.evaluator, topic, ctx, expanded);
    RankMembers(scored, engine.minScore, numIdeas, x);
    var k :| 0 <= k < |scored| && scored[k] == x;
    assert x == ScoreOne(engine.evaluator, topic, ctx, k, ExpandOne(engine.planner, topic, k, pool[k]));
  }

  /** The profile is written back only for a truthy user id and a non-empty
      result, with the ideas of that result in ranking order, and each of
      them was parsed from the idea model's text. */
  lemma WriteBackOfResult(engine: Engine, topic: string, userId: Value, numIdeas: int)
    ensures
      var r := Pipeline(engine, topic, userId, numIdeas);
      var w := WriteBackOf(userId, topic, r);
      && (w.Some? <==> r.Success? && Truthy(userId) && r.value != [])
      && (w.Some? ==> w.value.userId == userId && w.value.topic == topic && w.value.selected == IdeasOf(r.value))
      && (w.Some? ==> forall k :: 0 <= k < |w.value.selected| ==>
            w.value.selected[k] in ParseIdeas(engine.generator(0, FirstPrompt(topic, BuildContext(userId, engine.profile), numIdeas)).text))
  {
    var r := Pipeline(engine, topic, userId, numIdeas);
    var w := WriteBackOf(userId, topic, r);
    if w.Some? {
      var ideas := ParseIdeas(engine.generator(0, FirstPrompt(topic, BuildContext(userId, engine.profile), numIdeas)).text);
      forall k | 0 <= k < |w.value.selected|
        ensures w.value.selected[k] in ideas
      {
        var x := r.value[k];
        ResultFromCandidates(engine, topic, userId, numIdeas, x);
      }
    }
  }

  /** Step 3 as the source runs it: the expansion loop, one planner call
      per candidate, falling back to the idea itself when the call raises. */
  method ExpandCandidates(planner: Backend, topic: string, pool: seq<string>)
    returns (expanded: seq<ExpandedIdea>, sent: seq<Prompt>)
    ensures expanded == ExpandAll(planner, topic, pool)
    ensures sent == ExpandPrompts(topic, pool)
  {
    expanded := [];
    sent := [];
    for i := 0 to |pool|
      invariant |expanded| == i && |sent| == i
      invariant forall k :: 0 <= k < i ==> expanded[k] == ExpandOne(planner, topic, k, pool[k])
      invariant forall k :: 0 <= k < i ==> sent[k] == ExpandPrompt(topic, pool[k])
    {
      var prompt := ExpandPrompt(topic, pool[i]);
      sent := sent + [prompt];
      var detail: string;
      match planner(i, prompt) {
        case Ok(text) => detail := text;
        case Fail(_) => detail := pool[i];
      }
      expanded := expanded + [ExpandedIdea(pool[i], detail)];
    }
  }

  /** Step 4 as the source runs it: the scoring loop, one evaluator call per
      entry, appending the entries that reach the threshold. */
  method ScoreAndFilter(evaluator: Backend, topic: string, ctx: UserContext, expanded: seq<ExpandedIdea>, minScore: real)
    returns (filtered: seq<ScoredIdea>, sent: seq<Prompt>)
    ensures filtered == KeepAtLeast(ScoreAll(evaluator, topic, ctx, expanded), minScore)
    ensures sent == ScorePrompts(topic, ctx, expanded)
  {
    ghost var scored := ScoreAll(evaluator, topic, ctx, expanded);
    filtered := [];
    sent := [];
    for j := 0 to |expanded|
      invariant filtered == KeepAtLeast(scored[..j], minScore)
      invariant sent == ScorePrompts(topic, ctx, expanded[..j])
    {
      var prompt, entry := ScoreCandidate(evaluator, topic, ctx, j, expanded[j]);
      ScorePromptsStep(topic, ctx, expanded, j);
      sent := sent + [prompt];
      KeepAtLeastStep(scored, j, entry, minScore);
      if entry.score >= minScore {
        filtered := filtered + [entry];
      }
    }
    assert scored[..|expanded|] == scored;
    assert expanded[..|expanded|] == expanded;
  }

  /** The prompts for one more candidate. */
  lemma ScorePromptsStep(topic: string, ctx: UserContext, items: seq<ExpandedIdea>, j: nat)
    requires j < |items|
    ensures ScorePrompts(topic, ctx, items[..j + 1]) == ScorePrompts(topic, ctx, items[..j]) + [ScoringPrompt(topic, ctx, items[j])]
  {
    assert items[..j + 1][j] == items[j];
  }

  /** The filter over one more entry of `scored`. */
  lemma KeepAtLeastStep(scored: seq<ScoredIdea>, j: nat, entry: ScoredIdea, minScore: real)
    requires j < |scored| && scored[j] == entry
    ensures KeepAtLeast(scored[..j + 1], minScore)
         == if entry.score >= minScore then KeepAtLeast(scored[..j], minScore) + [entry]
            else KeepAtLeast(scored[..j], minScore)
  {
    assert scored[..j + 1] == scored[..j] + [entry];
    KeepAtLeastSnoc(scored[..j], entry, minScore);
  }

  /** One pass of the scoring loop: the prompt sent for the `k`-th candidate
      and the entry built from the answer, with score 0 and no evaluation
      when the call fails. */
  method ScoreCandidate(evaluator: Backend, topic: string, ctx: UserContext, k: nat, item: ExpandedIdea)
    returns (prompt: Prompt, entry: ScoredIdea)
    ensures prompt == ScoringPrompt(topic, ctx, item)
    ensures entry == ScoreOne(evaluator, topic, ctx, k, item)
  {
    prompt := ScoringPrompt(topic, ctx, item);
    var response := "";
    var score: real;
    match evaluator(k, prompt) {
      case Ok(text) =>
        response := text;
        score := ExtractScore(text);
      case Fail(_) =>
        score := 0.0;
    }
    entry := ScoredIdea(item.idea, item.detail, score, response);
  }

  /** `brainstorm(topic, user_id, num_ideas)` as the source runs it. Returns
      the result or the error, the write-back it requests and the prompts it
      sends. */
  method Run(engine: Engine, topic: string, userId: Value, numIdeas: int)
    returns (result: Result<seq<ScoredIdea>, EngineError>, writeBack: Option<WriteBack>, sent: seq<Prompt>)
    ensures result == Pipeline(engine, topic, userId, numIdeas)
    ensures writeBack == WriteBackOf(userId, topic, result)
    ensures sent == PromptsSent(engine, topic, userId, numIdeas)
  {
    var ctx := BuildContext(userId, engine.profile);
    var first := FirstPrompt(topic, ctx, numIdeas);
    sent := [first];
    writeBack := None;
    var reply := engine.generator(0, first);
    if reply.Fail? {
      result := Failure(GenerationFailed(reply.reason));
      return;
    }
    var ideas := ParseIdeasFromOutput(reply.text);
    if ideas == [] {
      result := Failure(NoIdeasParsed);
      return;
    }
    var pool := Pool(ideas, numIdeas);
    var expanded, expandSent := ExpandCandidates(engine.planner, topic, pool);
    var filtered, scoreSent := ScoreAndFilter(engine.evaluator, topic, ctx, expanded, engine.minScore);
    sent := sent + expandSent + scoreSent;
    var selected := Take(SortByScore(filtered), numIdeas);
    result := Success(selected);
    if Truthy(userId) && selected != [] {
      writeBack := Some(WriteBack(userId, topic, IdeasOf(selected)));
    }
  }
}
