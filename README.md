# Super-BrainStorm core, modelled in Dafny

Super-BrainStorm turns a topic into a ranked list of ideas. It uses three
language models in turn:

1. The first model proposes a numbered list of ideas.
2. The second expands each candidate into a plan.
3. The third scores each plan.

The engine then keeps the plans that reach `MIN_SCORE_THRESHOLD`. It sorts
them by score, most first, and returns the best `num_ideas`. It also records
the selected ideas in the user's profile. A request handler checks the
incoming request, runs the engine and formats its answer.

This project models that core and proves its properties:

- `brainstorm_engine.py`:
  - `BrainstormEngine.brainstorm`, including the user context, the fatal
    stage-one errors, and the expansion and scoring loops with their
    fallbacks, threshold, stable descending sort, truncation and write-back;
  - the numbered-list parser `_parse_ideas_from_output`;
  - the score cascade `_extract_score_from_response`.
- `model_adapters.py`:
  - the retry loop `_retry_request`, with exponential backoff;
  - the missing-API-key checks of the three adapter constructors.
- `main_handler.py`:
  - the engine initialisation;
  - `handle_brainstorm_request`, with its parameter checks, result
    formatting and error mapping;
  - `validate_request_format`.

The three models and the user-profile store are oracles:

- A model is a function from the index of the call and the prompt to `Ok(text)`
  or `Fail(reason)`.
- The profile store is a function from the user id to the stored interests and
  recent topics.
- Prompts are kept as the values they are built from, such as the topic, the
  context lines and the requested count. Their wording is not modelled.

Files, one module each:

| file | module | contents |
|---|---|---|
| `basics.dfy` | `Basics` | `Option`, `Result`, Python's `xs[:n]` (`Take`, negative `n` included) and `xs[-n:]` (`Last`), `2 ** k` |
| `text.dfy` | `Text` | the `str.isspace` set, the `re.IGNORECASE` letter match, `strip`, `split('\n')`, `join` |
| `numerals.dfy` | `Numerals` | digit runs and the exact value of `\d+(?:\.\d+)?` |
| `idea_parser.dfy` | `IdeaParser` | `_parse_ideas_from_output` as a specification and as the loop the source runs |
| `score_parser.dfy` | `ScoreParser` | the six patterns, leftmost `re.search`, the cascade and its fallback rescaling |
| `ranking.dfy` | `Ranking` | the idea records, the threshold filter, and the stable descending sort (`sorted(..., reverse=True)`) |
| `values.dfy` | `PyValues` | the decoded JSON values, truthiness, `type(v).__name__`, `dict.get`, `isinstance(v, int)` |
| `adapters.dfy` | `ModelAdapters` | the key check of the constructors and `_retry_request` |
| `engine.dfy` | `Brainstorm` | `brainstorm` as a specification (`Pipeline`, `PromptsSent`, `WriteBackOf`) and as the loops the source runs (`Run`) |
| `handler.dfy` | `MainHandler` | engine initialisation, request checks, formatting, `handle_brainstorm_request`, `validate_request_format` |

Three places where the code does less than its own text suggests; the model
follows the code:

- The docstring of `_extract_score_from_response`
  (brainstorm_engine.py:186-191) lists `8.7 points` among its formats, and the
  evaluator prompt asks for a score out of 10 (brainstorm_engine.py:130). Yet
  only the last-resort bare-number pattern rescales and caps its value. The
  labelled patterns return their number as written, so `87 points` and
  `Score: 87` both score 87. `ScoreParser.PointsNotRescaled` and
  `ScoreParser.ScoreLabelRoundTrip` prove this, and
  `ScoreParser.FallbackBounded` proves the [0, 10] bound for the fallback
  alone.
- `request_json.get("topic", "").strip()` (main_handler.py:32) only defaults
  a missing topic. A `topic` that is present but is not a string makes
  `.strip()` raise before the emptiness check runs, and the handler lets that
  exception escape. The model returns it as `Raised`.
- `isinstance(num_ideas, int)` (main_handler.py:40) also holds for a bool, so
  `True` passes the check and acts as 1.

## Model

| member | source | states |
|---|---|---|
| `Basics.Take` | brainstorm_engine.py:72 | `ideas[:n]`: a prefix of the list, `min(n, len)` long for `n >= 0` and dropping `-n` elements for negative `n` |
| `Basics.Last` | brainstorm_engine.py:39 | `recent_topics[-3:]`: the last `min(3, len)` elements |
| `Text.LStrip` | brainstorm_engine.py:175 | `str.lstrip()`: what it removes from the front is all white space, and what it leaves is empty or starts with a non-space |
| `Text.RStrip` | brainstorm_engine.py:175 | `str.rstrip()`: what it removes from the end is all white space, and what it leaves is empty or ends with a non-space |
| `Text.Strip` | brainstorm_engine.py:175 | `str.strip()` leaves a string that neither starts nor ends with white space, and is no longer than the input |
| `Text.LStripIsSuffix` | brainstorm_engine.py:175 | what the left strip leaves is a suffix of the input |
| `Text.RStripIsPrefix` | brainstorm_engine.py:175 | what the right strip leaves is a prefix of the input |
| `Text.StripAt` | brainstorm_engine.py:175 | the stripped string is an infix of the input that starts after its leading white space |
| `Text.StripChars` | brainstorm_engine.py:175 | every character of the stripped string occurs in the input |
| `Text.StripEmptyIffBlank` | main_handler.py:32-38 | a string strips to empty exactly when it is all white space |
| `Text.Join` | brainstorm_engine.py:37-39 | `sep.join(parts)`: no parts join to the empty string and one part to itself; `Text.JoinSplit` proves it undoes `Split` |
| `Text.Split` | brainstorm_engine.py:172 | `str.split(sep)` with an explicit separator always gives at least one piece; `Text.JoinSplit` and `Text.SplitNoSeparator` tie it to `Join` |
| `Text.JoinSplit` | brainstorm_engine.py:172 | joining the pieces of `split('\n')` with line breaks gives the text back |
| `Text.SplitNoSeparator` | brainstorm_engine.py:172 | no piece of `split('\n')` holds a line break |
| `Text.SplitChars` | brainstorm_engine.py:172 | every character of every piece of the split is a character of the text |
| `Numerals.DigitRunEnd` | brainstorm_engine.py:177 | greedy `\d+`: the longest run of digits from a position |
| `Numerals.DigitRunEndOfPrefix` | brainstorm_engine.py:193 | digits followed by a non-digit end the greedy run exactly there |
| `Numerals.NumeralValue` | brainstorm_engine.py:193-217 | `float()` of `\d+(\.\d+)?`: without a fraction it is the whole number's value, and with one it lies in `[whole, whole + 1)` |
| `Numerals.NatValueBelowPow10` | brainstorm_engine.py:193-217 | a run of `n` digits is worth less than `10 ** n`, so a fraction part never reaches 1 |
| `Numerals.NumeralValueExamples` | brainstorm_engine.py:186-195 | `float` of `8.7`, `8.05` and `87` as captured: 8.7, 8.05 and 87 |
| `IdeaParser.Capture` | brainstorm_engine.py:177 | the `(.+)` group after `\s*` is non-empty and no longer than the rest of the line |
| `IdeaParser.MatchNumbered` | brainstorm_engine.py:177 | `^\d+[.、)]\s*(.+)` captures a non-empty group shorter than the line |
| `IdeaParser.LineIdea` | brainstorm_engine.py:175-181 | a line yields an idea only if it is longer than five characters and has no white space at either end |
| `IdeaParser.CaptureStrip` | brainstorm_engine.py:177-179 | stripping the group equals stripping everything after the delimiter |
| `IdeaParser.LineIdeaNeedsDigit` | brainstorm_engine.py:177 | a line whose stripped text does not start with a digit yields nothing |
| `IdeaParser.LineIdeaIsNumbered` | brainstorm_engine.py:175-181 | an idea a line yields is its numbered reading at the end of the leading digits |
| `IdeaParser.NumberedAtRunEnd` | brainstorm_engine.py:177 | a numbered reading can split the line only where the leading digits end |
| `IdeaParser.NumberedIsLineIdea` | brainstorm_engine.py:175-181 | a numbered reading of the stripped line is the idea the line yields |
| `IdeaParser.LineIdeaMeaning` | brainstorm_engine.py:175-181 | a line yields `idea` exactly when, after stripping, it is digits, one of `.`, `、`, `)`, and text that strips to `idea`, which is longer than five characters |
| `IdeaParser.LineIdeas` | brainstorm_engine.py:174-181 | one optional idea per line |
| `IdeaParser.ParseIdeas` | brainstorm_engine.py:169-183 | `_parse_ideas_from_output`: at most one idea per line of `output.strip().split('\n')`; `ParsedIdeasAreLong`, `PresentFrom` and `NoDigitsNoIdeas` give the rest of its meaning |
| `IdeaParser.ParseIdeasFromOutput` | brainstorm_engine.py:169-183 | the loop over the lines returns exactly the ideas of the lines, in line order |
| `IdeaParser.IdeaOfLine` | brainstorm_engine.py:174-181 | one pass of the parser's loop yields exactly the idea `LineIdea` assigns to the line |
| `IdeaParser.PresentFrom` | brainstorm_engine.py:180-181 | every collected idea comes from some line |
| `IdeaParser.ParsedIdeasAreLong` | brainstorm_engine.py:169-183 | every parsed idea is longer than five characters, has no white space at either end, and is the idea of one of the lines of `output.strip().split('\n')` |
| `IdeaParser.PresentAppend` | brainstorm_engine.py:174-181 | the ideas of earlier lines come before those of later lines |
| `IdeaParser.PresentKeeps` | brainstorm_engine.py:178-181 | every line that yields an idea contributes it |
| `IdeaParser.PresentNone` | brainstorm_engine.py:178-183 | when no line yields an idea, the result is empty and nothing is raised |
| `IdeaParser.NoDigitsNoIdeas` | brainstorm_engine.py:169-183 | output without a digit yields no ideas |
| `IdeaParser.SplitJoin` | brainstorm_engine.py:172 | splitting lines joined by line breaks gives the lines back |
| `IdeaParser.NumberedLine` | brainstorm_engine.py:175-181 | `<digit>. <text>` yields the text when it is longer than five characters and has no white space at either end (otherwise the source yields the stripped text) |
| `IdeaParser.ShortLine` | brainstorm_engine.py:180 | `2. ok` is too short to yield an idea |
| `IdeaParser.ExampleLines` | brainstorm_engine.py:172 | three lines without line breaks, the first starting and the last ending with a non-space, come back as those lines from `output.strip().split('\n')` of their join |
| `IdeaParser.ParseThreeLines` | brainstorm_engine.py:169-183 | three lines give the ideas of the first and third, in order, when the middle one is too short |
| `IdeaParser.PresentOfThree` | brainstorm_engine.py:174-181 | collecting over three lines is collecting over each in turn |
| `ScoreParser.SpaceRunEnd` | brainstorm_engine.py:199 | `\s*`: the longest run of white space from a position |
| `ScoreParser.GapRunEnd` | brainstorm_engine.py:193 | `[:\s]+`: the longest run of colons and white space |
| `ScoreParser.NumberThen` | brainstorm_engine.py:193-212 | `(\d+(?:\.\d+)?)` followed by the pattern's tail: a non-negative value that starts with a digit |
| `ScoreParser.MatchAt` | brainstorm_engine.py:193-212 | each of the six patterns captures a non-negative number where it matches, and no match starts at the end of the text |
| `ScoreParser.Matches` | brainstorm_engine.py:193-212 | what a pattern captures at each position of the text, the end included |
| `ScoreParser.FirstSome` | brainstorm_engine.py:193-212 | the scan of `re.search` stops at the first position where a match starts, and finds nothing only when no match starts anywhere |
| `ScoreParser.Search` | brainstorm_engine.py:193-214 | `float(m.group(1))` of a search is never negative |
| `ScoreParser.Rescale` | brainstorm_engine.py:214-217 | a value up to 10 is kept, one in (10, 100] is divided by 10, and anything larger becomes 10, so the result lies in [0, 10] |
| `ScoreParser.ExtractScore` | brainstorm_engine.py:185-219 | the score is never negative |
| `ScoreParser.FirstLabelledWins` | brainstorm_engine.py:193-209 | the first labelled pattern that matches decides, and its number is returned neither rescaled nor capped |
| `ScoreParser.FallbackBounded` | brainstorm_engine.py:211-219 | without a labelled match, the score is the first bare number rescaled, so it lies in [0, 10], and it is 0 without a number |
| `ScoreParser.SearchIsLeftmost` | brainstorm_engine.py:193 | the search returns the number of the leftmost match |
| `ScoreParser.SearchNoneIffNoMatch` | brainstorm_engine.py:193-213 | a search finds nothing exactly when no match starts anywhere |
| `ScoreParser.MatchNeedsDigit` | brainstorm_engine.py:193-212 | every match needs a digit |
| `ScoreParser.NoDigitsScoreZero` | brainstorm_engine.py:211-219 | text without a digit scores 0, and nothing is raised |
| `ScoreParser.WholeValue` | brainstorm_engine.py:195 | `float` of a whole numeral is its digits' value |
| `ScoreParser.WholeNumberAt` | brainstorm_engine.py:193-212 | a whole number followed by a non-digit that is not `.` is captured with its value |
| `ScoreParser.DecimalNumberAt` | brainstorm_engine.py:193-212 | `<digits>.<digits>` followed by a non-digit is captured with its exact decimal value |
| `ScoreParser.FractionNumberAt` | brainstorm_engine.py:193 | the fraction is taken when it is there and the tail follows it |
| `ScoreParser.FractionRunEnds` | brainstorm_engine.py:193 | where the two digit runs of a decimal numeral end |
| `ScoreParser.FractionSlices` | brainstorm_engine.py:193 | the two digit runs of a decimal numeral are its whole and fraction parts |
| `ScoreParser.ScoreLabelRoundTrip` | brainstorm_engine.py:193-195 | `Score: <n>` scores exactly `n`, however large `n` is |
| `ScoreParser.ScoreLabelDecimalRoundTrip` | brainstorm_engine.py:193-195 | `Score: <d>.<f>` (for example `Score: 8.7`) scores exactly that decimal |
| `ScoreParser.ScoreExample` | brainstorm_engine.py:132-133 | the format the evaluator prompt asks for, `Score: 8.7`, scores 8.7 |
| `ScoreParser.NoLabelAt` | brainstorm_engine.py:193 | no `Score` label starts without an `s` |
| `ScoreParser.NoNumberAt` | brainstorm_engine.py:193-212 | no number starts without a digit |
| `ScoreParser.PointsHasNoLabel` | brainstorm_engine.py:193 | `<n> points` holds no `Score` label |
| `ScoreParser.NoOutOfTenBeforeSpace` | brainstorm_engine.py:196 | a number followed by a space is not followed by `/10` |
| `ScoreParser.PointsHasNoOutOfTen` | brainstorm_engine.py:196 | `<n> points` holds no `/10` |
| `ScoreParser.PointsTail` | brainstorm_engine.py:199 | ` points` satisfies `\s*points?` |
| `ScoreParser.PointsMatchAtStart` | brainstorm_engine.py:199 | `<n> points` matches the points pattern at its start |
| `ScoreParser.SearchAtStart` | brainstorm_engine.py:193-212 | a match at position 0 is the one the search returns |
| `ScoreParser.PointsDecide` | brainstorm_engine.py:193-201 | with no `Score` label and no `/10`, a points match decides |
| `ScoreParser.PointsNotRescaled` | brainstorm_engine.py:199-201 | `<n> points` scores `n`, so `87 points` scores 87, with no rescaling and no cap |
| `ScoreParser.DigitsHaveNoLabel` | brainstorm_engine.py:193-209 | in text made only of digits, no labelled pattern matches |
| `ScoreParser.BareNumberRescaled` | brainstorm_engine.py:211-217 | a bare whole number goes through the fallback rescaling, so `87` scores 8.7 |
| `Ranking.KeepAtLeast` | brainstorm_engine.py:144-151 | the filter keeps no more entries than it is given, and each has a score at least the threshold |
| `Ranking.KeepAtLeastMembers` | brainstorm_engine.py:144-151 | an entry survives exactly when it was there and reaches the threshold |
| `Ranking.KeepAtLeastSnoc` | brainstorm_engine.py:144-151 | filtering one more entry appends it exactly when its score reaches the threshold |
| `Ranking.KeepAtLeastMonotone` | brainstorm_engine.py:145 | raising the threshold keeps no more entries |
| `Ranking.Insert` | brainstorm_engine.py:154 | an insertion step adds one entry at the front or behind the first |
| `Ranking.InsertSorted` | brainstorm_engine.py:154 | inserting keeps the list descending |
| `Ranking.InsertPermutes` | brainstorm_engine.py:154 | inserting adds the entry and loses nothing |
| `Ranking.InsertWithScore` | brainstorm_engine.py:154 | an inserted entry goes after the entries it ties with |
| `Ranking.SortByScore` | brainstorm_engine.py:154 | `sorted(..., reverse=True)` by score gives a descending permutation of its input |
| `Ranking.SortByScoreStable` | brainstorm_engine.py:154 | the sort is stable: entries of equal score keep their order |
| `Ranking.WithScoreAppendFront` | brainstorm_engine.py:154 | selecting one score distributes over putting an entry in front |
| `Ranking.WithScoreNone` | brainstorm_engine.py:154 | when every score is below `v`, no entry has score `v` |
| `Brainstorm.BuildContext` | brainstorm_engine.py:25-39 | without a truthy user id both lines are the placeholders, and otherwise they list the first five interests and the last three recent topics, falling back to the placeholder for an empty list |
| `Brainstorm.ContextReadsFirstFiveLastThree` | brainstorm_engine.py:36-39 | histories that agree on the first five interests and the last three topics give the same context |
| `Brainstorm.ErrorMessage` | brainstorm_engine.py:63-68 | the `RuntimeError` text: a generation failure ends with the model's own message, and the parse failure has a fixed non-empty message |
| `Brainstorm.FirstPrompt` | brainstorm_engine.py:42-61 | the stage-one prompt carries the topic and the two context lines and asks for `num_ideas * 2` ideas |
| `Brainstorm.ExpandOne` | brainstorm_engine.py:87-100 | an expansion keeps the idea; its detail is the planner's text, or the idea itself when the planner raises |
| `Brainstorm.ExpandAll` | brainstorm_engine.py:71-100 | one expanded entry per candidate, in candidate order, with the idea as the detail when the planner raises |
| `Brainstorm.ScoreOne` | brainstorm_engine.py:136-142 | a score is read from the evaluator's answer and kept with it, and it is 0 with an empty answer when the evaluator raises |
| `Brainstorm.ScoreAll` | brainstorm_engine.py:103-142 | one scored entry per expanded entry |
| `Brainstorm.IdeasOf` | brainstorm_engine.py:161 | the selected ideas, one per result entry, in order |
| `Brainstorm.ExpandPrompts` | brainstorm_engine.py:72-92 | one planner prompt per candidate |
| `Brainstorm.ScorePrompts` | brainstorm_engine.py:104-138 | one evaluator prompt per expanded entry |
| `Brainstorm.Pool` | brainstorm_engine.py:72 | `ideas[:num_ideas * 2]`: the first `min(len, 2 * num_ideas)` ideas, or, for a negative `num_ideas`, all but the last `-2 * num_ideas` |
| `Brainstorm.Rank` | brainstorm_engine.py:144-157 | steps 5 to 7 deliver only kept entries (a sub-multiset of what passed the threshold), each reaching the threshold, at most `num_ideas` of them |
| `Brainstorm.Pipeline` | brainstorm_engine.py:16-167 | `brainstorm` raises only when the generator fails or no idea parses; otherwise every returned entry reaches the threshold and there are at most `num_ideas` of them |
| `Brainstorm.WriteBackOf` | brainstorm_engine.py:159-165 | the profile update is requested exactly for a successful, non-empty result and a truthy user id, with that user, the topic and one idea per result |
| `Brainstorm.PromptsSent` | brainstorm_engine.py:42-140 | the first prompt sent is always the stage-one prompt |
| `Brainstorm.FatalErrorsStopEarly` | brainstorm_engine.py:60-68 | `brainstorm` raises exactly when the idea model raises or nothing is parsed; the error carries the model's exception; only the stage-one prompt has been sent by then |
| `Brainstorm.PromptsPerCandidate` | brainstorm_engine.py:49-140 | the pool is `ideas[:2 * num_ideas]`; after the stage-one prompt, prompt `1 + k` is the planner prompt of candidate `k` and prompt `1 + len(pool) + k` is the evaluator prompt of expanded candidate `k`, `1 + 2 * len(pool)` prompts in all |
| `Brainstorm.FailedScoreKeptIffThresholdNonPositive` | brainstorm_engine.py:136-151 | an entry whose scoring raised is kept exactly when the threshold is not positive |
| `Brainstorm.SortedDescPrefix` | brainstorm_engine.py:157 | a prefix of a descending list is descending |
| `Brainstorm.RankBounds` | brainstorm_engine.py:144-157 | the result holds `min(num_ideas, kept)` entries, each reaching the threshold, best first |
| `Brainstorm.RankMembers` | brainstorm_engine.py:144-157 | every delivered entry is a scored entry that reached the threshold |
| `Brainstorm.RankKeepsBest` | brainstorm_engine.py:154-157 | truncation drops only entries that score no higher than any delivered one |
| `Brainstorm.DroppedScoreNoHigher` | brainstorm_engine.py:154-157 | past the first `m` entries of a descending list, nothing scores higher than any of those `m` |
| `Brainstorm.ThresholdMonotone` | brainstorm_engine.py:145-157 | raising the threshold never delivers more entries |
| `Brainstorm.WithScoreKeepAtLeast` | brainstorm_engine.py:144-151 | entries of one score survive the threshold together and in order |
| `Brainstorm.WithScorePrefix` | brainstorm_engine.py:157 | truncation keeps a prefix of the entries of each score |
| `Brainstorm.RankStable` | brainstorm_engine.py:144-157 | delivered entries of equal score keep their generation order, and none score below the threshold |
| `Brainstorm.ResultFromCandidates` | brainstorm_engine.py:70-157 | every delivered entry is the scored form of a candidate and reaches the threshold |
| `Brainstorm.WriteBackOfResult` | brainstorm_engine.py:159-165 | the profile is updated only for a truthy user id and a non-empty result, with the result's ideas in order, each parsed from the idea model's text |
| `Brainstorm.ExpandCandidates` | brainstorm_engine.py:71-100 | the expansion loop builds exactly the expanded entries and sends exactly the planner prompts |
| `Brainstorm.ScoreAndFilter` | brainstorm_engine.py:103-151 | the scoring loop builds exactly the filtered scored entries and sends exactly the evaluator prompts |
| `Brainstorm.ScoreCandidate` | brainstorm_engine.py:104-142 | one pass of the scoring loop sends the evaluator prompt for that candidate and builds its entry: the extracted score and the reply, or 0 and no evaluation when the call fails |
| `Brainstorm.Run` | brainstorm_engine.py:16-167 | `brainstorm` returns or raises what the pipeline specification says, requests the specified write-back, and sends the specified prompts |
| `ModelAdapters.ResolveKey` | model_adapters.py:33 | `api_key or Config.<PROVIDER>_API_KEY`: the result is truthy exactly when one of the two is, and a truthy argument wins |
| `ModelAdapters.NewAdapter` | model_adapters.py:30-35 | a constructor succeeds exactly when the key passed in or the configured key is non-empty, keeps that key and the configured retry count and timeout, and otherwise raises the provider's `ValueError` (lines 68-73 and 93-98 for the other two providers) |
| `ModelAdapters.Backoff` | model_adapters.py:27 | the sleep after failed attempt `a` is `2 ** a` |
| `ModelAdapters.BackoffTotal` | model_adapters.py:21-27 | the sleeps before attempt `n + 1` add up to `2 ** n - 1` |
| `ModelAdapters.RetryRequest` | model_adapters.py:19-27 | at most `max_retries` calls, of which all but the last raised; the first value is returned at once; after `max_retries` failures the last error is re-raised; with `max_retries <= 0` nothing is called and `None` is returned; the sleeps are `1, 2, 4, ...`, with none after the last attempt |
| `PyValues.Get` | main_handler.py:32-34 | `dict.get` returns the entry when the key is present and the default otherwise |
| `PyValues.AsInt` | main_handler.py:40 | `isinstance(v, int)` holds for `int` and `bool` values and gives the integer |
| `PyValues.TypeName` | main_handler.py:32 | `type(v).__name__` is `dict`, `str` or `NoneType` exactly for a dictionary, a string or `None` |
| `MainHandler.NoAttribute` | main_handler.py:32 | the `AttributeError` message names the value's type and the missing attribute |
| `MainHandler.InitEngine` | main_handler.py:10-16 | the engine exists exactly when all three configured keys are non-empty |
| `MainHandler.Validate` | main_handler.py:31-41 | a request that passes has a non-empty topic and `num_ideas` in 1..20, and a rejected one gets an error response or an escaping exception |
| `MainHandler.BlankTopicRejected` | main_handler.py:32-38 | an absent or blank topic is rejected with the missing-topic error |
| `MainHandler.NonStringTopicRaises` | main_handler.py:32 | a topic that is not a string makes `.strip()` raise `AttributeError` |
| `MainHandler.NumIdeasChecked` | main_handler.py:32-41 | with a usable topic, the request passes exactly when `num_ideas` is absent (then 5) or an int in 1..20, and the engine gets the stripped topic and the user id |
| `MainHandler.BoolNumIdeas` | main_handler.py:40 | `True` passes as 1 and `False` fails |
| `MainHandler.FormatAll` | main_handler.py:50-61 | entry `k` gets rank `k + 1`, the `k`-th result's idea, detail, score (as `model_score`) and evaluation, and 0 for `user_score` and `total_score` |
| `MainHandler.FormatResults` | main_handler.py:50-61 | the `enumerate(results, 1)` loop builds exactly the formatted list |
| `MainHandler.EngineCall` | main_handler.py:28-48 | the engine is called exactly when it exists and the request passes the checks, always with a non-empty topic and `num_ideas` in 1..20 |
| `MainHandler.Handle` | main_handler.py:19-78 | `handle_brainstorm_request`: the initialisation error without an engine, the check's own response for a rejected request, `total_count` equal to the number of ideas, and never the bare acceptance |
| `MainHandler.HandleBrainstormRequest` | main_handler.py:19-78 | the handler returns the specified response, and the engine is called, with the specified prompts and write-back, only when an engine exists and the request passed |
| `MainHandler.NoEngineNoCall` | main_handler.py:28-29 | without an engine, every request gets the initialisation error and nothing reaches a model |
| `MainHandler.RejectedNeverCallsEngine` | main_handler.py:36-41 | a rejected request never reaches the engine and gets the rejection |
| `MainHandler.SuccessfulResponse` | main_handler.py:50-73 | a successful response has ranks 1, 2, ... in the engine's order, each entry with its result's idea, detail, score and evaluation, scores that never increase and all reach the threshold, at most `num_ideas` entries, zero user and total scores, and `total_count` equal to the number of entries |
| `MainHandler.EngineErrorReported` | main_handler.py:75-78 | an engine error becomes `"Brainstorming execution failed: "` followed by its message |
| `MainHandler.ValidateRequestFormat` | main_handler.py:81-88 | only a dictionary is accepted; anything else gets the not-an-object error |
| `MainHandler.AcceptedRequestRaisesOnlyOnTopic` | main_handler.py:32 | for a request the format check accepts, the handler raises only on a topic that is present but not a string |

## Left out

- Prompt wording, temperatures and system prompts are left out (brainstorm_engine.py:42-58, 73-92 and 108-138). A prompt is kept as the values it is built from.
- The bodies of `generate_text` are left out: HTTP through `requests`, and the OpenAI and Gemini SDKs. Each model is an oracle giving `Ok(text)` or `Fail(reason)` for its `k`-th call.
- The retry loop is modelled on its own. The engine's oracles stand for whole `generate_text` calls.
- With `max_retries <= 0`, `generate_text` returns `None` and later stages misbehave. That case is not modelled inside the pipeline, because the oracles return text or raise.
- `time.sleep` is left out. The requested delays are returned as a list.
- `user_profile.py` is not part of this model. Its SQL, its connection handling, and the 10- and 50-entry windows kept by its update are all left out. The profile store is an oracle returning lists of strings. `update_user_interaction` is recorded as the requested write-back, and its failure is swallowed, so it cannot change the result.
- A stored history with non-string interests, which would make `', '.join` raise, is not modelled.
- Floating point is left out. Scores are exact reals read from the decimal text, and the division by 10 is exact.
- `\d` is modelled as the ASCII digits only. Python also accepts other Unicode decimal digits.
- Case-insensitive matching covers the ASCII cases plus the three extra characters Python folds to `s` and `i`.
- The `.get` defaults of the formatting loop for `idea`, `detail`, `model_score` and `evaluation_detail` are left out. The engine always sets those keys. `user_score` and `total_score` are never set, so they are 0.
- The module-level `engine` global is a parameter of the handler. It is set once by `InitEngine`.
- The adapter constructors are modelled as a function that returns the adapter's fields or the `ValueError` message. They are not modelled as objects.
- `UserProfile()` is assumed not to raise during engine initialisation, because its connection errors are caught.
- The `Config` constants are parameters: `MAX_RETRIES`, `TIMEOUT`, the API keys and `MIN_SCORE_THRESHOLD`.
- Logging, `print`, and the command-line loop are left out (main_handler.py:6-16 and 91-136).
- The scoring loop's `except` also covers an exception from `_extract_score_from_response`. It cannot raise on text, so that case is not modelled.
