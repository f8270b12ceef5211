/** `main_handler`: the process-wide engine, the checks a brainstorming
    request goes through before the engine sees it, the mapping of the
    engine's answer to the response dictionary, and the request-format
    check. */
module MainHandler {
  import opened Basics
  import opened Text
  import opened PyValues
  import opened IdeaParser
  import ModelAdapters
  import opened Ranking
  import opened Brainstorm

  /** What the engine is wired to: the three models' `generate_text`, the
      profile store and `MIN_SCORE_THRESHOLD`. */
  datatype Services = Services(
    generator: Backend,
    planner: Backend,
    evaluator: Backend,
    profile: Value -> UserHistory,
    minScore: real)

  /** The module-level `engine = BrainstormEngine()`: the three adapters are
      built with their configured keys, and the engine is `None` when any of
      their constructors raises. */
  function InitEngine(config: ModelAdapters.Config, services: Services): (e: Option<Engine>)
    ensures e.Some? <==>
      ModelAdapters.IsSet(config.doubaoKey) && ModelAdapters.IsSet(config.openaiKey) && ModelAdapters.IsSet(config.geminiKey)
    ensures e.Some? ==>
      e.value == Engine(services.generator, services.planner, services.evaluator, services.profile, services.minScore)
  {
    if ModelAdapters.NewAdapter(ModelAdapters.Doubao, None, config).Success?
       && ModelAdapters.NewAdapter(ModelAdapters.OpenAI, None, config).Success?
       && ModelAdapters.NewAdapter(ModelAdapters.Gemini, None, config).Success?
    then Some(Engine(services.generator, services.planner, services.evaluator, services.profile, services.minScore))
    else None
  }

  /** One entry of the `"ideas"` list of a successful response. */
  datatype FormattedIdea = FormattedIdea(
    rank: int,
    idea: string,
    detail: string,
    modelScore: real,
    userScore: int,
    totalScore: int,
    evaluationDetail: string)

  /** The `"metadata"` of a successful response. */
  datatype Metadata = Metadata(topic: string, userId: Value, totalCount: int)

  /** What the handler gives back: `{"success": True, "ideas", "metadata"}`,
      `{"error", "success": False}`, the bare `{"success": True}` of the
      format check, or an exception the handler lets escape. */
  datatype Response =
    | Ideas(ideas: seq<FormattedIdea>, metadata: Metadata)
    | Error(message: string)
    | Accepted
    | Raised(exception: string)

  const InitFailed: string := "System initialization failed. Please contact the administrator."
  const MissingTopic: string := "Missing required parameter 'topic' or topic is empty."
  const BadNumIdeas: string := "Parameter 'num_ideas' must be an integer between 1 and 20."
  const ExecutionFailed: string := "Brainstorming execution failed: "
  const NotAnObject: string := "Request data must be a JSON object."

  /** The message of the `AttributeError` raised by calling `attribute` on `v`. */
  function NoAttribute(v: Value, attribute: string): (m: string)
    ensures |m| > |TypeName(v)| + |attribute| + 2
    ensures m[1..1 + |TypeName(v)|] == TypeName(v)
    ensures m[|m| - |attribute| - 1..|m| - 1] == attribute
  {
    "'" + TypeName(v) + "' object has no attribute '" + attribute + "'"
  }

  /** The arguments the engine is called with once the request passed. */
  datatype Validated = Validated(topic: string, userId: Value, numIdeas: int)

  /** Whether `num_ideas` passes `isinstance(num_ideas, int)` and lies in
      1..20. */
  predicate NumIdeasValid(v: Value) {
    AsInt(v).Some? && 1 <= AsInt(v).value <= 20
  }

  /** The parameter extraction and the input checks, in the source's order:
      `.get` on the request, `.strip()` on the topic (absent: `""`), then
      the empty-topic check and the `num_ideas` check (absent: `5`). */
  function Validate(request: Value): (r: Result<Validated, Response>)
    ensures r.Success? ==> r.value.topic != [] && 1 <= r.value.numIdeas <= 20
    ensures r.Failure? ==> r.error.Error? || r.error.Raised?
  {
    if !request.Dict? then Failure(Raised(NoAttribute(request, "get")))
    else
      var topic := Get(request.entries, "topic", Str(""));
      if !topic.Str? then Failure(Raised(NoAttribute(topic, "strip")))
      else
        var stripped := Strip(topic.s);
        var userId := Get(request.entries, "user_id", Null);
        var numIdeas := Get(request.entries, "num_ideas", Int(5));
        if stripped == [] then Failure(Error(MissingTopic))
        else if !NumIdeasValid(numIdeas) then Failure(Error(BadNumIdeas))
        else Success(Validated(stripped, userId, AsInt(numIdeas).value))
  }

  /** A topic that is absent or strips to nothing is rejected, whatever
      `num_ideas` holds. */
  lemma BlankTopicRejected(entries: map<string, Value>)
    requires "topic" !in entries || (entries["topic"].Str? && forall k :: 0 <= k < |entries["topic"].s| ==> IsSpace(entries["topic"].s[k]))
    ensures Validate(Dict(entries)) == Failure(Error(MissingTopic))
  {
    if "topic" in entries {
      StripEmptyIffBlank(entries["topic"].s);
    }
  }

  /** A topic that is there but not a string makes `.strip()` raise. */
  lemma NonStringTopicRaises(entries: map<string, Value>)
    requires "topic" in entries && !entries["topic"].Str?
    ensures Validate(Dict(entries)) == Failure(Raised(NoAttribute(entries["topic"], "strip")))
  {
  }

  /** With a usable topic, the request passes exactly when `num_ideas` is
      absent or an `int` (a `bool` included) in 1..20; when it is absent it
      counts as 5. The engine gets the stripped topic and the `user_id`
      (`None` when absent). */
  lemma NumIdeasChecked(entries: map<string, Value>, topic: string)
    requires "topic" in entries && entries["topic"] == Str(topic)
    requires exists k :: 0 <= k < |topic| && !IsSpace(topic[k])
    ensures Validate(Dict(entries)).Success? <==> "num_ideas" !in entries || NumIdeasValid(entries["num_ideas"])
    ensures "num_ideas" !in entries ==> Validate(Dict(entries)) == Success(Validated(Strip(topic), Get(entries, "user_id", Null), 5))
    ensures Validate(Dict(entries)).Failure? ==> Validate(Dict(entries)).error == Error(BadNumIdeas)
    ensures Validate(Dict(entries)).Success? ==>
      && Validate(Dict(entries)).value.topic == Strip(topic)
      && Validate(Dict(entries)).value.userId == Get(entries, "user_id", Null)
      && Validate(Dict(entries)).value.numIdeas == AsInt(Get(entries, "num_ideas", Int(5))).value
  {
    StripEmptyIffBlank(topic);
  }

  /** `num_ideas = True` passes as 1 and `False` fails, as in Python. */
  lemma BoolNumIdeas(b: bool)
    ensures NumIdeasValid(Bool(b)) <==> b
    ensures b ==> AsInt(Bool(b)) == Some(1)
  {
  }

  /** The `"ideas"` list: rank `k + 1` for the `k`-th result, the engine's
      fields copied, 0 for the user and total scores the engine never
      sets. */
  function FormatAll(results: seq<ScoredIdea>): (f: seq<FormattedIdea>)
    ensures |f| == |results|
    ensures forall k :: 0 <= k < |results| ==>
      && f[k].rank == k + 1
      && f[k].idea == results[k].idea
      && f[k].detail == results[k].detail
      && f[k].modelScore == results[k].score
      && f[k].evaluationDetail == results[k].evaluationDetail
      && f[k].userScore == 0 && f[k].totalScore == 0
  {
    seq(|results|, k requires 0 <= k < |results| =>
      FormattedIdea(k + 1, results[k].idea, results[k].detail, results[k].score, 0, 0, results[k].evaluationDetail))
  }

  /** The `enumerate(results, 1)` loop building the `"ideas"` list. */
  method FormatResults(results: seq<ScoredIdea>) returns (formatted: seq<FormattedIdea>)
    ensures formatted == FormatAll(results)
  {
    formatted := [];
    for i := 0 to |results|
      invariant formatted == FormatAll(results[..i])
    {
      var idea := results[i];
      formatted := formatted + [FormattedIdea(i + 1, idea.idea, idea.detail, idea.score, 0, 0, idea.evaluationDetail)];
    }
    assert results[..|results|] == results;
  }

  /** The engine call a request leads to, if any: none without an engine
      or when the request is rejected. */
  function EngineCall(engine: Option<Engine>, request: Value): (c: Option<Validated>)
    ensures c.Some? <==> engine.Some? && Validate(request).Success?
    ensures c.Some? ==> c.value.topic != [] && 1 <= c.value.numIdeas <= 20
  {
    if engine.None? then None
    else
      match Validate(request)
      case Failure(_) => None
      case Success(v) => Some(v)
  }

  /** `handle_brainstorm_request(request_json)`. */
  function Handle(engine: Option<Engine>, request: Value): (r: Response)
    ensures engine.None? ==> r == Error(InitFailed)
    ensures engine.Some? && Validate(request).Failure? ==> r == Validate(request).error
    ensures r.Ideas? ==> r.metadata.totalCount == |r.ideas|
    ensures !r.Accepted?
  {
    if engine.None? then Error(InitFailed)
    else
      match Validate(request)
      case Failure(response) => response
      case Success(v) =>
        match Pipeline(engine.value, v.topic, v.userId, v.numIdeas)
        case Failure(e) => Error(ExecutionFailed + ErrorMessage(e))
        case Success(results) => Ideas(FormatAll(results), Metadata(v.topic, v.userId, |results|))
  }

  /** `handle_brainstorm_request` as the source runs it. Also returns the
      prompts the engine sends and the profile write-back it requests. */
  method HandleBrainstormRequest(engine: Option<Engine>, request: Value)
    returns (response: Response, sent: seq<Prompt>, writeBack: Option<WriteBack>)
    ensures response == Handle(engine, request)
    ensures EngineCall(engine, request).None? ==> sent == [] && writeBack == None
    ensures EngineCall(engine, request).Some? ==>
      var v := EngineCall(engine, request).value;
      && sent == PromptsSent(engine.value, v.topic, v.userId, v.numIdeas)
      && writeBack == WriteBackOf(v.userId, v.topic, Pipeline(engine.value, v.topic, v.userId, v.numIdeas))
  {
    sent := [];
    writeBack := None;
    if engine.None? {
      response := Error(InitFailed);
      return;
    }
    var checked := Validate(request);
    if checked.Failure? {
      response := checked.error;
      return;
    }
    var v := checked.value;
    var result;
    result, writeBack, sent := Run(engine.value, v.topic, v.userId, v.numIdeas);
    match result {
      case Failure(e) =>
        response := Error(ExecutionFailed + ErrorMessage(e));
      case Success(results) =>
        var formatted := FormatResults(results);
        response := Ideas(formatted, Metadata(v.topic, v.userId, |formatted|));
    }
  }

  /** Without an engine every request gets the initialisation error and
      nothing reaches a model. */
  lemma NoEngineNoCall(request: Value)
    ensures Handle(None, request) == Error(InitFailed)
    ensures EngineCall(None, request).None?
  {
  }

  /** A request the checks reject never reaches the engine. */
  lemma RejectedNeverCallsEngine(engine: Option<Engine>, request: Value)
    requires Validate(request).Failure?
    ensures EngineCall(engine, request).None?
    ensures engine.Some? ==> Handle(engine, request) == Validate(request).error
  {
  }

  /** A successful response lists the engine's result in its order under
      ranks 1, 2, ..., each with its plan, score and evaluation, with model
      scores that never increase and all reach
      the threshold, at most `num_ideas` of them, and `total_count` is
      their number. */
  lemma SuccessfulResponse(engine: Option<Engine>, request: Value)
    requires Handle(engine, request).Ideas?
    ensures engine.Some? && EngineCall(engine, request).Some?
    ensures
      var v := EngineCall(engine, request).value;
      var ideas := Handle(engine, request).ideas;
      var results := Pipeline(engine.value, v.topic, v.userId, v.numIdeas).value;
      && Handle(engine, request).metadata == Metadata(v.topic, v.userId, |ideas|)
      && |ideas| == |results| <= v.numIdeas
      && (forall k :: 0 <= k < |ideas| ==> ideas[k].rank == k + 1 && ideas[k].idea == results[k].idea)
      && (forall k :: 0 <= k < |ideas| ==>
            && ideas[k].detail == results[k].detail
            && ideas[k].modelScore == results[k].score
            && ideas[k].evaluationDetail == results[k].evaluationDetail)
      && (forall k :: 0 <= k < |ideas| ==> ideas[k].modelScore >= engine.value.minScore)
      && (forall i, j :: 0 <= i < j < |ideas| ==> ideas[i].modelScore >= ideas[j].modelScore)
      && (forall k :: 0 <= k < |ideas| ==> ideas[k].userScore == 0 && ideas[k].totalScore == 0)
  {
    var v := Validate(request).value;
    var e := engine.value;
    var ctx := BuildContext(v.userId, e.profile);
    var pool := Pool(ParseIdeas(e.generator(0, FirstPrompt(v.topic, ctx, v.numIdeas)).text), v.numIdeas);
    var scored := ScoreAll(e.evaluator, v.topic, ctx, ExpandAll(e.planner, v.topic, pool));
    RankBounds(scored, e.minScore, v.numIdeas);
  }

  /** Any exception of the engine becomes a failure whose message is the
      prefix followed by the exception's text. */
  lemma EngineErrorReported(engine: Engine, request: Value)
    requires Validate(request).Success?
    requires
      var v := Validate(request).value;
      Pipeline(engine, v.topic, v.userId, v.numIdeas).Failure?
    ensures
      var v := Validate(request).value;
      var e := Pipeline(engine, v.topic, v.userId, v.numIdeas).error;
      Handle(Some(engine), request) == Error(ExecutionFailed + ErrorMessage(e))
  {
  }

  /** `validate_request_format(request_data)`: anything but a dictionary is
      refused. */
  function ValidateRequestFormat(requestData: Value): (r: Response)
    ensures r == Accepted <==> requestData.Dict?
    ensures r != Accepted ==> r == Error(NotAnObject)
  {
    if requestData.Dict? then Accepted else Error(NotAnObject)
  }

  /** For a request the format check accepts, the handler can only raise
      on a `topic` that is there but not a string. */
  lemma AcceptedRequestRaisesOnlyOnTopic(engine: Option<Engine>, request: Value)
    requires ValidateRequestFormat(request) == Accepted
    requires Handle(engine, request).Raised?
    ensures "topic" in request.entries && !request.entries["topic"].Str?
    ensures Handle(engine, request) == Raised(NoAttribute(request.entries["topic"], "strip"))
  {
  }
}
