/** `findProductsByUserRequirements`: validate the request, then try the
    stages in a fixed order (vector search over reviews, vector search over
    products, keyword search over reviews, keyword search over products,
    best-rated fallback) and answer with the first stage that succeeds. */
module Cascade {
  import opened Common
  import opened Catalog
  import opened Stages

  /** The tool input; a JavaScript `undefined` is `None`. */
  datatype Input = Input(
    example_review: Option<string>,
    category: Option<string>,
    min_rating: Option<real>,
    max_rating: Option<real>,
    limit: Option<real>)

  datatype Stage = ReviewVector | ProductVector | ReviewKeyword | ProductKeyword | Fallback

  /** What calling a stage that may throw produced. */
  datatype StageCall = Returned(result: StageResult) | Threw

  /** The world the cascade runs in.  The embedding model answers `None` when
      `embedQuery` throws.  Keyword extraction and the two keyword stages are
      imported from the helpers module, which neither defines nor exports
      them (see `AsWritten`); they are kept here as oracles standing for the
      definitions evidently intended.  `None`/`Threw` is a thrown
      exception. */
  datatype Env = Env(
    store: Store,
    embed: string -> Option<Scores>,
    extractKeywords: string -> Option<seq<string>>,
    keywordReview: (seq<string>, CategoryClause, Params) -> StageCall,
    keywordProduct: (seq<string>, CategoryClause, Params) -> StageCall)

  /** The JSON text the function returns, as the value it serialises. */
  datatype Response =
    | Found(payload: Payload)
    | NotFound(user_requirements: string, message: string)
    | Failure(error: string, hint: Option<string>)

  /** The answer together with the stages invoked, in invocation order. */
  datatype Run = Run(response: Response, invoked: seq<Stage>)

  const RequiredError := "Example review or user requirements are required"
  const NoProductsMessage := "No products found matching your requirements"
  const SearchError := "Failed to find products matching user requirements"
  const SearchHint := "Make sure to provide a detailed example_review describing what you're looking for"

  /** The stage parameters: `min_rating` defaults to 4, `limit` to 5;
      `max_rating` is read by no one. */
  function ParamsOf(input: Input, text: string): (p: Params)
    ensures p.example_review == text && p.category == input.category
    ensures input.min_rating == None ==> p.min_rating == 4
    ensures input.limit == None ==> p.limit == 5
  {
    Params(text, input.category, ParamOrDefault(input.min_rating, 4), ParamOrDefault(input.limit, 5))
  }

  function FindProductsByUserRequirements(env: Env, input: Input): Run {
    if input.example_review == None || input.example_review.value == "" then
      Run(Failure(RequiredError, None), [])
    else
      var params := ParamsOf(input, input.example_review.value);
      var cf := BuildCategoryFilter(input.category);
      match env.embed(params.example_review)
      case None => KeywordPhase(env, params, cf, [])
      case Some(scores) =>
        var byReview := VectorReviewStage(env.store, scores, cf.filter, params);
        if byReview.Match? then Run(Found(byReview.payload), [ReviewVector])
        else
          var byProduct := VectorProductStage(env.store, scores, cf.filter, params);
          if byProduct.Match? then Run(Found(byProduct.payload), [ReviewVector, ProductVector])
          else KeywordPhase(env, params, cf, [ReviewVector, ProductVector])
  }

  /** Everything after the vector block: keyword extraction, the two keyword
      stages and the fallback; an exception here reaches the outer handler. */
  function KeywordPhase(env: Env, params: Params, cf: CategoryFilter, before: seq<Stage>): Run {
    match env.extractKeywords(params.example_review)
    case None => Run(Failure(SearchError, Some(SearchHint)), before)
    case Some(keywords) =>
      match env.keywordReview(keywords, cf.filter, params)
      case Threw => Run(Failure(SearchError, Some(SearchHint)), before + [ReviewKeyword])
      case Returned(Match(p)) => Run(Found(p), before + [ReviewKeyword])
      case Returned(NoMatch) =>
        match env.keywordProduct(keywords, cf.filter, params)
        case Threw => Run(Failure(SearchError, Some(SearchHint)), before + [ReviewKeyword, ProductKeyword])
        case Returned(Match(p)) => Run(Found(p), before + [ReviewKeyword, ProductKeyword])
        case Returned(NoMatch) =>
          var fallback := BestRatedStage(env.store, cf, params);
          var invoked := before + [ReviewKeyword, ProductKeyword, Fallback];
          if fallback.Match? then Run(Found(fallback.payload), invoked)
          else Run(NotFound(params.example_review, NoProductsMessage), invoked)
  }

  // ---------------------------------------------------------------------
  // Reference definition: a walk over a fixed plan

  /** The stages the cascade tries, in order: the vector stages only when an
      embedding exists. */
  function Plan(embedded: bool): seq<Stage> {
    (if embedded then [ReviewVector, ProductVector] else []) + [ReviewKeyword, ProductKeyword, Fallback]
  }

  /** What each stage yields for given parameters, embedding and keywords. */
  function CallStage(env: Env, params: Params, cf: CategoryFilter, scores: Option<Scores>,
                     keywords: seq<string>, s: Stage): StageCall
  {
    match s
    case ReviewVector =>
      if scores.Some? then Returned(VectorReviewStage(env.store, scores.value, cf.filter, params)) else Threw
    case ProductVector =>
      if scores.Some? then Returned(VectorProductStage(env.store, scores.value, cf.filter, params)) else Threw
    case ReviewKeyword => env.keywordReview(keywords, cf.filter, params)
    case ProductKeyword => env.keywordProduct(keywords, cf.filter, params)
    case Fallback => Returned(BestRatedStage(env.store, cf, params))
  }

  datatype Outcome = Decided(payload: Payload) | Aborted | Exhausted

  /** Try the stages of `plan` in order and stop at the first one that
      succeeds or throws. */
  function Walk(plan: seq<Stage>, call: Stage -> StageCall): (r: (Outcome, seq<Stage>))
    decreases |plan|
  {
    if plan == [] then (Exhausted, [])
    else
      match call(plan[0])
      case Threw => (Aborted, [plan[0]])
      case Returned(Match(p)) => (Decided(p), [plan[0]])
      case Returned(NoMatch) =>
        var rest := Walk(plan[1..], call);
        (rest.0, [plan[0]] + rest.1)
  }

  /** The walk invokes a prefix of the plan; every stage before the last
      invoked one found nothing; a decision is the payload of the last stage
      invoked, unchanged; the walk is exhausted exactly when it invoked the
      whole plan and every stage found nothing. */
  lemma {:induction false} WalkProperties(plan: seq<Stage>, call: Stage -> StageCall)
    ensures var (outcome, invoked) := Walk(plan, call);
      && |invoked| <= |plan| && invoked == plan[..|invoked|]
      && (plan != [] ==> invoked != [])
      && (forall i :: 0 <= i < |invoked| - 1 ==> call(invoked[i]) == Returned(NoMatch))
      && (outcome.Decided? ==> call(invoked[|invoked| - 1]) == Returned(Match(outcome.payload)))
      && (outcome.Aborted? ==> call(invoked[|invoked| - 1]) == Threw)
      && (outcome.Exhausted? <==> invoked == plan && forall s :: s in plan ==> call(s) == Returned(NoMatch))
    decreases |plan|
  {
    if plan != [] {
      WalkProperties(plan[1..], call);
      var rest := Walk(plan[1..], call);
      if call(plan[0]) == Returned(NoMatch) {
        var invoked := [plan[0]] + rest.1;
        assert invoked == plan[..|invoked|] by {
          assert plan == [plan[0]] + plan[1..];
        }
        forall i | 0 <= i < |invoked| - 1 ensures call(invoked[i]) == Returned(NoMatch) {
          if i > 0 { assert invoked[i] == rest.1[i - 1]; }
        }
        assert forall s :: s in plan <==> s == plan[0] || s in plan[1..];
      }
    }
  }

  function ResponseOf(outcome: Outcome, text: string): Response {
    match outcome
    case Decided(p) => Found(p)
    case Aborted => Failure(SearchError, Some(SearchHint))
    case Exhausted => NotFound(text, NoProductsMessage)
  }

  /** For a non-empty request whose keywords could be extracted, the cascade
      is exactly the walk over the plan: vector stages first when the
      embedding exists, then the keyword stages, then the fallback. */
  lemma CascadeIsWalk(env: Env, input: Input)
    requires input.example_review.Some? && input.example_review.value != ""
    requires env.extractKeywords(input.example_review.value).Some?
    ensures var text := input.example_review.value;
      var params := ParamsOf(input, text);
      var scores := env.embed(text);
      var call := (s: Stage) => CallStage(env, params, BuildCategoryFilter(input.category), scores,
                                          env.extractKeywords(text).value, s);
      var (outcome, invoked) := Walk(Plan(scores.Some?), call);
      FindProductsByUserRequirements(env, input) == Run(ResponseOf(outcome, text), invoked)
  {
    var text := input.example_review.value;
    var params := ParamsOf(input, text);
    var cf := BuildCategoryFilter(input.category);
    var scores := env.embed(text);
    var keywords := env.extractKeywords(text).value;
    var call := (s: Stage) => CallStage(env, params, cf, scores, keywords, s);
    var tail := [ReviewKeyword, ProductKeyword, Fallback];
    KeywordPhaseIsWalk(env, params, cf, scores, keywords, []);
    if scores.Some? {
      KeywordPhaseIsWalk(env, params, cf, scores, keywords, [ReviewVector, ProductVector]);
      assert Plan(true) == [ReviewVector] + ([ProductVector] + tail);
      assert Plan(true)[1..] == [ProductVector] + tail;
      assert Plan(true)[1..][1..] == tail;
    } else {
      assert Plan(false) == tail;
    }
  }

  lemma KeywordPhaseIsWalk(env: Env, params: Params, cf: CategoryFilter, scores: Option<Scores>,
                           keywords: seq<string>, before: seq<Stage>)
    requires env.extractKeywords(params.example_review) == Some(keywords)
    ensures var call := (s: Stage) => CallStage(env, params, cf, scores, keywords, s);
      var (outcome, invoked) := Walk([ReviewKeyword, ProductKeyword, Fallback], call);
      KeywordPhase(env, params, cf, before) == Run(ResponseOf(outcome, params.example_review), before + invoked)
  {
    var call := (s: Stage) => CallStage(env, params, cf, scores, keywords, s);
    var plan := [ReviewKeyword, ProductKeyword, Fallback];
    assert plan[1..] == [ProductKeyword, Fallback];
    assert plan[1..][1..] == [Fallback];
    assert plan[1..][1..][1..] == [];
  }

  /** The cascade as the server is written: the three keyword helpers it
      imports are not there, so the call to keyword extraction throws. */
  function AsWritten(env: Env): Env {
    env.(extractKeywords := (_: string) => None)
  }

  // ---------------------------------------------------------------------
  // Properties

  /** When keyword extraction throws, no keyword stage and no fallback runs:
      either a vector stage found products, or both vector stages ran (or
      none, without an embedding) and the answer is the error with its hint. */
  lemma ExtractionFailureAborts(env: Env, input: Input)
    requires input.example_review.Some? && input.example_review.value != ""
    requires env.extractKeywords(input.example_review.value).None?
    ensures var text := input.example_review.value;
      var params := ParamsOf(input, text);
      var cf := BuildCategoryFilter(input.category);
      var run := FindProductsByUserRequirements(env, input);
      && (forall s :: s in run.invoked ==> s == ReviewVector || s == ProductVector)
      && (run.response.Found? || (run.response == Failure(SearchError, Some(SearchHint))
            && run.invoked == (if env.embed(text).Some? then [ReviewVector, ProductVector] else [])))
      && (run.response.Found? ==>
            && env.embed(text).Some? && run.invoked != []
            && CallStage(env, params, cf, env.embed(text), [], run.invoked[|run.invoked| - 1])
                 == Returned(Match(run.response.payload)))
  {
  }

  /** As written, a request for which the vector stages find nothing never
      reaches the keyword stages or the fallback; it is answered with the
      error instead of the "no products" message or fallback products. */
  lemma AsWrittenSkipsKeywordStages(env: Env, input: Input)
    requires input.example_review.Some? && input.example_review.value != ""
    ensures var run := FindProductsByUserRequirements(AsWritten(env), input);
      && ReviewKeyword !in run.invoked && ProductKeyword !in run.invoked && Fallback !in run.invoked
      && (run.response.Found? || run.response == Failure(SearchError, Some(SearchHint)))
  {
    ExtractionFailureAborts(AsWritten(env), input);
  }

  /** A missing or empty `example_review` is rejected before any embedding
      is computed or any stage runs. */
  lemma MissingTextRejected(env: Env, input: Input)
    requires input.example_review == None || input.example_review == Some("")
    ensures FindProductsByUserRequirements(env, input) == Run(Failure(RequiredError, None), [])
  {
  }

  /** Stages run in the fixed order and nothing runs after the first
      success: the stages invoked are a prefix of the plan, all but the last
      found nothing, and a found payload is the last stage's result. */
  lemma CascadeShortCircuits(env: Env, input: Input)
    requires input.example_review.Some? && input.example_review.value != ""
    requires env.extractKeywords(input.example_review.value).Some?
    ensures var text := input.example_review.value;
      var params := ParamsOf(input, text);
      var scores := env.embed(text);
      var call := (s: Stage) => CallStage(env, params, BuildCategoryFilter(input.category), scores,
                                          env.extractKeywords(text).value, s);
      var run := FindProductsByUserRequirements(env, input);
      && run.invoked != []
      && run.invoked == Plan(scores.Some?)[..|run.invoked|]
      && (forall i :: 0 <= i < |run.invoked| - 1 ==> call(run.invoked[i]) == Returned(NoMatch))
      && (run.response.Found? ==>
            call(run.invoked[|run.invoked| - 1]) == Returned(Match(run.response.payload)))
  {
    var text := input.example_review.value;
    var params := ParamsOf(input, text);
    var scores := env.embed(text);
    var call := (s: Stage) => CallStage(env, params, BuildCategoryFilter(input.category), scores,
                                        env.extractKeywords(text).value, s);
    CascadeIsWalk(env, input);
    WalkProperties(Plan(scores.Some?), call);
  }

  /** When the embedding cannot be computed neither vector stage runs, yet
      the keyword stages and the fallback still do. */
  lemma EmbeddingFailureSkipsVectorStages(env: Env, input: Input)
    requires input.example_review.Some? && input.example_review.value != ""
    requires env.embed(input.example_review.value) == None
    ensures var run := FindProductsByUserRequirements(env, input);
      && ReviewVector !in run.invoked && ProductVector !in run.invoked
      && (env.extractKeywords(input.example_review.value).Some? ==>
            run.invoked != [] && run.invoked[0] == ReviewKeyword)
  {
    var text := input.example_review.value;
    if env.extractKeywords(text).Some? {
      var params := ParamsOf(input, text);
      var call := (s: Stage) => CallStage(env, params, BuildCategoryFilter(input.category), None,
                                          env.extractKeywords(text).value, s);
      CascadeIsWalk(env, input);
      WalkProperties(Plan(false), call);
      var invoked := FindProductsByUserRequirements(env, input).invoked;
      assert forall s :: s in invoked ==> s in Plan(false) by {
        assert invoked == Plan(false)[..|invoked|];
      }
    }
  }

  /** When every stage finds nothing the answer is the fixed "no products"
      message echoing the request, after all planned stages ran. */
  lemma ExhaustedCascade(env: Env, input: Input)
    requires input.example_review.Some? && input.example_review.value != ""
    requires env.extractKeywords(input.example_review.value).Some?
    requires var text := input.example_review.value;
      var params := ParamsOf(input, text);
      forall s :: s in Plan(env.embed(text).Some?) ==>
        CallStage(env, params, BuildCategoryFilter(input.category), env.embed(text),
                  env.extractKeywords(text).value, s) == Returned(NoMatch)
    ensures var run := FindProductsByUserRequirements(env, input);
      && run.response == NotFound(input.example_review.value, NoProductsMessage)
      && run.invoked == Plan(env.embed(input.example_review.value).Some?)
  {
    var text := input.example_review.value;
    var params := ParamsOf(input, text);
    var scores := env.embed(text);
    var call := (s: Stage) => CallStage(env, params, BuildCategoryFilter(input.category), scores,
                                        env.extractKeywords(text).value, s);
    CascadeIsWalk(env, input);
    WalkProperties(Plan(scores.Some?), call);
  }

  /** A category made only of spaces selects no clause, yet the stages
      still bind it to `@category`: the database refuses both vector stages
      and the fallback, so only the keyword stages can find products. */
  lemma BlankCategoryRefused(env: Env, input: Input, scores: Scores, text: string)
    requires input.category.Some? && input.category.value != ""
    requires forall i :: 0 <= i < |input.category.value| ==> IsJsSpace(input.category.value[i])
    ensures var params := ParamsOf(input, text);
      var cf := BuildCategoryFilter(input.category);
      && VectorReviewStage(env.store, scores, cf.filter, params) == NoMatch
      && VectorProductStage(env.store, scores, cf.filter, params) == NoMatch
      && BestRatedStage(env.store, cf, params) == NoMatch
  {
    var params := ParamsOf(input, text);
    var cf := BuildCategoryFilter(input.category);
    StageAcceptedIff(VectorParams, cf.filter, params);
    StageAcceptedIff(FallbackParams, FallbackClause(cf), params);
  }

  /** A present, non-blank category is declared and bound alike, so no stage
      is refused for its binding. */
  lemma CategoryBindingConsistent(input: Input, text: string)
    ensures var params := ParamsOf(input, text);
      var cf := BuildCategoryFilter(input.category);
      (cf.filter.CategoryJoin? ==> StageAccepted(VectorParams, cf.filter, params)
                                   && StageAccepted(FallbackParams, FallbackClause(cf), params))
      && (input.category == None || input.category == Some("") ==>
            StageAccepted(VectorParams, cf.filter, params) && StageAccepted(FallbackParams, FallbackClause(cf), params))
  {
    var params := ParamsOf(input, text);
    var cf := BuildCategoryFilter(input.category);
    StageAcceptedIff(VectorParams, cf.filter, params);
    StageAcceptedIff(FallbackParams, FallbackClause(cf), params);
  }

  /** `max_rating` has no influence on the answer. */
  lemma MaxRatingIgnored(env: Env, input: Input, maxRating: Option<real>)
    ensures FindProductsByUserRequirements(env, input)
         == FindProductsByUserRequirements(env, input.(max_rating := maxRating))
  {
    if input.example_review.Some? && input.example_review.value != "" {
      assert ParamsOf(input, input.example_review.value)
          == ParamsOf(input.(max_rating := maxRating), input.example_review.value);
    }
  }
}
