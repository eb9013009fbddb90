// The AI service's decision logic: the constructor's provider checks, the
// placeholder context parser, the fixed confidence, and the control flow of
// `extract_context` -- the test short-cut, the single OpenAI call and the
// Ollama retry loop -- with every provider answer given as an input.
module AiService {
  import opened Wrappers
  import opened Text
  import opened Numerals
  import opened Schemas
  import ModelTraining

  /** The settings the service reads. */
  datatype Settings = Settings(environment: String, ai_provider: String, openai_api_key: Option<String>)

  /** The clients the constructor sets up. */
  datatype Clients = TestClients | OpenAiClients(key: String) | OllamaClient

  const MissingKeyError := "OpenAI API key not found in environment variables"

  /** The constructor: the test environment always gets placeholder clients;
      otherwise openai needs a non-empty key, ollama needs nothing, and any
      other provider raises `ValueError`. */
  function Init(s: Settings): (r: Result<Clients, String>)
    ensures s.environment == "test" ==> r == Ok(TestClients)
    ensures s.environment != "test" && s.ai_provider == "openai" ==>
              (r.Ok? <==> s.openai_api_key.Some? && s.openai_api_key.value != "")
    ensures s.environment != "test" && s.ai_provider == "openai" && r.Err? ==> r.error == MissingKeyError
    ensures s.environment != "test" && s.ai_provider == "ollama" ==> r == Ok(OllamaClient)
    ensures s.environment != "test" && s.ai_provider != "openai" && s.ai_provider != "ollama" ==>
              r == Err("Unsupported AI provider: " + s.ai_provider)
  {
    if s.environment == "test" then Ok(TestClients)
    else if s.ai_provider == "openai" then
      if s.openai_api_key.None? || s.openai_api_key.value == "" then Err(MissingKeyError)
      else Ok(OpenAiClients(s.openai_api_key.value))
    else if s.ai_provider == "ollama" then Ok(OllamaClient)
    else Err("Unsupported AI provider: " + s.ai_provider)
  }

  /** Outside the test environment the constructor succeeds exactly for a
      keyed openai or for ollama. */
  lemma {:induction false} InitSucceedsIff(s: Settings)
    requires s.environment != "test"
    ensures Init(s).Ok? <==>
              (s.ai_provider == "openai" && s.openai_api_key.Some? && s.openai_api_key.value != "")
              || s.ai_provider == "ollama"
  {
  }

  /** The complexity map written inline in `predict_price`. */
  const ComplexityMap: map<String, int> := map["low" := 1, "medium" := 2, "high" := 3]

  /** `complexity_map.get(c.lower(), 2)`. */
  function PredictComplexity(c: String): (r: int)
    ensures Lower(c) in ComplexityMap ==> r == ComplexityMap[Lower(c)]
    ensures Lower(c) !in ComplexityMap ==> r == 2
  {
    var k := Lower(c);
    if k in ComplexityMap then ComplexityMap[k] else 2
  }

  /** The inline map of `predict_price` and `_encode_complexity` (the same
      lookup as the training code's) encode every string alike. */
  lemma {:induction false} ComplexityEncodingsAgree(c: String)
    ensures PredictComplexity(c) == ModelTraining.EncodeComplexity(c)
  {
    var k := Lower(c);
    if k !in ComplexityMap {
      assert k != "low" && k != "medium" && k != "high";
    }
  }

  /** `_calculate_confidence`: a constant. */
  function Confidence(): (c: real)
    ensures c == 0.85
    ensures 0.0 < c < 1.0
  {
    0.85
  }

  /** `_parse_context`: the reply text becomes `custom_requests`, the urgency
      is always "medium" and the past agreements are empty. */
  function ParseContext(text: String): (r: ContextDict)
    ensures r.Keys == {"extracted_urgency", "custom_requests", "past_agreements"}
    ensures r["extracted_urgency"] == "medium"
    ensures r["custom_requests"] == text
    ensures r["past_agreements"] == ""
  {
    map["extracted_urgency" := "medium", "custom_requests" := text, "past_agreements" := ""]
  }

  /** Parsing forgets nothing of the reply: different replies give different
      contexts. */
  lemma {:induction false} ParseContextInjective(a: String, b: String)
    requires ParseContext(a) == ParseContext(b)
    ensures a == b
  {
    assert ParseContext(a)["custom_requests"] == ParseContext(b)["custom_requests"];
  }

  /** The dictionary returned in the test environment. */
  const TestContext: ContextDict :=
    map["extracted_urgency" := "medium", "custom_requests" := "Test context", "past_agreements" := "None"]

  /** `str(exc)` of an `HTTPException`. */
  function ExceptionText(e: HttpError): String
  {
    IntToString(e.status) + ": " + e.detail
  }

  /** The outer handler of `extract_context`: whatever escapes is re-raised
      as a 500 that names it. */
  function Wrapped(message: String): (e: HttpError)
    ensures e.status == 500
  {
    HttpError(500, "Error extracting context: " + message)
  }

  /** How one chat-completion call ended. */
  datatype OpenAiAnswer = Completed(content: String) | OpenAiFailed(message: String)

  /** How one Ollama attempt ended: a 200 reply (its `response` field, ""
      when absent), another status with its body, a timeout, or any other
      exception. */
  datatype OllamaAttempt = Answered(response: String) | Rejected(errorText: String)
                         | TimedOut | Raised(message: String)

  const MaxRetries := 3
  const RetryDelay := 2

  /** The exception the final attempt leaves behind. A non-200 reply raises
      inside the `try`, so its own handler wraps it once more. */
  function LastAttemptError(a: OllamaAttempt): HttpError
    requires !a.Answered?
  {
    match a
    case Rejected(t) =>
      var inner := HttpError(500, "Ollama API error: " + t);
      HttpError(500, "Ollama API error: " + ExceptionText(inner))
    case TimedOut => HttpError(504, "Timeout while connecting to AI service")
    case Raised(m) => HttpError(500, "Ollama API error: " + m)
  }

  /** The Ollama loop from attempt `k` on: the first answered attempt is
      parsed; a failure before the last attempt moves on, the last one
      raises. The second component counts the attempts made. */
  function OllamaFrom(outcomes: seq<OllamaAttempt>, k: nat): (r: (Result<ContextDict, HttpError>, nat))
    requires k < MaxRetries <= |outcomes|
    ensures k < r.1 <= MaxRetries
    ensures r.0.Ok? <==> exists j :: k <= j < MaxRetries && outcomes[j].Answered?
    ensures r.0.Ok? ==> outcomes[r.1 - 1].Answered? && r.0.value == ParseContext(outcomes[r.1 - 1].response)
                        && forall j :: k <= j < r.1 - 1 ==> !outcomes[j].Answered?
    ensures r.0.Err? ==> r.1 == MaxRetries && r.0.error == LastAttemptError(outcomes[MaxRetries - 1])
    decreases MaxRetries - k
  {
    match outcomes[k]
    case Answered(resp) => (Ok(ParseContext(resp)), k + 1)
    case _ =>
      if k < MaxRetries - 1 then OllamaFrom(outcomes, k + 1)
      else (Err(LastAttemptError(outcomes[k])), k + 1)
  }

  /** The Ollama branch of `extract_context`: at most three requests, with a
      pause between consecutive attempts and none after the last. */
  method OllamaExtract(outcomes: seq<OllamaAttempt>) returns (r: Result<ContextDict, HttpError>, attempts: nat, sleeps: nat)
    requires MaxRetries <= |outcomes|
    ensures (r, attempts) == OllamaFrom(outcomes, 0)
    ensures 1 <= attempts <= MaxRetries && sleeps == attempts - 1
  {
    var attempt := 0;
    sleeps := 0;
    while true
      invariant 0 <= attempt < MaxRetries
      invariant sleeps == attempt
      invariant OllamaFrom(outcomes, attempt) == OllamaFrom(outcomes, 0)
      decreases MaxRetries - attempt
    {
      if outcomes[attempt].Answered? {
        var resp := outcomes[attempt].response;
        assert OllamaFrom(outcomes, attempt) == (Ok(ParseContext(resp)), attempt + 1);
        return Ok(ParseContext(resp)), attempt + 1, sleeps;
      } else if attempt < MaxRetries - 1 {
        assert OllamaFrom(outcomes, attempt) == OllamaFrom(outcomes, attempt + 1);
        sleeps := sleeps + 1;
        attempt := attempt + 1;
      } else {
        assert OllamaFrom(outcomes, attempt) == (Err(LastAttemptError(outcomes[attempt])), attempt + 1);
        return Err(LastAttemptError(outcomes[attempt])), attempt + 1, sleeps;
      }
    }
  }

  /** `extract_context`, given the provider's answers. `requests` counts the
      calls made to a provider. Every failure that escapes is a 500, the
      Ollama timeout included. */
  method ExtractContext(s: Settings, text: String, openAi: OpenAiAnswer, ollama: seq<OllamaAttempt>)
    returns (r: Result<ContextDict, HttpError>, requests: nat, sleeps: nat)
    requires MaxRetries <= |ollama|
    ensures r.Err? ==> r.error.status == 500
    ensures s.environment == "test" ==> r == Ok(TestContext) && requests == 0 && sleeps == 0
    ensures s.environment != "test" && s.ai_provider == "openai" ==>
              requests == 1 && sleeps == 0
              && r == match openAi
                      case Completed(c) => Ok(ParseContext(c))
                      case OpenAiFailed(m) => Err(Wrapped(ExceptionText(HttpError(500, "OpenAI API error: " + m))))
    ensures s.environment != "test" && s.ai_provider == "ollama" ==>
              1 <= requests <= MaxRetries && sleeps == requests - 1
              && requests == OllamaFrom(ollama, 0).1
              && r == match OllamaFrom(ollama, 0).0
                      case Ok(ctx) => Ok(ctx)
                      case Err(e) => Err(Wrapped(ExceptionText(e)))
    ensures s.environment != "test" && s.ai_provider != "openai" && s.ai_provider != "ollama" ==>
              requests == 0 && r == Err(Wrapped("Unsupported AI provider: " + s.ai_provider))
  {
    if s.environment == "test" {
      return Ok(TestContext), 0, 0;
    }
    if s.ai_provider == "openai" {
      r := match openAi
           case Completed(c) => Ok(ParseContext(c))
           case OpenAiFailed(m) => Err(Wrapped(ExceptionText(HttpError(500, "OpenAI API error: " + m))));
      return r, 1, 0;
    }
    if s.ai_provider == "ollama" {
      var res, attempts, pauses := OllamaExtract(ollama);
      if res.Err? {
        r := Err(Wrapped(ExceptionText(res.error)));
      } else {
        r := res;
      }
      return r, attempts, pauses;
    }
    r := Err(Wrapped("Unsupported AI provider: " + s.ai_provider));
    requests, sleeps := 0, 0;
  }

  /** An Ollama run that times out three times answers 500, not 504: the
      timeout is wrapped by the outer handler. */
  lemma {:induction false} TimeoutBecomes500(outcomes: seq<OllamaAttempt>)
    requires MaxRetries <= |outcomes|
    requires outcomes[0] == TimedOut && outcomes[1] == TimedOut && outcomes[2] == TimedOut
    ensures OllamaFrom(outcomes, 0).0 == Err(HttpError(504, "Timeout while connecting to AI service"))
    ensures OllamaFrom(outcomes, 0).1 == MaxRetries
    ensures Wrapped(ExceptionText(OllamaFrom(outcomes, 0).0.error)).status == 500
  {
  }

  /** Failures before the last attempt are forgotten: an answer on the third
      attempt gives the same context as an answer on the first. */
  lemma {:induction false} LateAnswerSuffices(outcomes: seq<OllamaAttempt>, resp: String)
    requires MaxRetries <= |outcomes|
    requires !outcomes[0].Answered? && !outcomes[1].Answered? && outcomes[2] == Answered(resp)
    ensures OllamaFrom(outcomes, 0) == (Ok(ParseContext(resp)), 3)
  {
  }
}
