/**
 * The "Estimate Calories" action: call the API with the default budget and
 * summarise its answer, and the behaviours the estimator is expected to show
 * for a few concrete sequences of replies.
 */
module App {

  import opened Wrappers
  import opened PyJson
  import opened GeminiCall
  import opened RetryProperties
  import opened Calories
  import Payload

  /** What the page shows for the answer of one call, an exception from the call included. */
  function Shown(result: CallResult): (r: Report)
    ensures result.Raised? ==> r.Crashed?
    ensures r.Breakdown? ==> result == Returned(Some(JArr(r.rows))) && r.rows != []
    ensures r.NoBreakdown? <==> result.Returned? && !Truthy(result.value)
    ensures result.Returned? ==> r == Summarize(result.value)
    ensures result.Returned? && result.value.Some? && result.value.value.JArr? && result.value.value.items != [] &&
            TotalCalories(result.value.value.items).Some? ==>
              r == Breakdown(result.value.value.items, TotalCalories(result.value.value.items).value)
  {
    match result
    case Raised => Crashed
    case Returned(results) => Summarize(results)
  }

  /** `results = call_gemini_api(prompt, base64_image)` followed by the breakdown and its total. */
  method EstimateCalories(prompt: string, imageData: string, server: nat -> Reply, decode: string -> Option<Json>)
    returns (report: Report, trace: seq<Event>)
    ensures var call := Run(Env(Payload.Build(prompt, imageData), DefaultRetries, server, decode), 0, 1);
      trace == call.trace && report == Shown(call.result)
    ensures report.Breakdown? ==> Attempts(trace) <= DefaultRetries && report.rows != []
  {
    var result;
    result, trace := CallGeminiApi(prompt, imageData, DefaultRetries, server, decode);
    ghost var env := Env(Payload.Build(prompt, imageData), DefaultRetries, server, decode);
    RunCounts(env, 0);
    report := Shown(result);
  }

  /**
   * A model text that decodes to JSON `null` is returned as `Some(JNull)`,
   * where Python returns `None`; the page shows nothing for either.
   */
  lemma NullAnswerShowsNothing()
    ensures Shown(Returned(Some(JNull))) == Shown(Returned(None)) == NoBreakdown
  {
  }

  function Item(name: string, calories: int): Json
  {
    JObj(map["food_item" := JStr(name), "calories" := JNum(calories)])
  }

  /**
   * A 200 reply whose text decodes to [{"food_item": "Apple", "calories": 95}]
   * is returned after one request, and the total shown is 95.
   */
  lemma AppleScenario(env: Env, text: string)
    requires env.retries >= 1
    requires env.server(0) == Response(200, Some(Envelope(text)))
    requires env.decode(text) == Some(JArr([Item("Apple", 95)]))
    ensures Run(env, 0, 1) == Call(Returned(Some(JArr([Item("Apple", 95)]))), [Post(env.payload)])
    ensures Shown(Run(env, 0, 1).result) == Breakdown([Item("Apple", 95)], 95)
  {
    EnvelopeText(text);
    EnvelopeOutcome(200, Envelope(text), text, env.decode);
    TotalSingle(Item("Apple", 95));
  }

  /** A 403 on the first attempt: one request, no sleep, None. */
  lemma ForbiddenFirst(env: Env, body: Option<Json>)
    requires env.retries >= 1 && env.server(0) == Response(403, body)
    ensures Run(env, 0, 1) == Call(Returned(None), [Post(env.payload), Error(Forbidden)])
  {
  }

  /** Malformed JSON in the text of a 200 reply: None at once, no retry. */
  lemma MalformedTextFirst(env: Env, text: string)
    requires env.retries >= 1
    requires env.server(0) == Response(200, Some(Envelope(text))) && env.decode(text) == None
    ensures Run(env, 0, 1) == Call(Returned(None), [Post(env.payload), Error(CallFailed)])
  {
    EnvelopeText(text);
    EnvelopeOutcome(200, Envelope(text), text, env.decode);
  }

  /** Four HTTP 500 replies, then an answer: five requests and 1 + 2 + 4 + 8 = 15 seconds of sleep. */
  lemma RecoversOnFifthAttempt(env: Env, v: Json)
    requires env.retries == DefaultRetries
    requires forall j: nat :: j < 4 ==> env.server(j).Response? && env.server(j).status == 500
    requires OutcomeAt(env, 4) == Parsed(v)
    ensures Run(env, 0, 1).result == Returned(Some(v))
    ensures Attempts(Run(env, 0, 1).trace) == 5
    ensures Sleeps(Run(env, 0, 1).trace) == [1, 2, 4, 8] && Sum(Sleeps(Run(env, 0, 1).trace)) == 15
  {
    SuccessStops(env, 4, v);
    assert Schedule(4) == [1, 2, 4, 8];
    var s: seq<nat> := [1, 2, 4, 8];
    assert s[1..][1..][1..][1..] == [];
    assert Sum(s[1..][1..][1..]) == 8;
    assert Sum(s) == 15;
  }

  /** HTTP 500 on all five attempts: None after five requests and 1 + 2 + 4 + 8 + 16 = 31 seconds of sleep. */
  lemma AllAttemptsFail(env: Env)
    requires env.retries == DefaultRetries
    requires forall j: nat :: j < 5 ==> env.server(j).Response? && env.server(j).status == 500
    ensures Run(env, 0, 1).result == Returned(None)
    ensures Run(env, 0, 1).trace[|Run(env, 0, 1).trace| - 1] == Error(RetriesExceeded)
    ensures Attempts(Run(env, 0, 1).trace) == 5
    ensures Sleeps(Run(env, 0, 1).trace) == [1, 2, 4, 8, 16] && Sum(Sleeps(Run(env, 0, 1).trace)) == 31
  {
    Exhausted(env);
    assert Schedule(5) == [1, 2, 4, 8, 16];
  }

  /** [{"food_item": "A", "calories": 10}, {"food_item": "B"}] totals 10: the missing field counts as 0. */
  lemma MissingCaloriesCountZero()
    ensures TotalCalories([Item("A", 10), JObj(map["food_item" := JStr("B")])]) == Some(10)
  {
    var b := JObj(map["food_item" := JStr("B")]);
    TotalAppend([Item("A", 10)], [b]);
    TotalSingle(Item("A", 10));
    TotalSingle(b);
    assert [Item("A", 10)] + [b] == [Item("A", 10), b];
  }
}
