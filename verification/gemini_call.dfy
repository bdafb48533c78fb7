/**
 * `call_gemini_api`: post the request body up to `retries` times, doubling
 * the back-off delay after every HTTP error other than 403, and stop at the
 * first answer, at a 403, or at the first transport or decoding failure.
 *
 * The network is a function from the attempt number to the reply the
 * endpoint gives to that attempt; `json.loads` of the model's text is a
 * function from the text to a decoded value or a decoding error. Waiting,
 * warnings and error messages are recorded in a trace instead of happening.
 */
module GeminiCall {

  import opened Wrappers
  import opened PyJson
  import Payload

  /** What one POST yields before the body is interpreted. */
  datatype Reply =
    | TransportFailure                         // requests.post raised a RequestException other than HTTPError
    | Response(status: int, body: Option<Json>) // body is None when response.json() cannot decode it

  /** How one attempt ends, as the exception handlers see it. */
  datatype Outcome =
    | Parsed(value: Json)  // the model's text decoded to `value`
    | HttpError(status: int)
    | Caught               // RequestException, JSONDecodeError or KeyError: handled, not retried
    | Escaped              // IndexError or TypeError: no handler names it, so it leaves the function

  /** `raise_for_status` raises for client (4xx) and server (5xx) errors only. */
  predicate RaisesForStatus(status: int)
  {
    400 <= status < 600
  }

  /** `result["candidates"][0]["content"]["parts"][0]["text"]` */
  const TextPath: seq<Key> := [Name("candidates"), Pos(0), Name("content"), Name("parts"), Pos(0), Name("text")]

  /** The outcome of one attempt that got `reply`, decoding the model's text with `decode`. */
  function Classify(reply: Reply, decode: string -> Option<Json>): (o: Outcome)
    ensures o.HttpError? <==> reply.Response? && RaisesForStatus(reply.status)
    ensures o.HttpError? ==> o.status == reply.status
    // The handler for RequestException and JSONDecodeError: a failed transport,
    // or a body `response.json()` cannot decode, is caught.
    ensures reply.TransportFailure? ==> o == Caught
    ensures reply.Response? && !RaisesForStatus(reply.status) && reply.body.None? ==> o == Caught
    ensures reply.Response? && !RaisesForStatus(reply.status) && reply.body.Some? ==>
      o == Interpret(reply.body.value, decode)
  {
    match reply
    case TransportFailure => Caught
    case Response(status, body) =>
      if RaisesForStatus(status) then HttpError(status)
      else match body
        case None => Caught
        case Some(envelope) => Interpret(envelope, decode)
  }

  /** Digs the model's text out of a decoded response envelope and decodes it. */
  function Interpret(envelope: Json, decode: string -> Option<Json>): (o: Outcome)
    ensures !o.HttpError?
    ensures o.Parsed? ==>
      && Path(envelope, TextPath).Found? && Path(envelope, TextPath).value.JStr?
      && decode(Path(envelope, TextPath).value.s) == Some(o.value)
    ensures Path(envelope, TextPath).KeyError? ==> o == Caught
    // Any other exception in the chain, or a text that is not a string, escapes.
    ensures Path(envelope, TextPath).OtherError? ==> o == Escaped
    ensures Path(envelope, TextPath).Found? && !Path(envelope, TextPath).value.JStr? ==> o == Escaped
    // A string text is decoded: its value is the answer, a decoding error is caught.
    ensures Path(envelope, TextPath).Found? && Path(envelope, TextPath).value.JStr? ==>
      o == match decode(Path(envelope, TextPath).value.s) case Some(v) => Parsed(v) case None => Caught
  {
    match Path(envelope, TextPath)
    case KeyError => Caught
    case OtherError => Escaped
    case Found(JStr(text)) => (match decode(text) case Some(v) => Parsed(v) case None => Caught)
    case Found(_) => Escaped  // json.loads of a value that is not a string raises TypeError
  }

  /** A well-formed envelope carrying `text` as the first part of the first candidate. */
  function Envelope(text: string): Json
  {
    JObj(map["candidates" := JArr([JObj(map["content" := JObj(map["parts" := JArr([JObj(map["text" := JStr(text)])])])])])])
  }

  /** The minimal envelope carries `text` at the end of the chain. */
  lemma EnvelopeText(text: string)
    ensures Path(Envelope(text), TextPath) == Found(JStr(text))
  {
    var part := JObj(map["text" := JStr(text)]);
    var content := JObj(map["parts" := JArr([part])]);
    var candidate := JObj(map["content" := content]);
    calc {
      Path(Envelope(text), TextPath);
      Path(JArr([candidate]), TextPath[1..]);
      Path(candidate, TextPath[2..]);
      Path(content, TextPath[3..]);
      Path(JArr([part]), TextPath[4..]);
      Path(part, TextPath[5..]);
    }
  }

  /**
   * A successful reply whose envelope, whatever else it holds, has the string
   * `text` at the end of the chain yields exactly what decoding `text` yields.
   */
  lemma EnvelopeOutcome(status: int, envelope: Json, text: string, decode: string -> Option<Json>)
    requires !RaisesForStatus(status) && Path(envelope, TextPath) == Found(JStr(text))
    ensures Classify(Response(status, Some(envelope)), decode) ==
      match decode(text) case Some(v) => Parsed(v) case None => Caught
  {
  }

  /**
   * The handlers of line 75 in one statement: an attempt ends in the caught
   * failure exactly for a failed transport, an undecodable body, a `KeyError`
   * in the chain, or a string text that does not decode.
   */
  lemma CaughtExactly(reply: Reply, decode: string -> Option<Json>)
    ensures Classify(reply, decode) == Caught <==>
      || reply.TransportFailure?
      || (&& reply.Response? && !RaisesForStatus(reply.status)
          && (|| reply.body.None?
              || Path(reply.body.value, TextPath).KeyError?
              || (&& Path(reply.body.value, TextPath).Found?
                  && Path(reply.body.value, TextPath).value.JStr?
                  && decode(Path(reply.body.value, TextPath).value.s).None?)))
  {
  }

  /** An envelope without "candidates" is a KeyError, which is handled: the call gives up. */
  lemma MissingCandidatesIsCaught(status: int, fields: map<string, Json>, decode: string -> Option<Json>)
    requires !RaisesForStatus(status) && "candidates" !in fields
    ensures Classify(Response(status, Some(JObj(fields))), decode) == Caught
  {
    assert Path(JObj(fields), TextPath) == KeyError;
  }

  /** An empty candidate list is an IndexError, which no handler catches. */
  lemma NoCandidateEscapes(status: int, fields: map<string, Json>, decode: string -> Option<Json>)
    requires !RaisesForStatus(status) && "candidates" in fields && fields["candidates"] == JArr([])
    ensures Classify(Response(status, Some(JObj(fields))), decode) == Escaped
  {
    calc {
      Path(JObj(fields), TextPath);
      Path(JArr([]), TextPath[1..]);
    }
  }

  /**
   * A subscript that fails at any step of the chain decides the attempt: a
   * `KeyError` is caught, any other exception escapes.
   */
  lemma FailedStep(status: int, envelope: Json, j: nat, decode: string -> Option<Json>)
    requires !RaisesForStatus(status) && j < |TextPath|
    requires Path(envelope, TextPath[..j]).Found?
    requires !Subscript(Path(envelope, TextPath[..j]).value, TextPath[j]).Found?
    ensures Classify(Response(status, Some(envelope)), decode) ==
      if Subscript(Path(envelope, TextPath[..j]).value, TextPath[j]).KeyError? then Caught else Escaped
  {
    assert TextPath[..j] + TextPath[j..] == TextPath;
    PathAppend(envelope, TextPath[..j], TextPath[j..]);
    assert TextPath[j..][0] == TextPath[j];
  }

  /**
   * A key missing at any step, `candidates`, `content`, `parts` or `text`,
   * is a `KeyError`, which is caught: the call gives up.
   */
  lemma MissingKeyIsCaught(status: int, envelope: Json, j: nat, decode: string -> Option<Json>)
    requires !RaisesForStatus(status) && j < |TextPath| && TextPath[j].Name?
    requires Path(envelope, TextPath[..j]).Found?
    requires Path(envelope, TextPath[..j]).value.JObj?
    requires TextPath[j].name !in Path(envelope, TextPath[..j]).value.fields
    ensures Classify(Response(status, Some(envelope)), decode) == Caught
  {
    FailedStep(status, envelope, j, decode);
  }

  /** The three messages the function reports through `st.error`. */
  datatype Failure = Forbidden | CallFailed | RetriesExceeded

  /** What the function does that a caller can observe, in order. */
  datatype Event =
    | Post(body: Json)                 // one request sent
    | Warn(attempt: nat, delay: nat)   // "retrying in `delay` seconds (attempt `attempt`/...)"
    | Sleep(seconds: nat)
    | Error(failure: Failure)

  /** The function either returns (the parsed answer or None) or lets an exception escape. */
  datatype CallResult = Returned(value: Option<Json>) | Raised

  datatype Call = Call(result: CallResult, trace: seq<Event>)

  /** Everything the call depends on besides the loop's own state. */
  datatype Env = Env(payload: Json, retries: int, server: nat -> Reply, decode: string -> Option<Json>)

  /** The outcome of attempt `i`. */
  function OutcomeAt(env: Env, i: nat): Outcome
  {
    Classify(env.server(i), env.decode)
  }

  /** An outcome after which the loop sleeps and tries again. */
  predicate Retryable(o: Outcome)
  {
    o.HttpError? && o.status != 403
  }

  /**
   * The loop from attempt `i` on, with `delay` seconds to wait after the
   * next retryable failure.
   */
  function Run(env: Env, i: nat, delay: nat): Call
    decreases env.retries - i
  {
    if i >= env.retries then Call(Returned(None), [Error(RetriesExceeded)])
    else match OutcomeAt(env, i)
      case Parsed(v) => Call(Returned(Some(v)), [Post(env.payload)])
      case HttpError(status) =>
        if status == 403 then Call(Returned(None), [Post(env.payload), Error(Forbidden)])
        else
          var rest := Run(env, i + 1, 2 * delay);
          Call(rest.result, [Post(env.payload), Warn(i + 1, delay), Sleep(delay)] + rest.trace)
      case Caught => Call(Returned(None), [Post(env.payload), Error(CallFailed)])
      case Escaped => Call(Raised, [Post(env.payload)])
  }

  /** One retryable failure at attempt `i`: a request, a warning, a sleep of `delay`, then attempt `i + 1` with the delay doubled. */
  lemma RetryStep(env: Env, i: nat, delay: nat)
    requires i < env.retries && Retryable(OutcomeAt(env, i))
    ensures Run(env, i, delay) == Call(Run(env, i + 1, 2 * delay).result,
      [Post(env.payload), Warn(i + 1, delay), Sleep(delay)] + Run(env, i + 1, 2 * delay).trace)
  {
  }

  /** The loop, having produced `done` so far, resumes at attempt `i` with `delay`. */
  predicate Resumes(env: Env, done: seq<Event>, i: nat, delay: nat)
  {
    Run(env, 0, 1) == Call(Run(env, i, delay).result, done + Run(env, i, delay).trace)
  }

  /** A retryable failure at attempt `i` moves the loop to attempt `i + 1` with the delay doubled. */
  lemma Advance(env: Env, done: seq<Event>, i: nat, delay: nat)
    requires i < env.retries && Retryable(OutcomeAt(env, i)) && Resumes(env, done, i, delay)
    ensures Resumes(env, done + [Post(env.payload)] + [Warn(i + 1, delay), Sleep(delay)], i + 1, 2 * delay)
  {
    RetryStep(env, i, delay);
    var rest := Run(env, i + 1, 2 * delay).trace;
    assert done + [Post(env.payload)] + [Warn(i + 1, delay), Sleep(delay)] + rest ==
      done + ([Post(env.payload), Warn(i + 1, delay), Sleep(delay)] + rest);
  }

  /** An attempt that is not a retryable failure is the loop's last: what it adds ends the trace. */
  lemma Settle(env: Env, done: seq<Event>, i: nat, delay: nat)
    requires i < env.retries && !Retryable(OutcomeAt(env, i)) && Resumes(env, done, i, delay)
    ensures var sent := done + [Post(env.payload)];
      match OutcomeAt(env, i)
      case Parsed(v) => Run(env, 0, 1) == Call(Returned(Some(v)), sent)
      case HttpError(_) => Run(env, 0, 1) == Call(Returned(None), sent + [Error(Forbidden)])
      case Caught => Run(env, 0, 1) == Call(Returned(None), sent + [Error(CallFailed)])
      case Escaped => Run(env, 0, 1) == Call(Raised, sent)
  {
    var tail := Run(env, i, delay).trace;
    assert tail == [Post(env.payload)] + tail[1..];
    assert done + tail == done + [Post(env.payload)] + tail[1..];
  }

  /** The default attempt budget of `call_gemini_api`. */
  const DefaultRetries := 5

  /** `call_gemini_api(prompt, base64_image_data, retries)` */
  method CallGeminiApi(prompt: string, imageData: string, retries: int,
                       server: nat -> Reply, decode: string -> Option<Json>)
    returns (result: CallResult, trace: seq<Event>)
    ensures Call(result, trace) == Run(Env(Payload.Build(prompt, imageData), retries, server, decode), 0, 1)
  {
    var payload := Payload.Build(prompt, imageData);
    ghost var env := Env(payload, retries, server, decode);
    trace := [];
    var delay: nat := 1;
    var i: nat := 0;
    while i < retries
      invariant i == 0 || i <= retries
      invariant Resumes(env, trace, i, delay)
      decreases retries - i
    {
      var reply := server(i);
      ghost var before := trace;
      trace := trace + [Post(payload)];
      match Classify(reply, decode) {
        case Parsed(v) =>
          Settle(env, before, i, delay);
          result := Returned(Some(v));
          return;
        case HttpError(status) =>
          if status == 403 {
            Settle(env, before, i, delay);
            trace := trace + [Error(Forbidden)];
            result := Returned(None);
            return;
          }
          Advance(env, before, i, delay);
          trace := trace + [Warn(i + 1, delay), Sleep(delay)];
          delay := delay * 2;
        case Caught =>
          Settle(env, before, i, delay);
          trace := trace + [Error(CallFailed)];
          result := Returned(None);
          return;
        case Escaped =>
          Settle(env, before, i, delay);
          result := Raised;
          return;
      }
      i := i + 1;
    }
    trace := trace + [Error(RetriesExceeded)];
    result := Returned(None);
  }
}
