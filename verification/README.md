# Food calorie estimator: the API call and the total, in Dafny

The estimator is a small Streamlit page. The user uploads a photo of a meal. The page
sends the photo, with a prompt, to a multimodal inference endpoint. It shows the list of
`{food_item, calories}` objects the endpoint answers, and their total. This project models
the logic behind that page:

- **The request body** (`Payload`). `call_gemini_api` posts one user turn. Its parts are
  the prompt text and the inlined JPEG image. A generation configuration asks for a JSON
  answer shaped by a response schema: an ARRAY of OBJECTs {food_item: STRING, calories:
  NUMBER}. The body is a JSON value (`PyJson.Json`). Its contract says what a reader finds
  at each path. `Payload.Admits` gives the schema a meaning, so the model can state what
  any answer that obeys the schema looks like.
- **One attempt** (`GeminiCall.Classify`). The reply to a POST is abstract. Either the
  transport fails, or the reply has a status and a body that may or may not decode as
  JSON. Five things decide how the attempt ends: whether the transport fails, the status
  check of `raise_for_status` (4xx and 5xx only), whether `response.json()` decodes the
  body, the subscript chain `result["candidates"][0]["content"]["parts"][0]["text"]` with
  Python's own exceptions (`PyJson.Subscript`), and the decoding of the model's text. The
  attempt ends in one of four ways. It yields a parsed answer. It fails with an HTTP error. It fails with an
  exception the function catches. Or it fails with an exception the function does not
  catch.
- **The retry loop** (`GeminiCall.CallGeminiApi`). This is a `while` loop over the attempt
  index. It keeps the delay in a local variable, as the source does. It is proved equal to
  the recursive specification `GeminiCall.Run`. Sleeping, warnings and error messages are
  recorded as a trace of events. `RetryProperties` proves what the loop promises: which
  outcome ends it, the delays 1, 2, 4, …, at most `retries` requests, and nothing after a
  terminal return. It also proves that replies to requests never sent cannot matter.
- **The total** (`Calories`). `if results:` followed by
  `sum(item.get("calories", 0) for item in results)`, with Python's truthiness. A missing
  field counts as 0. An item that is not a dict, or a calories value that cannot be added
  to an int, raises.
- **The button action** (`App.EstimateCalories`). It makes the call with the default budget
  of 5 and summarises the answer. `App` also holds concrete scenarios: one answer, a 403, a
  malformed answer, four server errors and then an answer, and five server errors.

The network is a function `server: nat -> Reply`, the reply to the i-th request. `json.loads`
of the model's text is a function `decode: string -> Option<Json>`, where `None` stands for
a `JSONDecodeError`.

Three behaviours of the code that a reader of the function might not expect, all kept
in the model:

- Not every malformed envelope is handled. An empty `candidates` list raises
  `IndexError`, and a `text` that is not a string makes `json.loads` raise `TypeError`.
  Neither exception is named by a handler, so both leave `call_gemini_api` and reach the
  page. The model keeps them apart as `Escaped` / `Raised` (`GeminiCall.NoCandidateEscapes`).
- Only 4xx and 5xx statuses raise in `raise_for_status`. A 1xx or 3xx reply goes on to
  read its body like a 2xx reply.
- The parsed answer is not checked against the response schema. An answer that does not
  fit it reaches the sum, and the sum may raise (`Calories.Summarize` gives `Crashed`).

## Model

| member | source | states |
|---|---|---|
| `PyJson.Subscript` | streamlit_food_calorie_estimator.py:66 | a dict raises `KeyError` exactly when the key is missing (an integer index is a missing key), and nothing else raises it; a list or string raises another exception exactly when the index is a name or out of range, and every other value always does; a found key is the dict's value, a found index the element |
| `PyJson.PathAppend` | streamlit_food_calorie_estimator.py:66 | the subscript chain (`PyJson.Path`) splits at any point: the value after a prefix, then the rest; an exception in the prefix is the exception of the whole chain |
| `Payload.BuildLayout` | streamlit_food_calorie_estimator.py:28-58 | the body `Payload.Build` constructs has exactly `contents` and `generationConfig`; one user turn with exactly two parts: the prompt verbatim, then `inlineData` with mimeType `image/jpeg` and the image data verbatim; responseMimeType `application/json`; responseSchema is the ARRAY/OBJECT schema |
| `Payload.BuildInjective` | streamlit_food_calorie_estimator.py:28-58 | two bodies are equal exactly when their prompts and image data are equal (nothing is lost or altered) |
| `Payload.AdmitsEstimate` | streamlit_food_calorie_estimator.py:49-55 | the element schema admits exactly the dicts whose `food_item`, if present, is a string and whose `calories`, if present, is a number |
| `Payload.AdmitsElementwise` | streamlit_food_calorie_estimator.py:47-56 | the response schema admits a list exactly when it admits each element |
| `GeminiCall.Classify` | streamlit_food_calorie_estimator.py:63-68 | an attempt fails with an HTTP error exactly when a response has a 4xx/5xx status, and it carries that status; a failed transport (line 63) or a body `response.json()` cannot decode (line 65) is the caught failure of line 75; any other reply is settled by reading its envelope |
| `GeminiCall.Interpret` | streamlit_food_calorie_estimator.py:66-75 | never an HTTP error; a `KeyError` in the chain is caught; any other exception in the chain, or a text that is not a string (`TypeError` in `json.loads`), escapes; a string text gives its decoded value, or the caught failure when it does not decode |
| `GeminiCall.EnvelopeOutcome` | streamlit_food_calorie_estimator.py:64-67 | a non-error reply whose envelope, whatever other keys it holds, has a string text at the end of the chain yields that text's decoded value, or the caught failure when decoding fails |
| `GeminiCall.CaughtExactly` | streamlit_food_calorie_estimator.py:63-75 | an attempt ends in the caught failure exactly for a failed transport, an undecodable body, a `KeyError` in the chain, or a string text that does not decode |
| `GeminiCall.MissingCandidatesIsCaught` | streamlit_food_calorie_estimator.py:66-77 | an envelope without `candidates` is a caught `KeyError` |
| `GeminiCall.NoCandidateEscapes` | streamlit_food_calorie_estimator.py:66-75 | an empty `candidates` list is an `IndexError` that no handler catches |
| `GeminiCall.FailedStep` | streamlit_food_calorie_estimator.py:66-77 | whichever step of the chain first fails decides the attempt: a `KeyError` is caught (line 75), any other exception escapes |
| `GeminiCall.MissingKeyIsCaught` | streamlit_food_calorie_estimator.py:66-77 | a missing `candidates`, `content`, `parts` or `text` key, at whatever step, is a caught `KeyError` |
| `GeminiCall.CallGeminiApi` | streamlit_food_calorie_estimator.py:60-80 | the loop's result and trace equal the recursive reference `GeminiCall.Run` from attempt 0 with delay 1, on the body built from the prompt and the image |
| `RetryProperties.BackoffShape` | streamlit_food_calorie_estimator.py:72-74 | failures i..k-1 send k-i requests, sleep 2^i, …, 2^(k-1) in order for 2^k - 2^i seconds, and report no error |
| `RetryProperties.RunAfterRetries` | streamlit_food_calorie_estimator.py:61-74 | after retryable failures on attempts i..k-1, the loop continues at attempt k with delay 2^k, the back-off events before it |
| `RetryProperties.StopsAt` | streamlit_food_calorie_estimator.py:60-80 | the first attempt that is not a retryable failure decides result and trace after k requests and the delays 1, 2, …, 2^(k-1) |
| `RetryProperties.SuccessStops` | streamlit_food_calorie_estimator.py:63-67 | the first parsed answer is returned after k+1 requests and k sleeps; no later reply is consumed |
| `RetryProperties.ForbiddenStops` | streamlit_food_calorie_estimator.py:68-71 | a 403 returns None at once with a Forbidden error, no sleep for it and no further request, whatever budget remains |
| `RetryProperties.FailureStops` | streamlit_food_calorie_estimator.py:75-77 | a transport, JSON-decoding or `KeyError` failure returns None at once with an error, no sleep, no retry |
| `RetryProperties.EscapeStops` | streamlit_food_calorie_estimator.py:62-68 | an uncaught exception leaves the function right after the request that caused it |
| `RetryProperties.Exhausted` | streamlit_food_calorie_estimator.py:61-80 | if every attempt fails retryably: exactly `retries` requests, a sleep after each (the last included) of 1, 2, …, 2^(retries-1), 2^retries - 1 seconds in all, then "maximum retries exceeded" and None |
| `RetryProperties.NoBudget` | streamlit_food_calorie_estimator.py:61-80 | with `retries <= 0` nothing is sent and the result is None with "maximum retries exceeded" |
| `RetryProperties.RunCounts` | streamlit_food_calorie_estimator.py:60-74 | for every sequence of replies: at most `retries` requests, no more sleeps than requests, and the j-th sleep lasts 2^j |
| `RetryProperties.RunEnds` | streamlit_food_calorie_estimator.py:60-80 | for every sequence of replies the trace ends with a request or an error, and an error is only ever the last event |
| `RetryProperties.ErrorExactlyOnNone` | streamlit_food_calorie_estimator.py:60-80 | for every sequence of replies the last event is an error message (lines 70, 76, 79) exactly when the call returns None (a text that decodes to `null` is `Some(JNull)` in the model, see Left out) |
| `RetryProperties.OnlySentRequestsMatter` | streamlit_food_calorie_estimator.py:61-67 | replacing the replies to requests never sent changes neither result nor trace |
| `Calories.CaloriesOf` | streamlit_food_calorie_estimator.py:127 | `item.get("calories", 0)` can be added exactly when the item is a dict whose calories, if present, is a number or a bool; it is 0 when missing, the number when present, and 1 or 0 for `True` or `False` |
| `Calories.Plus` | streamlit_food_calorie_estimator.py:127 | the running sum raises exactly when either side raised; otherwise it is the integer sum |
| `Calories.TotalCalories` | streamlit_food_calorie_estimator.py:127 | the sum is defined exactly when every item's `get("calories", 0)` can be added; an empty list totals 0 |
| `Calories.TotalSingle` | streamlit_food_calorie_estimator.py:127 | one item totals its own calories, 0 when the field is missing |
| `Calories.TotalAppend` | streamlit_food_calorie_estimator.py:127 | total(a ++ b) = total(a) + total(b), an exception on either side propagating; with total([]) = 0 this fixes the total |
| `Calories.TotalNonNegative` | streamlit_food_calorie_estimator.py:127 | non-negative estimates give a defined, non-negative total |
| `Calories.AdmittedHasTotal` | streamlit_food_calorie_estimator.py:47-56 | every answer the response schema admits has a total (the sum cannot raise) |
| `Calories.Summarize` | streamlit_food_calorie_estimator.py:119-127 | nothing is shown exactly when the result is falsy by Python's rules (`PyJson.Truthy`); a breakdown is only shown for a non-empty list |
| `Calories.BreakdownExactly` | streamlit_food_calorie_estimator.py:119-127 | a breakdown is shown exactly for a non-empty list of countable items, with the list's total |
| `App.Shown` | streamlit_food_calorie_estimator.py:117-128 | an exception from the call crashes the page; nothing is shown exactly for a falsy returned value; a breakdown only for a non-empty list that was returned; conversely, a returned value is shown as `Calories.Summarize` shows it, so a returned non-empty list whose items can all be counted is shown as a breakdown of those items with their total |
| `App.EstimateCalories` | streamlit_food_calorie_estimator.py:117-128 | the page makes the call with the default budget of 5 and shows the summary of its answer; a shown breakdown followed at most 5 requests |
| `App.AppleScenario` | streamlit_food_calorie_estimator.py:63-67 | a 200 reply whose text decodes to [{Apple, 95}] is returned after one request and totals 95 |
| `App.ForbiddenFirst` | streamlit_food_calorie_estimator.py:68-71 | a 403 on the first attempt: one request, no sleep, None |
| `App.MalformedTextFirst` | streamlit_food_calorie_estimator.py:67-77 | malformed JSON text in a 200 reply: one request, an error, None |
| `App.RecoversOnFifthAttempt` | streamlit_food_calorie_estimator.py:60-74 | four 500s then an answer: five requests, sleeps 1, 2, 4, 8 (15 seconds), the answer returned |
| `App.AllAttemptsFail` | streamlit_food_calorie_estimator.py:60-80 | five 500s: five requests, sleeps 1, 2, 4, 8, 16 (31 seconds), "maximum retries exceeded", None |
| `App.MissingCaloriesCountZero` | streamlit_food_calorie_estimator.py:127 | [{A, 10}, {B}] totals 10 |
| `App.NullAnswerShowsNothing` | streamlit_food_calorie_estimator.py:117-119 | an answer that decodes to JSON null shows the same as None: nothing |

## Left out

- `image_to_base64` (lines 17-21): JPEG encoding and base64 are library calls whose code is not part of this model. The image data is an arbitrary string.
- The HTTP POST, `raise_for_status` and `response.json()` (lines 63-65): the network is the abstract reply function `server`. The endpoint URL and API key (lines 11-13) are configuration and are not modelled.
- `json.loads` of the model's text (line 67): a JSON parser is out of scope. It is the abstract function `decode`.
- `time.sleep` (line 73): the delay is recorded as a `Sleep` event. No time passes.
- The text of the `st.warning` and `st.error` messages (lines 70, 72, 76, 79): only which message appears is recorded (`Warn` with attempt number and delay, and `Error` with its kind).
- The Streamlit page (lines 84-131): page setup, uploader, image display, button, spinner, `st.table` rendering, headers, and the fixed prompt text (lines 109-115). The prompt is a parameter.
- JSON numbers are integers. Fractional calorie values and float addition are not modelled.
- `PyJson.Subscript`: an exception raised while a JSON value is indexed is only told apart as `KeyError` (caught) or another exception (not caught). Which other exception it is (`IndexError` or `TypeError`) is not recorded.
- GeminiCall.Run: a model text that decodes to JSON `null` makes Python return `None`, the same value as every failure path; the model returns `Some(JNull)` there, so that `RetryProperties.ErrorExactlyOnNone` can tell a failure from a null answer. The page shows nothing for either (`App.NullAnswerShowsNothing`).
