/**
 * What `call_gemini_api` promises about its attempts: which replies end the
 * loop and how, the back-off schedule 1, 2, 4, ..., the attempt budget, and
 * that nothing happens and no reply is consumed after the loop has stopped.
 */
module RetryProperties {

  import opened Wrappers
  import opened PyJson
  import opened GeminiCall

  function Pow2(n: nat): (p: nat)
    ensures p >= 1
  {
    if n == 0 then 1 else 2 * Pow2(n - 1)
  }

  /** The delays 1, 2, 4, ... of the first `n` retryable failures. */
  function Schedule(n: nat): seq<nat>
  {
    seq(n, (j: int) requires 0 <= j => Pow2(j))
  }

  /** The number of requests sent. */
  function Attempts(t: seq<Event>): nat
  {
    if t == [] then 0 else (if t[0].Post? then 1 else 0) + Attempts(t[1..])
  }

  /** The delays slept, in order. */
  function Sleeps(t: seq<Event>): seq<nat>
  {
    if t == [] then [] else (if t[0].Sleep? then [t[0].seconds] else []) + Sleeps(t[1..])
  }

  function Sum(s: seq<nat>): nat
  {
    if s == [] then 0 else s[0] + Sum(s[1..])
  }

  /** The events of the retryable failures of attempts `i` to `k - 1`. */
  function Backoff(payload: Json, i: nat, k: nat): seq<Event>
    decreases k - i
  {
    if i >= k then [] else [Post(payload), Warn(i + 1, Pow2(i)), Sleep(Pow2(i))] + Backoff(payload, i + 1, k)
  }

  /** Every attempt before `k` failed with an HTTP error other than 403. */
  predicate RetriedBefore(env: Env, k: nat)
  {
    forall j: nat :: j < k ==> Retryable(OutcomeAt(env, j))
  }

  lemma {:induction false} AttemptsAppend(a: seq<Event>, b: seq<Event>)
    ensures Attempts(a + b) == Attempts(a) + Attempts(b)
  {
    if a != [] {
      assert (a + b)[1..] == a[1..] + b;
      AttemptsAppend(a[1..], b);
    } else {
      assert a + b == b;
    }
  }

  lemma {:induction false} SleepsAppend(a: seq<Event>, b: seq<Event>)
    ensures Sleeps(a + b) == Sleeps(a) + Sleeps(b)
  {
    if a != [] {
      assert (a + b)[1..] == a[1..] + b;
      SleepsAppend(a[1..], b);
    } else {
      assert a + b == b;
    }
  }

  /** The events of one retryable failure: one request and one sleep. */
  lemma RetryEvents(payload: Json, n: nat, d: nat)
    ensures Attempts([Post(payload), Warn(n, d), Sleep(d)]) == 1
    ensures Sleeps([Post(payload), Warn(n, d), Sleep(d)]) == [d]
  {
    assert [Sleep(d)][1..] == [] && [d] + [] == [d];
    assert Attempts([Sleep(d)]) == 0 && Sleeps([Sleep(d)]) == [d];
    assert [Warn(n, d), Sleep(d)][1..] == [Sleep(d)];
    assert Attempts([Warn(n, d), Sleep(d)]) == 0 && Sleeps([Warn(n, d), Sleep(d)]) == [d];
    assert [Post(payload), Warn(n, d), Sleep(d)][1..] == [Warn(n, d), Sleep(d)];
  }

  /** The events of a final attempt: one request, no sleep. */
  lemma FinalEvents(payload: Json, tail: seq<Event>)
    requires tail == [] || (|tail| == 1 && tail[0].Error?)
    ensures Attempts([Post(payload)] + tail) == 1
    ensures Sleeps([Post(payload)] + tail) == []
  {
    var s := [Post(payload)] + tail;
    assert s[1..] == tail;
    if tail != [] {
      assert tail[1..] == [];
    }
  }

  /** The back-off events of attempts `i` to `k - 1`: one request each, slept 2^i, ..., 2^(k-1) seconds, no error. */
  lemma {:induction false} BackoffShape(payload: Json, i: nat, k: nat)
    requires i <= k
    ensures Attempts(Backoff(payload, i, k)) == k - i
    ensures Sleeps(Backoff(payload, i, k)) == seq(k - i, (j: int) requires 0 <= j => Pow2(i + j))
    ensures Sum(Sleeps(Backoff(payload, i, k))) == Pow2(k) - Pow2(i)
    ensures forall e :: e in Backoff(payload, i, k) ==> !e.Error?
    decreases k - i
  {
    if i < k {
      var head := [Post(payload), Warn(i + 1, Pow2(i)), Sleep(Pow2(i))];
      BackoffShape(payload, i + 1, k);
      AttemptsAppend(head, Backoff(payload, i + 1, k));
      SleepsAppend(head, Backoff(payload, i + 1, k));
      RetryEvents(payload, i + 1, Pow2(i));
      assert [Pow2(i)] + Sleeps(Backoff(payload, i + 1, k)) == seq(k - i, (j: int) requires 0 <= j => Pow2(i + j));
      assert Pow2(i + 1) == 2 * Pow2(i);
    }
  }

  /**
   * The loop from attempt `i` on, with delay 2^i, is the back-off events of
   * attempts `i` to `k - 1` followed by the loop from attempt `k` on.
   */
  predicate BacksOffTo(env: Env, i: nat, k: nat)
  {
    Run(env, i, Pow2(i)) == Call(Run(env, k, Pow2(k)).result, Backoff(env.payload, i, k) + Run(env, k, Pow2(k)).trace)
  }

  /** One more retryable failure in front extends the back-off by its events. */
  lemma BackoffPrepend(env: Env, i: nat, k: nat)
    requires i < k && k <= env.retries && Retryable(OutcomeAt(env, i)) && BacksOffTo(env, i + 1, k)
    ensures BacksOffTo(env, i, k)
  {
    var last := Run(env, k, Pow2(k));
    var head := [Post(env.payload), Warn(i + 1, Pow2(i)), Sleep(Pow2(i))];
    Pow2Step(i);
    RetryStep(env, i, Pow2(i));
    AppendAssoc(head, Backoff(env.payload, i + 1, k), last.trace);
  }

  /** 2^(i+1) = 2 * 2^i */
  lemma Pow2Step(i: nat)
    ensures Pow2(i + 1) == 2 * Pow2(i)
  {
  }

  lemma AppendAssoc<T>(a: seq<T>, b: seq<T>, c: seq<T>)
    ensures a + (b + c) == (a + b) + c
  {
  }

  /**
   * After `k - i` retryable failures from attempt `i` on, the loop has sent
   * `k - i` requests and slept the doubling delays, and continues at attempt
   * `k` with delay 2^k.
   */
  lemma {:induction false} RunAfterRetries(env: Env, i: nat, k: nat)
    requires i <= k && k <= env.retries
    requires RetriedBefore(env, k)
    ensures Run(env, i, Pow2(i)) ==
      Call(Run(env, k, Pow2(k)).result, Backoff(env.payload, i, k) + Run(env, k, Pow2(k)).trace)
    decreases k - i
  {
    if i < k {
      RunAfterRetries(env, i + 1, k);
      BackoffPrepend(env, i, k);
    }
  }

  /**
   * The first attempt that does not fail retryably is the last one: the
   * loop's result and trace are the back-off of the earlier attempts
   * followed by what that attempt (or the exhausted budget) gives.
   */
  lemma StopsAt(env: Env, k: nat)
    requires k <= env.retries && RetriedBefore(env, k)
    ensures Run(env, 0, 1) == Call(Run(env, k, Pow2(k)).result, Backoff(env.payload, 0, k) + Run(env, k, Pow2(k)).trace)
    ensures Attempts(Backoff(env.payload, 0, k)) == k && Sleeps(Backoff(env.payload, 0, k)) == Schedule(k)
  {
    RunAfterRetries(env, 0, k);
    BackoffShape(env.payload, 0, k);
  }

  /** The first successful attempt returns its decoded answer; no later reply is consumed. */
  lemma SuccessStops(env: Env, k: nat, v: Json)
    requires k < env.retries && RetriedBefore(env, k) && OutcomeAt(env, k) == Parsed(v)
    ensures Run(env, 0, 1) == Call(Returned(Some(v)), Backoff(env.payload, 0, k) + [Post(env.payload)])
    ensures Attempts(Run(env, 0, 1).trace) == k + 1 && Sleeps(Run(env, 0, 1).trace) == Schedule(k)
  {
    StopsAt(env, k);
    AttemptsAppend(Backoff(env.payload, 0, k), [Post(env.payload)]);
    SleepsAppend(Backoff(env.payload, 0, k), [Post(env.payload)]);
    FinalEvents(env.payload, []);
    assert [Post(env.payload)] + [] == [Post(env.payload)];
  }

  /** A 403 returns None at once, reporting it, whatever budget remains: no sleep, no further attempt. */
  lemma ForbiddenStops(env: Env, k: nat)
    requires k < env.retries && RetriedBefore(env, k) && OutcomeAt(env, k) == HttpError(403)
    ensures Run(env, 0, 1) == Call(Returned(None), Backoff(env.payload, 0, k) + [Post(env.payload), Error(Forbidden)])
    ensures Attempts(Run(env, 0, 1).trace) == k + 1 && Sleeps(Run(env, 0, 1).trace) == Schedule(k)
  {
    StopsAt(env, k);
    var tail := [Post(env.payload), Error(Forbidden)];
    AttemptsAppend(Backoff(env.payload, 0, k), tail);
    SleepsAppend(Backoff(env.payload, 0, k), tail);
    FinalEvents(env.payload, tail[1..]);
  }

  /** A transport, JSON-decoding or KeyError failure returns None at once, reporting it. */
  lemma FailureStops(env: Env, k: nat)
    requires k < env.retries && RetriedBefore(env, k) && OutcomeAt(env, k) == Caught
    ensures Run(env, 0, 1) == Call(Returned(None), Backoff(env.payload, 0, k) + [Post(env.payload), Error(CallFailed)])
    ensures Attempts(Run(env, 0, 1).trace) == k + 1 && Sleeps(Run(env, 0, 1).trace) == Schedule(k)
  {
    StopsAt(env, k);
    var tail := [Post(env.payload), Error(CallFailed)];
    AttemptsAppend(Backoff(env.payload, 0, k), tail);
    SleepsAppend(Backoff(env.payload, 0, k), tail);
    FinalEvents(env.payload, tail[1..]);
  }

  /** An exception no handler names leaves the function right after the request that caused it. */
  lemma EscapeStops(env: Env, k: nat)
    requires k < env.retries && RetriedBefore(env, k) && OutcomeAt(env, k) == Escaped
    ensures Run(env, 0, 1) == Call(Raised, Backoff(env.payload, 0, k) + [Post(env.payload)])
    ensures Attempts(Run(env, 0, 1).trace) == k + 1 && Sleeps(Run(env, 0, 1).trace) == Schedule(k)
  {
    StopsAt(env, k);
    AttemptsAppend(Backoff(env.payload, 0, k), [Post(env.payload)]);
    SleepsAppend(Backoff(env.payload, 0, k), [Post(env.payload)]);
    FinalEvents(env.payload, []);
    assert [Post(env.payload)] + [] == [Post(env.payload)];
  }

  /**
   * When every attempt fails retryably, the loop makes exactly `retries`
   * attempts, sleeps after each one, the last included, for 2^retries - 1
   * seconds in all, and returns None reporting that the retries ran out.
   */
  lemma Exhausted(env: Env)
    requires env.retries >= 0 && RetriedBefore(env, env.retries)
    ensures Run(env, 0, 1) == Call(Returned(None), Backoff(env.payload, 0, env.retries) + [Error(RetriesExceeded)])
    ensures Attempts(Run(env, 0, 1).trace) == env.retries
    ensures Sleeps(Run(env, 0, 1).trace) == Schedule(env.retries)
    ensures Sum(Sleeps(Run(env, 0, 1).trace)) == Pow2(env.retries) - 1
  {
    var k: nat := env.retries;
    StopsAt(env, k);
    BackoffShape(env.payload, 0, k);
    AttemptsAppend(Backoff(env.payload, 0, k), [Error(RetriesExceeded)]);
    SleepsAppend(Backoff(env.payload, 0, k), [Error(RetriesExceeded)]);
    assert Sleeps(Backoff(env.payload, 0, k) + [Error(RetriesExceeded)]) == Sleeps(Backoff(env.payload, 0, k)) + [];
  }

  /** With no budget the loop body never runs: nothing is sent and the retries are reported exhausted. */
  lemma NoBudget(env: Env)
    requires env.retries <= 0
    ensures Run(env, 0, 1) == Call(Returned(None), [Error(RetriesExceeded)])
  {
  }

  /** An attempt that is not a retryable failure ends the loop with one request and at most one reported error. */
  lemma FinalStep(env: Env, i: nat, delay: nat)
    requires i < env.retries && !Retryable(OutcomeAt(env, i))
    ensures var t := Run(env, i, delay).trace;
      t == [Post(env.payload)] + t[1..] && (t[1..] == [] || (|t[1..]| == 1 && t[1..][0].Error?))
  {
  }

  /** The attempt bound and the delay schedule, for the trace `t` of the loop from attempt `i` on. */
  predicate Counted(t: seq<Event>, retries: int, i: nat)
  {
    && Attempts(t) <= (if retries > i then retries - i else 0)
    && |Sleeps(t)| <= Attempts(t)
    && (forall j :: 0 <= j < |Sleeps(t)| ==> Sleeps(t)[j] == Pow2(i + j))
  }

  /**
   * For every sequence of replies: at most `retries` requests are sent, and
   * the delays slept are 2^i, 2^(i+1), ... in order, one per request at most.
   */
  lemma {:induction false} RunCounts(env: Env, i: nat)
    ensures Counted(Run(env, i, Pow2(i)).trace, env.retries, i)
    decreases env.retries - i
  {
    if i < env.retries {
      if Retryable(OutcomeAt(env, i)) {
        RunCounts(env, i + 1);
        CountedRetry(env, i);
      } else {
        CountedFinal(env, i);
      }
    }
  }

  /** A retryable failure keeps the attempt bound and the delay schedule of what follows. */
  lemma CountedRetry(env: Env, i: nat)
    requires i < env.retries && Retryable(OutcomeAt(env, i))
    requires Counted(Run(env, i + 1, Pow2(i + 1)).trace, env.retries, i + 1)
    ensures Counted(Run(env, i, Pow2(i)).trace, env.retries, i)
  {
    assert Pow2(i + 1) == 2 * Pow2(i);
    RetryStep(env, i, Pow2(i));
    CountedAfterRetry(env.payload, env.retries, i, Run(env, i + 1, Pow2(i + 1)).trace);
  }

  /** A final attempt sends one request and sleeps not at all. */
  lemma CountedFinal(env: Env, i: nat)
    requires i < env.retries && !Retryable(OutcomeAt(env, i))
    ensures Counted(Run(env, i, Pow2(i)).trace, env.retries, i)
  {
    var t := Run(env, i, Pow2(i)).trace;
    FinalStep(env, i, Pow2(i));
    FinalEvents(env.payload, t[1..]);
  }

  lemma CountedAfterRetry(payload: Json, retries: int, i: nat, rest: seq<Event>)
    requires i < retries && Counted(rest, retries, i + 1)
    ensures Counted([Post(payload), Warn(i + 1, Pow2(i)), Sleep(Pow2(i))] + rest, retries, i)
  {
    var head := [Post(payload), Warn(i + 1, Pow2(i)), Sleep(Pow2(i))];
    var t := head + rest;
    AttemptsAppend(head, rest);
    SleepsAppend(head, rest);
    RetryEvents(payload, i + 1, Pow2(i));
    forall j | 0 <= j < |Sleeps(t)|
      ensures Sleeps(t)[j] == Pow2(i + j)
    {
      if j > 0 {
        assert Sleeps(t)[j] == Sleeps(rest)[j - 1];
      }
    }
  }

  /**
   * For every sequence of replies, nothing happens after a terminal return:
   * the trace ends with a request or a reported error, and an error is
   * reported only as the very last event.
   */
  lemma {:induction false} RunEnds(env: Env, i: nat, delay: nat)
    ensures var t := Run(env, i, delay).trace;
      && t != [] && (t[|t| - 1].Post? || t[|t| - 1].Error?)
      && (forall j :: 0 <= j < |t| - 1 ==> !t[j].Error?)
    decreases env.retries - i
  {
    if i < env.retries {
      if Retryable(OutcomeAt(env, i)) {
        var head := [Post(env.payload), Warn(i + 1, delay), Sleep(delay)];
        var rest := Run(env, i + 1, 2 * delay).trace;
        RetryStep(env, i, delay);
        RunEnds(env, i + 1, 2 * delay);
        var t := head + rest;
        forall j | 0 <= j < |t| - 1
          ensures !t[j].Error?
        {
          if j >= 3 {
            assert t[j] == rest[j - 3];
          }
        }
      } else {
        FinalStep(env, i, delay);
      }
    }
  }

  /**
   * For every sequence of replies, an error message is the last thing the
   * call shows exactly when it returns None: every None comes with a message
   * saying why, and an answer (or an escaping exception) never does.
   */
  lemma {:induction false} ErrorExactlyOnNone(env: Env, i: nat, delay: nat)
    ensures var c := Run(env, i, delay);
      c.trace != [] && (c.trace[|c.trace| - 1].Error? <==> c.result == Returned(None))
    decreases env.retries - i
  {
    if i < env.retries && Retryable(OutcomeAt(env, i)) {
      var rest := Run(env, i + 1, 2 * delay);
      var t := [Post(env.payload), Warn(i + 1, delay), Sleep(delay)] + rest.trace;
      RetryStep(env, i, delay);
      ErrorExactlyOnNone(env, i + 1, 2 * delay);
      assert t[|t| - 1] == rest.trace[|rest.trace| - 1];
    }
  }

  /**
   * Only the replies to the requests actually sent matter: replacing the
   * replies to attempts the loop never reaches changes neither the result
   * nor the trace.
   */
  lemma {:induction false} OnlySentRequestsMatter(env: Env, other: nat -> Reply, i: nat, delay: nat)
    requires forall j: nat :: i <= j < i + Attempts(Run(env, i, delay).trace) ==> other(j) == env.server(j)
    ensures Run(env.(server := other), i, delay) == Run(env, i, delay)
    decreases env.retries - i
  {
    var env' := env.(server := other);
    if i < env.retries {
      var t := Run(env, i, delay).trace;
      assert t[0] == Post(env.payload);
      assert Attempts(t) >= 1;
      assert other(i) == env.server(i);
      assert OutcomeAt(env', i) == OutcomeAt(env, i);
      if Retryable(OutcomeAt(env, i)) {
        var head3 := [Post(env.payload), Warn(i + 1, delay), Sleep(delay)];
        var rest := Run(env, i + 1, 2 * delay).trace;
        assert t == head3 + rest;
        AttemptsAppend(head3, rest);
        RetryEvents(env.payload, i + 1, delay);
        OnlySentRequestsMatter(env, other, i + 1, 2 * delay);
      }
    }
  }
}
